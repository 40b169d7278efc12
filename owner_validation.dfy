/**
 * Validation of owner requests: a guard chain that returns at once with an
 * InvalidInput error for the first failing check.  The phone and e-mail
 * patterns are the validator's two regular expressions, written out as
 * predicates over characters.
 */
module OwnerValidation {
  import opened Common
  import opened AppErrors
  import opened Records

  /** A character of the phone pattern ^[0-9+\-\s()]+$; \s is RE2's [\t\n\f\r ]. */
  predicate IsPhoneChar(c: char) {
    IsDigit(c) || c in "+-()" || c in "\t\n\U{C}\r "
  }

  predicate IsPhone(s: string) {
    |s| > 0 && forall i | 0 <= i < |s| :: IsPhoneChar(s[i])
  }

  predicate IsAsciiLetter(c: char) {
    'a' <= c <= 'z' || 'A' <= c <= 'Z'
  }

  /** A character of the local part [a-zA-Z0-9._%+-]. */
  predicate IsLocalChar(c: char) {
    IsAsciiLetter(c) || IsDigit(c) || c in "._%+-"
  }

  /** A character of the domain part [a-zA-Z0-9.-]. */
  predicate IsDomainChar(c: char) {
    IsAsciiLetter(c) || IsDigit(c) || c in ".-"
  }

  /** [a-zA-Z0-9.-]+\.[a-zA-Z]{2,}: some dot splits a non-empty host from a top-level domain of two or more letters. */
  predicate IsEmailDomain(d: string) {
    exists j | 0 < j < |d| - 2 ::
      && d[j] == '.'
      && (forall k | 0 <= k < j :: IsDomainChar(d[k]))
      && (forall k | j < k < |d| :: IsAsciiLetter(d[k]))
  }

  /** The e-mail pattern ^[a-zA-Z0-9._%+-]+@[a-zA-Z0-9.-]+\.[a-zA-Z]{2,}$. */
  predicate IsEmail(s: string) {
    exists i | 0 < i < |s| ::
      && s[i] == '@'
      && (forall k | 0 <= k < i :: IsLocalChar(s[k]))
      && IsEmailDomain(s[i + 1..])
  }

  /** The checks of the optional contact fields, shared by both validators. */
  function CheckContact(req: OwnerRequest): (r: Option<Error>)
    ensures r.None? <==> AcceptableContact(req)
    ensures r.Some? ==> r.value.App? && IsInvalidInput(r.value)
  {
    if req.phone != "" && Utf8Len(req.phone) > 20 then
      Some(WrapInvalidInput("phone number must be less than 20 characters"))
    else if req.phone != "" && !IsPhone(req.phone) then
      Some(WrapInvalidInput("invalid phone number format"))
    else if req.email != "" && Utf8Len(req.email) > 255 then
      Some(WrapInvalidInput("email must be less than 255 characters"))
    else if req.email != "" && !IsEmail(req.email) then
      Some(WrapInvalidInput("invalid email format"))
    else None
  }

  /** ValidateCreateOwner: a name of 1-100 bytes is required, then the contact checks. */
  function ValidateCreateOwner(req: OwnerRequest): (r: Option<Error>)
    ensures r.None? <==> 1 <= Utf8Len(req.name) <= 100 && AcceptableContact(req)
    ensures r.Some? ==> r.value.App? && IsInvalidInput(r.value)
  {
    if req.name == "" then Some(WrapInvalidInput("owner name is required"))
    else if Utf8Len(req.name) > 100 then Some(WrapInvalidInput("owner name must be less than 100 characters"))
    else CheckContact(req)
  }

  /** ValidateUpdateOwner: the name is optional; every check applies only to a non-empty field. */
  function ValidateUpdateOwner(req: OwnerRequest): (r: Option<Error>)
    ensures r.None? <==> Utf8Len(req.name) <= 100 && AcceptableContact(req)
    ensures r.Some? ==> r.value.App? && IsInvalidInput(r.value)
  {
    if req.name != "" && Utf8Len(req.name) > 100 then
      Some(WrapInvalidInput("owner name must be less than 100 characters"))
    else CheckContact(req)
  }

  /** Acceptable contact details: each given field fits its byte limit and its pattern. */
  predicate AcceptableContact(req: OwnerRequest) {
    && (req.phone == "" || (Utf8Len(req.phone) <= 20 && IsPhone(req.phone)))
    && (req.email == "" || (Utf8Len(req.email) <= 255 && IsEmail(req.email)))
  }

  /** Anything the create validator accepts, the update validator accepts too. */
  lemma CreateAcceptedIsUpdateAccepted(req: OwnerRequest)
    ensures ValidateCreateOwner(req).None? ==> ValidateUpdateOwner(req).None?
  {
  }

  /** Update never requires a name: with no name and no contact details, the request passes. */
  lemma UpdateNeedsNoName(req: OwnerRequest)
    requires req.name == "" && req.phone == "" && req.email == ""
    ensures ValidateUpdateOwner(req) == None
    ensures ValidateCreateOwner(req) == Some(WrapInvalidInput("owner name is required"))
  {
  }

  /** Example: a Japanese landline number matches the phone pattern; a number with letters does not (PhoneShape states the general facts). */
  lemma PhoneExamples()
    ensures IsPhone("03-1234-5678")
    ensures IsPhone("+81 (3) 1234")
    ensures !IsPhone("03-CALL-NOW")
    ensures !IsPhone("")
  {
    assert !IsPhoneChar("03-CALL-NOW"[3]);
  }

  /** Example: an address with a dotted domain matches the e-mail pattern (EmailShape states the general facts). */
  lemma EmailAccepted()
    ensures IsEmail("info@clinic.jp")
  {
    var d := "clinic.jp";
    DomainAccepted();
    var s := "info@clinic.jp";
    assert s[5..] == d;
    assert forall k | 0 <= k < 4 :: IsLocalChar(s[k]);
    assert s[4] == '@';
  }

  /** A host and a two-letter top-level domain match the domain part of the pattern. */
  lemma DomainAccepted()
    ensures IsEmailDomain("clinic.jp")
  {
    var d := "clinic.jp";
    assert d[6] == '.';
    assert forall k | 0 <= k < 6 :: IsDomainChar(d[k]);
    assert forall k | 6 < k < |d| :: IsAsciiLetter(d[k]);
  }

  /** A phone number never holds a letter, and two phone numbers written one after the other form one. */
  lemma PhoneShape(s: string, t: string)
    ensures IsPhone(s) ==> forall i | 0 <= i < |s| :: !IsAsciiLetter(s[i])
    ensures IsPhone(s) && IsPhone(t) ==> IsPhone(s + t)
    ensures IsPhone(s + t) && s != [] ==> IsPhone(s)
  {
    if IsPhone(s + t) && s != [] {
      assert forall i | 0 <= i < |s| :: s[i] == (s + t)[i];
    }
  }

  /**
   * Every accepted address has at least six characters, ends in two
   * letters, holds an '@' after its first character, and holds a dot after
   * that '@'; an address without a dot is refused.
   */
  lemma EmailShape(s: string)
    ensures IsEmail(s) ==> |s| >= 6 && IsAsciiLetter(s[|s| - 1]) && IsAsciiLetter(s[|s| - 2])
    ensures IsEmail(s) ==> exists i, j | 0 < i < j < |s| - 2 :: s[i] == '@' && s[j] == '.'
    ensures (forall k | 0 <= k < |s| :: s[k] != '.') ==> !IsEmail(s)
  {
    if IsEmail(s) {
      var i :| 0 < i < |s| && s[i] == '@' && IsEmailDomain(s[i + 1..]);
      EmailDomainShape(s, i);
    }
  }

  /** The shape of an address whose domain part starts after the '@' at `i`. */
  lemma EmailDomainShape(s: string, i: nat)
    requires i < |s| && IsEmailDomain(s[i + 1..])
    ensures |s| >= i + 5 && IsAsciiLetter(s[|s| - 1]) && IsAsciiLetter(s[|s| - 2])
    ensures exists j | i < j < |s| - 2 :: s[j] == '.'
  {
    var d := s[i + 1..];
    var j :| 0 < j < |d| - 2 && d[j] == '.' && (forall k | j < k < |d| :: IsAsciiLetter(d[k]));
    assert d[|d| - 1] == s[|s| - 1] && d[|d| - 2] == s[|s| - 2];
    assert d[j] == s[i + 1 + j];
  }

  /** Example: an address whose domain has no dot, or a one-letter top-level domain, does not match. */
  lemma EmailWithoutTopLevelDomainRejected()
    ensures !IsEmail("info@clinic")
    ensures !IsEmail("info@clinic.j")
  {
    forall i | 0 < i < |"info@clinic"| && "info@clinic"[i] == '@' ensures !IsEmailDomain("info@clinic"[i + 1..]) {
      assert i == 4;
      var d := "info@clinic"[5..];
      assert d == "clinic";
      forall j | 0 < j < |d| - 2 ensures d[j] != '.' {}
    }
    forall i | 0 < i < |"info@clinic.j"| && "info@clinic.j"[i] == '@' ensures !IsEmailDomain("info@clinic.j"[i + 1..]) {
      assert i == 4;
      var d := "info@clinic.j"[5..];
      assert d == "clinic.j";
      forall j | 0 < j < |d| - 2 ensures d[j] != '.' {}
    }
  }

  /**
   * Neither side of the pattern's '@' admits another '@', so the '@' at
   * which an address matches is the only one it holds.
   */
  lemma EmailHasOneAt(s: string, a: nat, p: nat)
    requires 0 < a < |s| && s[a] == '@'
    requires forall k | 0 <= k < a :: IsLocalChar(s[k])
    requires IsEmailDomain(s[a + 1..])
    requires p < |s| && s[p] == '@'
    ensures p == a
  {
    var d := s[a + 1..];
    var j :| 0 < j < |d| - 2 && d[j] == '.' && (forall k | 0 <= k < j :: IsDomainChar(d[k])) && (forall k | j < k < |d| :: IsAsciiLetter(d[k]));
  }
}
