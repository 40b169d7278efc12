/**
 * The paginated listing of medical records: the page and limit query
 * parameters are read with strconv.Atoi and clamped, the page count is the
 * ceiling of total / limit, and the page is the slice of all records
 * between the clamped start and end offsets.
 */
module Pagination {
  import opened Common
  import opened AppErrors
  import opened ErrorResponses
  import opened Records

  /** The bounds of Go's 64-bit `int`. */
  const MinInt: int := -0x8000_0000_0000_0000
  const MaxInt: int := 0x7FFF_FFFF_FFFF_FFFF

  /** A 64-bit two's-complement result: x reduced into [MinInt, MaxInt] modulo 2^64. */
  function WrapInt(x: int): (r: int)
    ensures MinInt <= r <= MaxInt
    ensures MinInt <= x <= MaxInt ==> r == x
    ensures (x - r) % 0x1_0000_0000_0000_0000 == 0
  {
    (x - MinInt) % 0x1_0000_0000_0000_0000 + MinInt
  }

  /** The text after an optional leading sign. */
  function Unsigned(s: string): (r: string)
    ensures |r| >= |s| - 1
  {
    if |s| > 0 && (s[0] == '+' || s[0] == '-') then s[1..] else s
  }

  predicate AllDigits(s: string) {
    forall i | 0 <= i < |s| :: IsDigit(s[i])
  }

  /**
   * strconv.Atoi: an optional sign and one or more decimal digits whose
   * value fits in an int; anything else is an error (None).
   */
  function Atoi(s: string): (r: Option<int>)
    ensures r.Some? ==> MinInt <= r.value <= MaxInt
    ensures r.Some? ==> Unsigned(s) != [] && AllDigits(Unsigned(s))
  {
    var digits := Unsigned(s);
    if digits == [] || !AllDigits(digits) then None
    else
      var v: int := if |s| > 0 && s[0] == '-' then -(DigitsValue(digits) as int) else DigitsValue(digits);
      if MinInt <= v <= MaxInt then Some(v) else None
  }

  /** Atoi reads back every int the handler could have printed: decimal text is accepted with its value. */
  lemma AtoiOfDecimal(n: nat)
    requires n <= MaxInt
    ensures Atoi(NatToString(n)) == Some(n)
  {
    var s := NatToString(n);
    assert IsDigit(s[0]);
    NatToStringRoundTrip(n);
  }

  /** Example: text that is not a number, such as the empty string or a word, is an error (AtoiRejectsStray states the general fact). */
  lemma AtoiRejects()
    ensures Atoi("") == None
    ensures Atoi("-") == None
    ensures Atoi("ten") == None
  {
    var word := "ten";
    assert Unsigned(word) == word;
    assert !IsDigit(word[0]);
  }

  /** A character other than a digit, unless it is a sign in front, makes the text an error. */
  lemma AtoiRejectsStray(s: string, k: nat)
    requires k < |s| && !IsDigit(s[k])
    requires k > 0 || (s[0] != '+' && s[0] != '-')
    ensures Atoi(s) == None
  {
    var u := Unsigned(s);
    var j := if s[0] == '+' || s[0] == '-' then k - 1 else k;
    assert 0 <= j < |u| && u[j] == s[k];
  }

  /** A negative result comes only from a text with a minus sign in front. */
  lemma AtoiNegativeHasMinus(s: string)
    ensures Atoi(s).Some? && Atoi(s).value < 0 ==> s[0] == '-'
  {
  }

  /** The page number used: the parsed value when it is at least 1, otherwise 1. */
  function PageParam(s: string): (page: int)
    ensures 1 <= page <= MaxInt
    ensures Atoi(s).Some? && Atoi(s).value >= 1 ==> page == Atoi(s).value
  {
    var parsed := Atoi(s);
    if parsed.None? || parsed.value < 1 then 1 else parsed.value
  }

  /** The page size used: the parsed value when it lies in [1, 100], otherwise 10. */
  function LimitParam(s: string): (limit: int)
    ensures 1 <= limit <= 100
    ensures Atoi(s).Some? && 1 <= Atoi(s).value <= 100 ==> limit == Atoi(s).value
    ensures (Atoi(s).None? || Atoi(s).value < 1 || Atoi(s).value > 100) ==> limit == 10
  {
    var parsed := Atoi(s);
    if parsed.None? || parsed.value < 1 || parsed.value > 100 then 10 else parsed.value
  }

  /** The page count, (total + limit - 1) / limit: the least number of pages of `limit` that hold `total`. */
  function TotalPages(total: nat, limit: int): (n: nat)
    requires limit >= 1
    ensures n * limit >= total
    ensures n > 0 ==> (n - 1) * limit < total
  {
    (total + limit - 1) / limit
  }

  function Min(a: int, b: int): int {
    if a <= b then a else b
  }

  /** The records from offset `start` on, at most `count` of them. */
  function Window(all: seq<MedicalRecord>, start: nat, count: nat): (r: seq<MedicalRecord>)
    ensures |r| == if start < |all| then Min(count, |all| - start) else 0
    ensures forall i | 0 <= i < |r| :: start + i < |all| && r[i] == all[start + i]
  {
    if start < |all| then all[start..Min(start + count, |all|)] else []
  }

  /** The offset of the first record of a page. */
  function PageStart(page: int, limit: int): (start: nat)
    requires page >= 1 && limit >= 1
    ensures page > 1 ==> start >= limit
  {
    (page - 1) * limit
  }

  /** Page `page` of `all`: the records at offsets (page-1)*limit up to, not including, page*limit. */
  function PageOf(all: seq<MedicalRecord>, page: int, limit: int): (r: seq<MedicalRecord>)
    requires page >= 1 && limit >= 1
    ensures r == Window(all, PageStart(page, limit), limit)
    ensures |r| <= limit
  {
    Window(all, PageStart(page, limit), limit)
  }

  /** Pages 1 to n, one after another. */
  function Pages(all: seq<MedicalRecord>, limit: int, n: nat): seq<MedicalRecord>
    requires limit >= 1
  {
    if n == 0 then [] else Pages(all, limit, n - 1) + PageOf(all, n, limit)
  }

  /** The first n pages are the first n*limit records. */
  lemma {:induction false} PagesArePrefix(all: seq<MedicalRecord>, limit: int, n: nat)
    requires limit >= 1
    ensures Pages(all, limit, n) == all[..Min(n * limit, |all|)]
  {
    if n > 0 {
      PagesArePrefix(all, limit, n - 1);
      var start := (n - 1) * limit;
      assert n * limit == start + limit;
      if start < |all| {
        assert all[..Min(start, |all|)] + all[start..Min(start + limit, |all|)] == all[..Min(n * limit, |all|)];
      }
    }
  }

  /** Walking pages 1 to total_pages returns every record once, in order. */
  lemma PagesCoverAll(all: seq<MedicalRecord>, limit: int)
    requires limit >= 1
    ensures Pages(all, limit, TotalPages(|all|, limit)) == all
  {
    PagesArePrefix(all, limit, TotalPages(|all|, limit));
  }

  /** The handler's JSON response on success. */
  datatype PageResponse = PageResponse(
    records: seq<MedicalRecord>,
    currentPage: int,
    perPage: int,
    total: nat,
    totalPages: nat,
    hasNext: bool,
    hasPrev: bool)

  /**
   * GetMedicalRecordsWithPagination after the records are fetched: a
   * failed fetch is a 500; otherwise page and limit are clamped and the
   * page is sliced out.  The offsets are computed without 64-bit
   * overflow, so every requested page is a slice of `all`.
   */
  method Paginate(pageStr: string, limitStr: string, fetched: Result<seq<MedicalRecord>, Error>)
    returns (r: Result<PageResponse, Response>)
    ensures fetched.Err? <==> r.Err?
    ensures r.Err? ==> r.error == Response(500, "internal server error")
    ensures r.Ok? ==> r.value.currentPage == PageParam(pageStr) && r.value.perPage == LimitParam(limitStr)
    ensures r.Ok? ==> r.value.total == |fetched.value|
    ensures r.Ok? ==> r.value.totalPages == TotalPages(|fetched.value|, LimitParam(limitStr))
    ensures r.Ok? ==> r.value.records == PageOf(fetched.value, PageParam(pageStr), LimitParam(limitStr))
    ensures r.Ok? ==> (r.value.hasNext <==> r.value.currentPage < r.value.totalPages)
    ensures r.Ok? ==> (r.value.hasPrev <==> r.value.currentPage > 1)
  {
    var page, limit := ReadParams(pageStr, limitStr);
    if fetched.Err? {
      return Err(Response(500, "internal server error"));
    }
    var all := fetched.value;
    var total := |all|;
    var totalPages := (total + limit - 1) / limit;
    var records := SlicePage(all, page, limit);
    return Ok(PageResponse(records, page, limit, total, totalPages, page < totalPages, page > 1));
  }

  /** The clamping of the page and limit query parameters. */
  method ReadParams(pageStr: string, limitStr: string) returns (page: int, limit: int)
    ensures page == PageParam(pageStr) && limit == LimitParam(limitStr)
  {
    page := 1;
    var parsedPage := Atoi(pageStr);
    if parsedPage.Some? && parsedPage.value >= 1 {
      page := parsedPage.value;
    }
    limit := 10;
    var parsedLimit := Atoi(limitStr);
    if parsedLimit.Some? && 1 <= parsedLimit.value <= 100 {
      limit := parsedLimit.value;
    }
  }

  /** The offsets of the page, clamped to the number of records, and the slice between them. */
  method SlicePage(all: seq<MedicalRecord>, page: int, limit: int) returns (records: seq<MedicalRecord>)
    requires page >= 1 && limit >= 1
    ensures records == PageOf(all, page, limit)
  {
    var total := |all|;
    var start := (page - 1) * limit;
    assert start == PageStart(page, limit);
    var end := start + limit;
    if start > total {
      start := total;
    }
    if end > total {
      end := total;
    }
    records := [];
    if start < total {
      records := all[start..end];
    }
  }

  /** A page past the last is empty, and reports a previous page but no next one. */
  lemma PastLastPageIsEmpty(all: seq<MedicalRecord>, page: int, limit: int)
    requires page >= 1 && limit >= 1
    requires page > TotalPages(|all|, limit)
    ensures PageOf(all, page, limit) == []
  {
    assert (page - 1) * limit >= TotalPages(|all|, limit) * limit;
  }

  /** Every page before the last is full. */
  lemma PagesBeforeLastAreFull(all: seq<MedicalRecord>, page: int, limit: int)
    requires limit >= 1 && 1 <= page < TotalPages(|all|, limit)
    ensures |PageOf(all, page, limit)| == limit
  {
    var n := TotalPages(|all|, limit);
    MulMonotone(page, n - 1, limit);
    var start := PageStart(page, limit);
    assert start + limit == page * limit;
    assert start + limit < |all|;
  }

  /** Multiplying by a positive limit keeps the order of page numbers. */
  lemma MulMonotone(a: int, b: int, limit: int)
    requires a <= b && limit >= 1
    ensures a * limit <= b * limit
  {
    assert b * limit - a * limit == (b - a) * limit;
  }

  /** The offset of a page as the handler computes it: (page - 1) * limit in 64-bit int arithmetic. */
  function StartAsWritten(page: int, limit: int): (start: int)
    ensures MinInt <= start <= MaxInt
    ensures MinInt <= (page - 1) * limit <= MaxInt ==> start == (page - 1) * limit
  {
    WrapInt((page - 1) * limit)
  }

  /** The page number of the counterexample below; its decimal text is a valid page parameter. */
  const HugePage: int := 922_337_203_685_477_582

  /** The decimal text of the huge page passes the page clamp unchanged. */
  lemma HugePageIsAccepted()
    ensures PageParam(NatToString(HugePage)) == HugePage
  {
    AtoiOfDecimal(HugePage);
  }

  /**
   * With limit 10 and page 922337203685477582 (accepted, as above),
   * (page - 1) * 10 exceeds MaxInt and wraps to a negative start.  The
   * clamp `start > total` and the guard `start < total` both let it
   * through, so `allRecords[start:end]` is evaluated with a negative
   * index, which panics in Go.
   */
  lemma HugePageWrapsStart(total: nat)
    ensures StartAsWritten(HugePage, 10) == -9_223_372_036_854_775_806
    ensures StartAsWritten(HugePage, 10) < total
  {
    assert (HugePage - 1) * 10 == 9_223_372_036_854_775_810;
  }

  /** Offsets computed without overflow give that page as the empty page. */
  lemma HugePageIsEmpty(all: seq<MedicalRecord>)
    requires |all| <= MaxInt
    ensures PageOf(all, HugePage, 10) == []
  {
    assert PageStart(HugePage, 10) == 9_223_372_036_854_775_810;
  }
}
