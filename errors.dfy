/**
 * The backend's error taxonomy: six sentinel errors, the AppError record
 * carrying a code, a message and an inner error, `fmt.Errorf("%s: %w")`
 * wrapping, and `errors.Is`, which walks the chain of inner errors.
 */
module AppErrors {
  import opened Common

  /** The sentinel error values. */
  datatype Kind = NotFound | AlreadyExists | InvalidInput | Unauthorized | Forbidden | Internal

  function KindText(k: Kind): string {
    match k
    case NotFound => "resource not found"
    case AlreadyExists => "resource already exists"
    case InvalidInput => "invalid input"
    case Unauthorized => "unauthorized"
    case Forbidden => "forbidden"
    case Internal => "internal server error"
  }

  /**
   * A Go error value.  `Sentinel` is one of the package-level sentinels,
   * `App` an AppError (its `inner` is the Err field, absent when nil),
   * `Wrapped` the result of `fmt.Errorf` with a `%w` verb, and `Plain` an
   * error that wraps nothing (`errors.New`, `fmt.Errorf` without `%w`).
   */
  datatype Error =
    | Sentinel(kind: Kind)
    | App(code: string, message: string, inner: Option<Error>)
    | Wrapped(context: string, cause: Error)
    | Plain(text: string)

  /** The Error() text: an AppError with an inner error reads "message: inner". */
  function Text(e: Error): string {
    match e
    case Sentinel(k) => KindText(k)
    case App(_, m, None) => m
    case App(_, m, Some(i)) => m + ": " + Text(i)
    case Wrapped(c, i) => c + ": " + Text(i)
    case Plain(t) => t
  }

  /** An error's text starts with its own message, or with its context and the separator. */
  lemma TextStartsWithOwnPart(e: Error)
    ensures e.App? ==> |e.message| <= |Text(e)| && Text(e)[..|e.message|] == e.message
    ensures e.App? && e.inner.Some? ==> |e.message| + 2 <= |Text(e)| && Text(e)[..|e.message| + 2] == e.message + ": "
    ensures e.Wrapped? ==> |e.context| + 2 <= |Text(e)| && Text(e)[..|e.context| + 2] == e.context + ": "
  {
  }

  /** errors.Unwrap: the error this one wraps, if any. */
  function Unwrap(e: Error): Option<Error> {
    match e
    case App(_, _, inner) => inner
    case Wrapped(_, i) => Some(i)
    case _ => None
  }

  /** The error followed by everything errors.Is visits by unwrapping it. */
  function Chain(e: Error): (c: seq<Error>)
    ensures |c| >= 1 && c[0] == e
    ensures forall i | 0 <= i < |c| - 1 :: Unwrap(c[i]) == Some(c[i + 1])
    ensures Unwrap(c[|c| - 1]) == None
  {
    match Unwrap(e)
    case None => [e]
    case Some(i) => [e] + Chain(i)
  }

  /**
   * errors.Is(e, target): the target is on the chain (error identity is
   * modelled as value equality); that is, the error is the target, or what
   * it unwraps to is, as the unwrapping loop of errors.Is tests.
   */
  predicate Is(e: Error, target: Error)
    ensures e == target ==> Is(e, target)
    ensures Is(e, target) && e != target ==> Unwrap(e).Some? && target in Chain(Unwrap(e).value)
    ensures Unwrap(e).Some? && target in Chain(Unwrap(e).value) ==> Is(e, target)
  {
    target in Chain(e)
  }

  /**
   * errors.Is(e, ErrNotFound).  A sentinel is NotFound exactly when it is
   * ErrNotFound, and so is an error that directly wraps a sentinel;
   * SentinelEndsChain gives the general case.
   */
  predicate IsNotFound(e: Error)
    ensures e.Sentinel? ==> (IsNotFound(e) <==> e.kind == NotFound)
    ensures Unwrap(e).Some? && Unwrap(e).value.Sentinel? ==> (IsNotFound(e) <==> Unwrap(e).value.kind == NotFound)
  {
    Is(e, Sentinel(NotFound))
  }

  /**
   * errors.Is(e, ErrInvalidInput).  A sentinel is InvalidInput exactly
   * when it is ErrInvalidInput, and so is an error that directly wraps a
   * sentinel; SentinelEndsChain gives the general case.
   */
  predicate IsInvalidInput(e: Error)
    ensures e.Sentinel? ==> (IsInvalidInput(e) <==> e.kind == InvalidInput)
    ensures Unwrap(e).Some? && Unwrap(e).value.Sentinel? ==> (IsInvalidInput(e) <==> Unwrap(e).value.kind == InvalidInput)
  {
    Is(e, Sentinel(InvalidInput))
  }

  /** A sentinel wraps nothing, so on a chain it can only come last: an error is a kind exactly when its chain ends in it. */
  lemma {:induction false} SentinelEndsChain(e: Error, k: Kind)
    ensures Is(e, Sentinel(k)) <==> Chain(e)[|Chain(e)| - 1] == Sentinel(k)
  {
    var c := Chain(e);
    assert forall j | 0 <= j < |c| - 1 :: !c[j].Sentinel? by {
      forall j | 0 <= j < |c| - 1 ensures !c[j].Sentinel? {
        assert Unwrap(c[j]) == Some(c[j + 1]);
      }
    }
  }

  /** `t` ends with `u`. */
  predicate EndsWith(t: string, u: string) {
    |u| <= |t| && t[|t| - |u|..] == u
  }

  /** Ending with a text that ends with `v` is ending with `v`. */
  lemma EndsWithTransitive(t: string, u: string, v: string)
    requires EndsWith(t, u) && EndsWith(u, v)
    ensures EndsWith(t, v)
  {
    assert t[|t| - |v|..] == u[|u| - |v|..];
  }

  /** An error's text ends with the text of the error it wraps. */
  lemma TextEndsWithInner(e: Error)
    requires Unwrap(e).Some?
    ensures EndsWith(Text(e), Text(Unwrap(e).value))
  {
  }

  /** The text of every error ends with the text of the last error on its chain, the one that wraps nothing. */
  lemma {:induction false} TextEndsWithRoot(e: Error)
    ensures EndsWith(Text(e), Text(Chain(e)[|Chain(e)| - 1]))
  {
    match Unwrap(e)
    case None =>
    case Some(i) =>
      TextEndsWithRoot(i);
      TextEndsWithInner(e);
      assert Chain(e)[|Chain(e)| - 1] == Chain(i)[|Chain(i)| - 1];
      EndsWithTransitive(Text(e), Text(i), Text(Chain(i)[|Chain(i)| - 1]));
  }

  /** An error's chain reaches at most one sentinel, so it has at most one kind. */
  lemma KindUnique(e: Error, k1: Kind, k2: Kind)
    requires Is(e, Sentinel(k1)) && Is(e, Sentinel(k2))
    ensures k1 == k2
  {
    SentinelEndsChain(e, k1);
    SentinelEndsChain(e, k2);
  }

  /** Wrap: nil stays nil; otherwise the context is prefixed and the error is kept as cause. */
  function Wrap(err: Option<Error>, message: string): (r: Option<Error>)
    ensures r.None? <==> err.None?
    ensures r.Some? ==> Text(r.value) == message + ": " + Text(err.value)
    ensures r.Some? ==> Chain(r.value) == [r.value] + Chain(err.value)
  {
    match err
    case None => None
    case Some(e) => Some(Wrapped(message, e))
  }

  /** Whatever the wrapped error is, or wraps, the wrapped result is as well: its kind survives wrapping. */
  lemma WrapPreservesIs(e: Error, message: string, target: Error)
    ensures Is(e, target) ==> Is(Wrap(Some(e), message).value, target)
    ensures Is(Wrap(Some(e), message).value, target) <==> target == Wrap(Some(e), message).value || Is(e, target)
  {
  }

  /** The wrapped text names both the context and the original error. */
  lemma {:induction false} WrapTextMentionsBoth(e: Error, message: string)
    ensures Contains(Text(Wrap(Some(e), message).value), message)
    ensures Contains(Text(Wrap(Some(e), message).value), Text(e))
  {
    ContainsBothSides(message, ": ", Text(e));
  }

  /** The NOT_FOUND AppError for a resource kind and id, wrapping ErrNotFound. */
  function WrapNotFound(resource: string, id: string): (r: Error)
    ensures r.App? && r.code == "NOT_FOUND"
    ensures Text(r) == resource + " with id " + id + " not found: resource not found"
    ensures IsNotFound(r) && !IsInvalidInput(r)
  {
    App("NOT_FOUND", resource + " with id " + id + " not found", Some(Sentinel(NotFound)))
  }

  /** The INVALID_INPUT AppError carrying a validation message, wrapping ErrInvalidInput. */
  function WrapInvalidInput(message: string): (r: Error)
    ensures r.App? && r.code == "INVALID_INPUT" && r.message == message
    ensures Text(r) == message + ": invalid input"
    ensures IsInvalidInput(r) && !IsNotFound(r)
  {
    App("INVALID_INPUT", message, Some(Sentinel(InvalidInput)))
  }

  /** The text of a not-found error names the resource and the id. */
  lemma {:induction false} NotFoundTextMentions(resource: string, id: string)
    ensures Contains(Text(WrapNotFound(resource, id)), resource)
    ensures Contains(Text(WrapNotFound(resource, id)), id)
  {
    var tail := " not found: resource not found";
    ContainsSelf(resource);
    ContainsSelf(id);
    assert resource + " with id " + id + tail == resource + (" with id " + id + tail);
    ContainsInConcat(resource, " with id " + id + tail, resource);
    assert resource + " with id " + id + tail == (resource + " with id ") + (id + tail);
    ContainsInConcat(id, tail, id);
    ContainsInConcat(resource + " with id ", id + tail, id);
  }
}
