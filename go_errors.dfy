/**
 * Go's error values as the core builds and inspects them, with errors.Is and the
 * unwrap chain that errors.Is and errors.As walk.
 */
module GoErrors {
  import opened Wrappers
  import opened Text

  /**
   * A non-nil Go error; nil is `None` in `Option<Error>`.
   * - Leaf: errors.New, or fmt.Errorf without %w (including package-level sentinels).
   * - Wrapped: fmt.Errorf with exactly one %w; its text is prefix + inner text + suffix.
   * - Joined: errors.Join of non-nil errors.
   * - Pg: a pgdriver.Error, with the two classifications the core asks it for.
   * - HttpClient: an *HTTPClientErr (it has no Unwrap method).
   */
  datatype Error =
    | Leaf(text: string)
    | Wrapped(prefix: string, inner: Error, suffix: string)
    | Joined(errs: seq<Error>)
    | Pg(integrity: bool, timeout: bool, text: string)
    | HttpClient(code: int, err: Error)

  /** err.Error(). */
  function Message(e: Error): string
  {
    match e
    case Leaf(t) => t
    case Wrapped(p, inner, s) => p + Message(inner) + s
    case Joined(errs) => Join(Messages(errs), "\n")
    case Pg(_, _, t) => t
    case HttpClient(code, inner) => "request failed with status " + IntToDecimal(code) + ": " + Message(inner)
  }

  function Messages(errs: seq<Error>): (texts: seq<string>)
    ensures |texts| == |errs|
  {
    if errs == [] then [] else [Message(errs[0])] + Messages(errs[1..])
  }

  /**
   * errors.Is only tests `==` against a target whose dynamic type is comparable.
   * pgdriver.Error is a struct holding a map, so it never matches by identity.
   */
  predicate Comparable(target: Error)
  {
    !target.Pg?
  }

  /** errors.Is(e, target) for non-nil e and target: an identity test at each step of the unwrap walk. */
  predicate Is(e: Error, target: Error)
  {
    (Comparable(target) && e == target) ||
    match e
    case Wrapped(_, inner, _) => Is(inner, target)
    case Joined(errs) => exists i :: 0 <= i < |errs| && Is(errs[i], target)
    case _ => false
  }

  /** errors.Is on possibly-nil errors: a nil side only matches nil. */
  predicate IsErr(e: Option<Error>, target: Option<Error>)
  {
    if e.None? || target.None? then e == target else Is(e.value, target.value)
  }

  /** Every error errors.Is and errors.As visit from `e`, in their depth-first pre-order. */
  function Chain(e: Error): (c: seq<Error>)
    ensures |c| >= 1 && c[0] == e
  {
    [e] +
    match e
    case Wrapped(_, inner, _) => Chain(inner)
    case Joined(errs) => ChainAll(errs)
    case _ => []
  }

  /** The chains of the members of a join, one after the other. */
  function ChainAll(errs: seq<Error>): seq<Error>
  {
    if errs == [] then [] else Chain(errs[0]) + ChainAll(errs[1..])
  }

  /** errors.Is holds exactly when the target is comparable and lies on the unwrap chain. */
  lemma {:induction false} IsOnChain(e: Error, target: Error)
    ensures Is(e, target) <==> Comparable(target) && target in Chain(e)
    decreases e, 1
  {
    match e
    case Wrapped(_, inner, _) =>
      IsOnChain(inner, target);
    case Joined(errs) =>
      IsOnChainAll(errs, target);
    case _ =>
  }

  lemma {:induction false} IsOnChainAll(errs: seq<Error>, target: Error)
    ensures (exists i :: 0 <= i < |errs| && Is(errs[i], target)) <==> Comparable(target) && target in ChainAll(errs)
    decreases errs, 0
  {
    if errs != [] {
      IsOnChain(errs[0], target);
      IsOnChainAll(errs[1..], target);
      if exists i :: 0 <= i < |errs| && Is(errs[i], target) {
        var i :| 0 <= i < |errs| && Is(errs[i], target);
        if i > 0 {
          assert Is(errs[1..][i - 1], target);
        }
      }
      if exists i :: 0 <= i < |errs[1..]| && Is(errs[1..][i], target) {
        var i :| 0 <= i < |errs[1..]| && Is(errs[1..][i], target);
        assert Is(errs[i + 1], target);
      }
    }
  }
}
