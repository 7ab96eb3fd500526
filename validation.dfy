/**
 * validation.go: CheckRequire, CheckMinMax and CheckRestricted over the dynamic value an interface{} holds.
 */
module Validation {
  import opened Wrappers
  import opened GoErrors

  datatype CollectionKind = MapKind | ArrayKind | SliceKind

  /**
   * The value an interface{} holds, as reflect sees it. A string carries its bytes and the segments the
   * NFKD iterator steps through (norm.Iter is not modelled). Signed and unsigned integers of every width
   * are one case, their value being what the checks compare. Floats are not modelled.
   */
  datatype GoValue =
    | UntypedNil
    | Pointer(target: Option<GoValue>)
    | Str(bytes: string, segments: seq<string>)
    | Collection(kind: CollectionKind, len: nat)
    | Integer(value: int)
    | OtherKind(kindName: string)

  /** Why a check fails; the message wording is not modelled. */
  datatype Reason = NilValue | Empty | BelowMin | AboveMax

  /** nil error, non-nil error, or a run-time panic. */
  datatype Outcome = Pass | Fail(reason: Reason) | Panic

  /** reflect.Value.Len, for the kinds that have one. */
  predicate HasLen(v: GoValue)
  {
    v.Str? || v.Collection?
  }

  function Len(v: GoValue): nat
    requires HasLen(v)
  {
    if v.Str? then |v.bytes| else v.len
  }

  /** CheckRequire as written: a nil pointer passes the `value == nil` test (the interface is not nil) and panics in Elem().Interface(). */
  function CheckRequireAsWritten(v: GoValue): Outcome
  {
    match v
    case Pointer(target) =>
      if target.None? then Panic else CheckRequireAsWritten(target.value)
    case Str(_, _) => if Len(v) == 0 then Fail(Empty) else Pass
    case Collection(_, _) => if Len(v) == 0 then Fail(Empty) else Pass
    case UntypedNil => Fail(NilValue)
    case _ => Pass
  }

  /** CheckRequire as intended: a nil pointer is refused as nil. */
  function CheckRequire(v: GoValue): (r: Outcome)
    ensures r != Panic
  {
    match v
    case Pointer(target) =>
      if target.None? then Fail(NilValue) else CheckRequire(target.value)
    case Str(_, _) => if Len(v) == 0 then Fail(Empty) else Pass
    case Collection(_, _) => if Len(v) == 0 then Fail(Empty) else Pass
    case UntypedNil => Fail(NilValue)
    case _ => Pass
  }

  /** The value found by following pointers; None if one of them is nil. */
  function Pointee(v: GoValue): Option<GoValue>
  {
    match v
    case Pointer(target) => if target.None? then None else Pointee(target.value)
    case _ => Some(v)
  }

  /** A value CheckRequire accepts: not nil, and not empty when it has a length. */
  predicate Present(v: GoValue)
  {
    !v.UntypedNil? && (HasLen(v) ==> Len(v) > 0)
  }

  /** CheckRequire passes exactly when the pointers lead to a present value; it refuses a nil with NilValue. */
  lemma {:induction false} CheckRequirePasses(v: GoValue)
    ensures CheckRequire(v).Pass? <==> Pointee(v).Some? && Present(Pointee(v).value)
    ensures CheckRequire(v) == Fail(NilValue) <==> Pointee(v).None? || Pointee(v) == Some(UntypedNil)
  {
    if v.Pointer? && v.target.Some? {
      CheckRequirePasses(v.target.value);
    }
  }

  /** The two definitions differ only where the written one panics. */
  lemma {:induction false} CheckRequireAgrees(v: GoValue)
    ensures CheckRequireAsWritten(v) == Panic <==> Pointee(v).None?
    ensures CheckRequireAsWritten(v) != Panic ==> CheckRequireAsWritten(v) == CheckRequire(v)
  {
    if v.Pointer? && v.target.Some? {
      CheckRequireAgrees(v.target.value);
    }
  }

  /** A nil *string panics CheckRequire as written, where the intended result is "value cannot be nil". */
  lemma NilPointerPanics()
    ensures CheckRequireAsWritten(Pointer(None)) == Panic
    ensures CheckRequire(Pointer(None)) == Fail(NilValue)
    ensures CheckMinMaxAsWritten(Pointer(None), 0, 10) == Panic
    ensures MinMax(Pointer(None), 0, 10) == Pass
  {
  }

  /** What CheckMinMax compares with the bounds: the NFKD count, the length or the integer. */
  function Measure(v: GoValue): Option<int>
  {
    match v
    case Str(_, segments) => Some(|segments|)
    case Collection(_, len) => Some(len)
    case Integer(i) => Some(i)
    case _ => None
  }

  /** The bound checks: a negative bound is disabled, and the lower bound is tested first. */
  function Bounds(m: int, min: int, max: int): Outcome
  {
    if min >= 0 && m < min then Fail(BelowMin)
    else if max >= 0 && m > max then Fail(AboveMax)
    else Pass
  }

  /** CheckMinMax as written: `value != nil` always holds for a pointer, so a nil pointer panics. */
  function CheckMinMaxAsWritten(v: GoValue, min: int, max: int): Outcome
  {
    match v
    case Pointer(target) => if target.None? then Panic else CheckMinMaxAsWritten(target.value, min, max)
    case _ => if Measure(v).Some? then Bounds(Measure(v).value, min, max) else Pass
  }

  /** CheckMinMax as intended: a nil pointer is skipped, like any value without a measure. */
  function MinMax(v: GoValue, min: int, max: int): (r: Outcome)
    ensures r != Panic
  {
    match v
    case Pointer(target) => if target.None? then Pass else MinMax(target.value, min, max)
    case _ => if Measure(v).Some? then Bounds(Measure(v).value, min, max) else Pass
  }

  /** The NFKD character count of a string: the loop over the iterator's segments. */
  method CountCharacters(segments: seq<string>) returns (nc: nat)
    ensures nc == |segments|
  {
    nc := 0;
    var rest := segments;
    while rest != []
      invariant nc + |rest| == |segments|
    {
      nc := nc + 1;
      rest := rest[1..];
    }
  }

  /** CheckMinMax (corrected for nil pointers), counting a string's characters with the iterator loop. */
  method CheckMinMax(v: GoValue, min: int, max: int) returns (r: Outcome)
    ensures r == MinMax(v, min, max)
  {
    match v {
      case Pointer(target) =>
        if target.Some? {
          r := CheckMinMax(target.value, min, max);
          return;
        }
      case Str(_, segments) =>
        var nc := CountCharacters(segments);
        if min >= 0 && nc < min {
          return Fail(BelowMin);
        }
        if max >= 0 && nc > max {
          return Fail(AboveMax);
        }
      case Collection(_, len) =>
        if min >= 0 && len < min {
          return Fail(BelowMin);
        }
        if max >= 0 && len > max {
          return Fail(AboveMax);
        }
      case Integer(i) =>
        if min >= 0 && i < min {
          return Fail(BelowMin);
        }
        if max >= 0 && i > max {
          return Fail(AboveMax);
        }
      case UntypedNil =>
      case OtherKind(_) =>
    }
    r := Pass;
  }

  /**
   * CheckMinMax passes exactly when the measured value lies within the enabled bounds; it reports the
   * lower bound whenever that one is broken; values without a measure always pass.
   */
  lemma {:induction false} MinMaxWithinBounds(v: GoValue, min: int, max: int)
    ensures var p := Pointee(v);
      MinMax(v, min, max).Pass? <==>
        p.None? || Measure(p.value).None? ||
        ((min < 0 || Measure(p.value).value >= min) && (max < 0 || Measure(p.value).value <= max))
    ensures var p := Pointee(v);
      p.Some? && Measure(p.value).Some? && min >= 0 && Measure(p.value).value < min ==>
        MinMax(v, min, max) == Fail(BelowMin)
  {
    if v.Pointer? && v.target.Some? {
      MinMaxWithinBounds(v.target.value, min, max);
    }
  }

  /** CheckRestricted: nil exactly when the source equals one of the allowed values. */
  method CheckRestricted<T(==)>(source: T, allowed: seq<T>, format: T -> string) returns (err: Option<Error>)
    ensures err.None? <==> source in allowed
    ensures err.Some? ==> err.value == Leaf("value " + format(source) + " is not allowed here")
  {
    for i := 0 to |allowed|
      invariant source !in allowed[..i]
    {
      if source == allowed[i] {
        return None;
      }
    }
    return Some(Leaf("value " + format(source) + " is not allowed here"));
  }
}
