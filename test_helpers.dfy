// Test helpers (test/uuid.go, test/misc.go): deterministic UUIDs built
// from a short number, and the concatenation of slices.
module TestHelpers {
  import opened Wrappers
  import Text
  import UuidTypes

  /** The two kinds of source NumberUUID accepts. */
  datatype NumberSource = IntNumber(n: int) | StringNumber(s: string)

  /** A string source is used as is; an int is printed in decimal ("%v"). */
  function SourceText(nbr: NumberSource): string
  {
    match nbr
    case IntNumber(n) => Text.IntToDecimal(n)
    case StringNumber(s) => s
  }

  /** `piece` written `k` times. */
  function Repeat(piece: string, k: nat): (r: string)
    ensures |r| == k * |piece|
    ensures k > 0 ==> r[..|piece|] == piece
  {
    if k == 0 then "" else piece + Repeat(piece, k - 1)
  }

  /** Five groups of repetitions separated by dashes. */
  function Groups(piece: string, a: nat, b: nat, c: nat, d: nat, e: nat): string
  {
    Repeat(piece, a) + LaterGroups(piece, b, c, d, e)
  }

  /** The four groups after the first, each preceded by its dash. */
  function LaterGroups(piece: string, b: nat, c: nat, d: nat, e: nat): string
  {
    "-" + Repeat(piece, b) + "-" + Repeat(piece, c) + "-" + Repeat(piece, d) + "-" + Repeat(piece, e)
  }

  /**
   * The text handed to uuid.MustParse, by the length of the source:
   * one or three characters are prefixed with '0' so that every length
   * fills the 8-4-4-4-12 layout; any other length panics (None).
   */
  function Template(src: string): Option<string>
  {
    if |src| == 1 then Some(Groups("0" + src, 4, 2, 2, 2, 6))
    else if |src| == 2 then Some(Groups(src, 4, 2, 2, 2, 6))
    else if |src| == 3 then Some(Groups("0" + src, 2, 1, 1, 1, 3))
    else if |src| == 4 then Some(Groups(src, 2, 1, 1, 1, 3))
    else None
  }

  /** NumberUUID: the parse of the template; a bad length or a bad template panics. */
  function NumberUuid(nbr: NumberSource, mustParse: UuidTypes.UuidParser): (r: Option<UuidTypes.Uuid>)
    ensures r.Some? <==> Template(SourceText(nbr)).Some? && mustParse(Template(SourceText(nbr)).value).Some?
  {
    match Template(SourceText(nbr))
    case None => None
    case Some(text) => mustParse(text)
  }

  /** The piece that is repeated, and how many times it fills the first group. */
  function Piece(src: string): string
  {
    if |src| == 1 || |src| == 3 then "0" + src else src
  }

  lemma GroupsLayout(piece: string, a: nat, b: nat, c: nat, d: nat, e: nat)
    requires a * |piece| == 8 && b * |piece| == 4 && c * |piece| == 4
    requires d * |piece| == 4 && e * |piece| == 12
    ensures var t := Groups(piece, a, b, c, d, e);
      |t| == 36 && t[8] == '-' && t[13] == '-' && t[18] == '-' && t[23] == '-'
  {
  }

  /** Every accepted length yields the 36-character 8-4-4-4-12 layout. */
  lemma TemplateLayout(src: string)
    requires 1 <= |src| <= 4
    ensures Template(src).Some?
    ensures var t := Template(src).value;
      |t| == 36 && t[8] == '-' && t[13] == '-' && t[18] == '-' && t[23] == '-'
  {
    var p := Piece(src);
    if |src| <= 2 {
      GroupsLayout(p, 4, 2, 2, 2, 6);
    } else {
      GroupsLayout(p, 2, 1, 1, 1, 3);
    }
  }

  /** Lengths other than one to four panic. */
  lemma TemplateRejects(src: string)
    ensures Template(src).None? <==> |src| == 0 || |src| > 4
  {
  }

  /** The template starts with the piece, so it determines the piece. */
  lemma TemplateStartsWithPiece(src: string)
    requires 1 <= |src| <= 4
    ensures |Template(src).value| >= |Piece(src)|
    ensures Template(src).value[..|Piece(src)|] == Piece(src)
  {
    var p := Piece(src);
    if |src| <= 2 {
      GroupsStart(p, 4, 2, 2, 2, 6);
    } else {
      GroupsStart(p, 2, 1, 1, 1, 3);
    }
  }

  /** Five groups whose first one is not empty start with the piece. */
  lemma GroupsStart(piece: string, a: nat, b: nat, c: nat, d: nat, e: nat)
    requires a > 0
    ensures |Groups(piece, a, b, c, d, e)| >= |piece|
    ensures Groups(piece, a, b, c, d, e)[..|piece|] == piece
  {
    var first := Repeat(piece, a);
    assert first == piece + Repeat(piece, a - 1);
    PrefixOfLonger(first, LaterGroups(piece, b, c, d, e), |piece|);
  }

  lemma PrefixOfLonger(x: string, y: string, n: nat)
    requires n <= |x|
    ensures (x + y)[..n] == x[..n]
  {
  }

  /** Two sources of the same length share a template only if they are equal. */
  lemma TemplateInjective(a: string, b: string)
    requires |a| == |b| && Template(a).Some? && Template(a) == Template(b)
    ensures a == b
  {
    TemplateStartsWithPiece(a);
    TemplateStartsWithPiece(b);
    assert Piece(a) == Piece(b);
    if |a| == 1 || |a| == 3 {
      assert a == Piece(a)[1..];
      assert b == Piece(b)[1..];
    }
  }

  /** Across lengths it is not: "1" and "01" give the same UUID text. */
  lemma OneAndZeroOneCollide()
    ensures Template("1") == Template("01")
    ensures Template(SourceText(IntNumber(1))) == Template(SourceText(StringNumber("01")))
  {
    assert "0" + "1" == "01";
    assert Text.IntToDecimal(1) == "1";
  }

  /** Concat: the slices appended one after the other. */
  method Concat<T>(a: seq<seq<T>>) returns (result: seq<T>)
    ensures result == Text.Flatten(a)
  {
    result := [];
    for k := 0 to |a|
      invariant result == Text.Flatten(a[..k])
    {
      assert a[..k + 1] == a[..k] + [a[k]];
      Text.FlattenAppend(a[..k], a[k]);
      result := result + a[k];
    }
    assert a[..|a|] == a;
  }

  /** The concatenation is as long as the slices together, and holds exactly their elements. */
  lemma ConcatContents<T>(a: seq<seq<T>>)
    ensures |Text.Flatten(a)| == Text.TotalLength(a)
    ensures forall x :: x in Text.Flatten(a) <==> exists i :: 0 <= i < |a| && x in a[i]
  {
    Text.FlattenLength(a);
    forall x
      ensures x in Text.Flatten(a) <==> exists i :: 0 <= i < |a| && x in a[i]
    {
      Text.FlattenMember(a, x);
    }
  }

  /** Concatenating a single slice gives it back; no slice gives the nil slice. */
  lemma ConcatUnits<T>(x: seq<T>)
    ensures Text.Flatten([x]) == x
    ensures Text.Flatten<T>([]) == []
  {
    Text.FlattenAppend<T>([], x);
    assert [] + [x] == [x];
  }
}

// The root package's copy of NumberUUID (test.go), identical to the
// test package's.
module Framework {
  import opened Wrappers
  import UuidTypes
  import TestHelpers

  function NumberUuid(nbr: TestHelpers.NumberSource, mustParse: UuidTypes.UuidParser)
    : (r: Option<UuidTypes.Uuid>)
    ensures r == TestHelpers.NumberUuid(nbr, mustParse)
  {
    match TestHelpers.Template(TestHelpers.SourceText(nbr))
    case None => None
    case Some(text) => mustParse(text)
  }
}
