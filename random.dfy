// Random token generation (security/random.go). The pseudo-random
// generator, seeded from the clock, is a parameter: `draws(i)` is the
// value its i-th `Intn(len(alphabet))` call returns.
module Security {
  import opened Wrappers
  import Text

  /** The latin non-accented letters, lower case first. */
  const Letters: string :=
    seq(26, i requires 0 <= i < 26 => ('a' as int + i) as char)
    + seq(26, i requires 0 <= i < 26 => ('A' as int + i) as char)

  /** AlphabetLetters: the letters split into one-character strings. */
  const AlphabetLetters: seq<string> := seq(|Letters|, i requires 0 <= i < |Letters| => [Letters[i]])

  predicate IsLatinLetter(c: char)
  {
    'a' <= c <= 'z' || 'A' <= c <= 'Z'
  }

  lemma AlphabetLettersShape()
    ensures |AlphabetLetters| == 52
    ensures forall i :: 0 <= i < 52 ==> |AlphabetLetters[i]| == 1 && IsLatinLetter(AlphabetLetters[i][0])
  {
  }

  /** What Intn promises: each draw lies in [0, n). */
  ghost predicate DrawsBelow(draws: nat -> int, n: nat)
  {
    forall i: nat :: 0 <= draws(i) < n
  }

  /** The first `n` picks from the alphabet. */
  function Picks(alphabet: seq<string>, draws: nat -> int, n: nat): (p: seq<string>)
    requires forall i: nat :: i < n ==> 0 <= draws(i) < |alphabet|
    ensures |p| == n
    ensures forall i :: 0 <= i < n ==> p[i] == alphabet[draws(i)]
  {
    if n == 0 then [] else Picks(alphabet, draws, n - 1) + [alphabet[draws(n - 1)]]
  }

  /**
   * RandomAlphabet: `size` picks joined with `sep`. A negative size
   * (make panics) and a draw from an empty alphabet (Intn panics) are
   * `None`; a size of zero makes no draw and yields "".
   */
  method RandomAlphabet(alphabet: seq<string>, size: int, sep: string, draws: nat -> int)
    returns (r: Option<string>)
    requires |alphabet| > 0 ==> DrawsBelow(draws, |alphabet|)
    ensures size < 0 ==> r.None?
    ensures size > 0 && |alphabet| == 0 ==> r.None?
    ensures size == 0 ==> r == Some("")
    ensures size > 0 && |alphabet| > 0 ==> r == Some(Text.Join(Picks(alphabet, draws, size), sep))
  {
    if size < 0 {
      return None;
    }
    var output := new string[size];
    for i := 0 to size
      invariant i > 0 ==> |alphabet| > 0
      invariant forall j :: 0 <= j < i ==> output[j] == alphabet[draws(j)]
    {
      if |alphabet| == 0 {
        return None;
      }
      var pick := draws(i);
      output[i] := alphabet[pick];
    }
    if size > 0 {
      assert output[..] == Picks(alphabet, draws, size);
    }
    r := Some(Text.Join(output[..], sep));
  }

  /** Random: `size` picks of single letters, no separator. */
  method Random(size: int, draws: nat -> int) returns (r: Option<string>)
    requires DrawsBelow(draws, 52)
    ensures size < 0 ==> r.None?
    ensures size >= 0 ==> r.Some? && |r.value| == size
    ensures r.Some? ==> forall c :: c in r.value ==> IsLatinLetter(c)
  {
    AlphabetLettersShape();
    r := RandomAlphabet(AlphabetLetters, size, "", draws);
    if size > 0 {
      LettersToken(draws, size);
    }
  }

  /** A token of letters has one character per pick, each a latin letter. */
  lemma LettersToken(draws: nat -> int, size: nat)
    requires DrawsBelow(draws, 52)
    ensures |Text.Join(Picks(AlphabetLetters, draws, size), "")| == size
    ensures forall c :: c in Text.Join(Picks(AlphabetLetters, draws, size), "") ==> IsLatinLetter(c)
  {
    var p := Picks(AlphabetLetters, draws, size);
    PicksAreLetters(draws, size);
    Text.JoinEmptySep(p);
    Text.FlattenLength(p);
    OneEach(p);
    forall c | c in Text.Flatten(p)
      ensures IsLatinLetter(c)
    {
      Text.FlattenMember(p, c);
    }
  }

  /** Each pick from AlphabetLetters is a single latin letter. */
  lemma PicksAreLetters(draws: nat -> int, size: nat)
    requires DrawsBelow(draws, 52)
    ensures var p := Picks(AlphabetLetters, draws, size);
      forall i :: 0 <= i < |p| ==> |p[i]| == 1 && forall c :: c in p[i] ==> IsLatinLetter(c)
  {
    AlphabetLettersShape();
    var p := Picks(AlphabetLetters, draws, size);
    forall i | 0 <= i < |p|
      ensures |p[i]| == 1 && forall c :: c in p[i] ==> IsLatinLetter(c)
    {
      assert p[i] == AlphabetLetters[draws(i)];
      assert p[i] == [p[i][0]];
    }
  }

  lemma {:induction false} OneEach(p: seq<string>)
    requires forall i :: 0 <= i < |p| ==> |p[i]| == 1
    ensures Text.TotalLength(p) == |p|
  {
    if |p| > 0 {
      OneEach(p[1..]);
    }
  }

  /** With every alphabet entry of width w, a token has size*w + (size-1)*|sep| characters. */
  lemma {:induction false} TokenLength(alphabet: seq<string>, draws: nat -> int, size: nat, sep: string, w: nat)
    requires size > 0 && |alphabet| > 0 && DrawsBelow(draws, |alphabet|)
    requires forall i :: 0 <= i < |alphabet| ==> |alphabet[i]| == w
    ensures |Text.Join(Picks(alphabet, draws, size), sep)| == size * w + (size - 1) * |sep|
  {
    var p := Picks(alphabet, draws, size);
    Text.JoinLength(p, sep);
    SameWidth(p, w);
  }

  lemma {:induction false} SameWidth(p: seq<string>, w: nat)
    requires forall i :: 0 <= i < |p| ==> |p[i]| == w
    ensures Text.SumLengths(p) == |p| * w
  {
    if |p| > 0 {
      SameWidth(p[1..], w);
    }
  }

  /** Three picks of three-letter words joined with "-" make 11 characters. */
  lemma ThreeWordsWithDash(draws: nat -> int)
    requires DrawsBelow(draws, 3)
    ensures |Text.Join(Picks(["foo", "bar", "qux"], draws, 3), "-")| == 11
  {
    TokenLength(["foo", "bar", "qux"], draws, 3, "-", 3);
  }
}
