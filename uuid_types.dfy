// Query-parameter helpers that turn text into UUIDs (types/uuid.go).
// The UUID parser itself belongs to a third-party library; it is a
// parameter here, `None` standing for a parse error.
module UuidTypes {
  import opened Wrappers
  import Text

  /** A 128-bit UUID, by its numeric value. */
  datatype Uuid = Uuid(value: nat)

  /** The all-zero UUID that parse failures fall back to. */
  const NilUuid := Uuid(0)

  type UuidParser = string -> Option<Uuid>

  /** StringUUID.Value: the parsed UUID, or the nil UUID when parsing fails. */
  function StringUuidValue(s: string, parse: UuidParser): (u: Uuid)
    ensures parse(s).Some? ==> u == parse(s).value
    ensures parse(s).None? ==> u == NilUuid
    ensures u != NilUuid ==> parse(s) == Some(u)
  {
    match parse(s)
    case None => NilUuid
    case Some(parsed) => parsed
  }

  /** The UUIDs of the pieces that parse, in the order of the pieces. */
  function ParsedPieces(pieces: seq<string>, parse: UuidParser): seq<Uuid>
  {
    if |pieces| == 0 then []
    else
      var rest := ParsedPieces(pieces[1..], parse);
      match parse(pieces[0])
      case None => rest
      case Some(u) => [u] + rest
  }

  lemma {:induction false} ParsedPiecesAppend(pieces: seq<string>, piece: string, parse: UuidParser)
    ensures ParsedPieces(pieces + [piece], parse)
         == ParsedPieces(pieces, parse) + (if parse(piece).Some? then [parse(piece).value] else [])
    decreases |pieces|
  {
    if |pieces| == 0 {
      assert pieces + [piece] == [piece];
    } else {
      assert (pieces + [piece])[1..] == pieces[1..] + [piece];
      ParsedPiecesAppend(pieces[1..], piece, parse);
    }
  }

  /** At most one UUID per piece, and every UUID is the parse of some piece. */
  lemma {:induction false} ParsedPiecesBounded(pieces: seq<string>, parse: UuidParser)
    ensures |ParsedPieces(pieces, parse)| <= |pieces|
    ensures forall u :: u in ParsedPieces(pieces, parse) ==>
              exists i :: 0 <= i < |pieces| && parse(pieces[i]) == Some(u)
    decreases |pieces|
  {
    if |pieces| > 0 {
      ParsedPiecesBounded(pieces[1..], parse);
      forall u | u in ParsedPieces(pieces, parse)
        ensures exists i :: 0 <= i < |pieces| && parse(pieces[i]) == Some(u)
      {
        if parse(pieces[0]) == Some(u) {
        } else {
          var i :| 0 <= i < |pieces[1..]| && parse(pieces[1..][i]) == Some(u);
          assert parse(pieces[i + 1]) == Some(u);
        }
      }
    }
  }

  /** A piece that parses is never dropped. */
  lemma {:induction false} ParsedPiecesKeeps(pieces: seq<string>, parse: UuidParser, i: nat)
    requires i < |pieces| && parse(pieces[i]).Some?
    ensures parse(pieces[i]).value in ParsedPieces(pieces, parse)
    decreases |pieces|
  {
    if i > 0 {
      ParsedPiecesKeeps(pieces[1..], parse, i - 1);
    }
  }

  /**
   * StringUUIDs.Value: split the text on ',' and keep, in order, the
   * UUIDs of the pieces that parse; unparsable pieces are skipped, and
   * nothing parsing yields the nil (empty) slice.
   */
  method StringUuidsValue(s: string, parse: UuidParser) returns (uuids: seq<Uuid>)
    ensures uuids == ParsedPieces(Text.SplitOn(s, ','), parse)
  {
    var pieces := Text.SplitOn(s, ',');
    uuids := [];
    for k := 0 to |pieces|
      invariant uuids == ParsedPieces(pieces[..k], parse)
    {
      assert pieces[..k + 1] == pieces[..k] + [pieces[k]];
      ParsedPiecesAppend(pieces[..k], pieces[k], parse);
      var parsed := parse(pieces[k]);
      if parsed.None? {
        continue;
      }
      uuids := uuids + [parsed.value];
    }
    assert pieces[..|pieces|] == pieces;
  }

  /** The list holds at most one UUID more than there are commas. */
  lemma StringUuidsBounded(s: string, parse: UuidParser)
    ensures |ParsedPieces(Text.SplitOn(s, ','), parse)| <= Text.Occurrences(s, ',') + 1
  {
    ParsedPiecesBounded(Text.SplitOn(s, ','), parse);
    Text.SplitCount(s, ',');
  }

  /** A text with no comma is one piece: its UUID alone, or nothing. */
  lemma SingleUuid(s: string, parse: UuidParser)
    requires ',' !in s
    ensures ParsedPieces(Text.SplitOn(s, ','), parse)
         == if parse(s).Some? then [StringUuidValue(s, parse)] else []
  {
    Text.SplitWithoutSeparator(s, ',');
    assert [s][1..] == [];
  }
}
