/**
 * errors/postgresql.go: the sentinel taxonomy of database errors, the normaliser that maps
 * driver errors onto it, and the zero-rows check for write statements.
 */
module PgErrors {
  import opened Wrappers
  import opened Text
  import opened GoErrors

  // ErrInvalidEntity and ErrTimeout of this package are declared in a file that is not part of
  // this model; their texts here are placeholders. Only their identity matters below.
  const ErrInvalidEntity: Error := Leaf("entity is not valid")
  const ErrTimeout: Error := Leaf("timeout")

  const ConstraintLead := ": record does not satisfy "
  const ConstraintTail := "some of the column constraints"
  const UniqueSuffix := ": some unique columns have duplicates"
  const RelationSuffix := ": a required relation is missing"
  const NotFoundLead := "could not find any record "
  const NotFoundTail := "matching the request"

  const ErrConstraintViolation: Error := Wrapped("", ErrInvalidEntity, ConstraintLead + ConstraintTail)
  const ErrUniqConstraintViolation: Error := Wrapped("", ErrConstraintViolation, UniqueSuffix)
  const ErrMissingRelation: Error := Wrapped("", ErrInvalidEntity, RelationSuffix)
  const ErrNotFound: Error := Leaf(NotFoundLead + NotFoundTail)

  /** database/sql's sql.ErrNoRows. */
  const ErrNoRows: Error := Leaf("sql: no rows in result set")

  /** SQLSTATE 23505 is unique_violation in PostgreSQL's error-code table. */
  const UniqueViolationMarker := "SQLSTATE=23505"
  const MissingRelationMarker := "AGORA=MISSINGRELATION"

  /** The sentinel chain: a unique violation is a constraint violation, which is an invalid entity. */
  lemma SentinelChain()
    ensures Is(ErrUniqConstraintViolation, ErrConstraintViolation)
    ensures Is(ErrUniqConstraintViolation, ErrInvalidEntity)
    ensures Is(ErrConstraintViolation, ErrInvalidEntity)
    ensures Is(ErrMissingRelation, ErrInvalidEntity)
    ensures !Is(ErrConstraintViolation, ErrUniqConstraintViolation)
    ensures !Is(ErrMissingRelation, ErrConstraintViolation)
    ensures Chain(ErrNotFound) == [ErrNotFound]
  {
  }

  /** HandlePGError. */
  function HandlePGError(err: Option<Error>): (r: Option<Error>)
    ensures r.None? <==> err.None?
  {
    if err.None? then None
    else
      var e := err.value;
      if e == ErrNoRows then Some(ErrNotFound)
      else if e.Pg? && e.integrity then
        if Contains(Message(e), UniqueViolationMarker) then Some(ErrUniqConstraintViolation)
        else Some(ErrConstraintViolation)
      else if e.Pg? && e.timeout then Some(Joined([ErrTimeout, e]))
      else if Contains(Message(e), MissingRelationMarker) then Some(ErrMissingRelation)
      else err
  }

  /** Only sql.ErrNoRows itself becomes ErrNotFound; a wrapped ErrNoRows is not recognised. */
  lemma NoRowsByIdentityOnly(prefix: string, suffix: string)
    requires !Contains(prefix + Message(ErrNoRows) + suffix, MissingRelationMarker)
    ensures HandlePGError(Some(ErrNoRows)) == Some(ErrNotFound)
    ensures HandlePGError(Some(Wrapped(prefix, ErrNoRows, suffix))) == Some(Wrapped(prefix, ErrNoRows, suffix))
    ensures Is(Wrapped(prefix, ErrNoRows, suffix), ErrNoRows)
  {
  }

  /**
   * An integrity violation reported by the driver becomes a unique-constraint violation when its
   * text carries SQLSTATE 23505, and a plain constraint violation otherwise; both are invalid entities.
   */
  lemma IntegrityViolationClassified(timeout: bool, text: string)
    ensures var r := HandlePGError(Some(Pg(true, timeout, text)));
      && r.Some?
      && Is(r.value, ErrConstraintViolation)
      && Is(r.value, ErrInvalidEntity)
      && (Is(r.value, ErrUniqConstraintViolation) <==> Contains(text, UniqueViolationMarker))
  {
    var r := HandlePGError(Some(Pg(true, timeout, text)));
    if !Contains(text, UniqueViolationMarker) {
      assert r.value == ErrConstraintViolation;
      assert !Is(ErrConstraintViolation, ErrUniqConstraintViolation);
    }
  }

  /**
   * A statement timeout is joined with ErrTimeout. errors.Is finds ErrTimeout; the original driver
   * error stays on the unwrap chain (errors.As reaches it) but errors.Is cannot match it, because a
   * pgdriver.Error is not comparable.
   */
  lemma TimeoutJoined(text: string)
    ensures var pg := Pg(false, true, text);
      var r := HandlePGError(Some(pg));
      && r == Some(Joined([ErrTimeout, pg]))
      && Is(r.value, ErrTimeout)
      && pg in Chain(r.value)
      && !Is(r.value, pg)
      && !Is(r.value, ErrInvalidEntity)
  {
    var pg := Pg(false, true, text);
    var r := Joined([ErrTimeout, pg]);
    assert ChainAll([pg]) == [pg] by {
      assert [pg][1..] == [];
    }
    assert [ErrTimeout, pg][1..] == [pg];
    assert ChainAll([ErrTimeout, pg]) == [ErrTimeout, pg];
    assert Chain(r) == [r, ErrTimeout, pg];
    IsOnChain(r, ErrInvalidEntity);
    IsOnChain(r, pg);
  }

  /**
   * The missing-relation marker is looked for in every error that the typed checks did not
   * classify: plain errors, wrapped driver errors, and driver errors that are neither integrity
   * violations nor timeouts.
   */
  lemma MissingRelationByMarker(e: Error)
    requires e != ErrNoRows
    requires !(e.Pg? && (e.integrity || e.timeout))
    ensures Contains(Message(e), MissingRelationMarker) ==>
      HandlePGError(Some(e)) == Some(ErrMissingRelation) && Is(ErrMissingRelation, ErrInvalidEntity)
    ensures !Contains(Message(e), MissingRelationMarker) ==> HandlePGError(Some(e)) == Some(e)
  {
  }

  /**
   * Every normalised error is one of: ErrNotFound, a constraint sentinel, the timeout join,
   * ErrMissingRelation, or the input unchanged; and a driver error wrapped in another error is
   * never classified as a constraint violation, because the check is a type assertion.
   */
  lemma NormalisedForms(e: Error)
    ensures var r := HandlePGError(Some(e)).value;
      || r == ErrNotFound || r == ErrUniqConstraintViolation || r == ErrConstraintViolation
      || r == Joined([ErrTimeout, e]) || r == ErrMissingRelation || r == e
    ensures !e.Pg? ==>
      var r := HandlePGError(Some(e)).value;
      r == ErrNotFound || r == ErrMissingRelation || r == e
  {
  }

  /**
   * Normalising twice is the same as normalising once, except for a timeout whose text carries
   * the missing-relation marker: the join that wraps it is then renamed ErrMissingRelation.
   */
  lemma {:induction false} NormaliseIdempotent(e: Error)
    requires !(e.Pg? && !e.integrity && e.timeout && Contains(Message(e), MissingRelationMarker))
    ensures HandlePGError(HandlePGError(Some(e))) == HandlePGError(Some(e))
  {
    var r := HandlePGError(Some(e)).value;
    if r == ErrNotFound || r == ErrUniqConstraintViolation || r == ErrConstraintViolation || r == ErrMissingRelation {
      SentinelsAreFixed();
    } else if r == Joined([ErrTimeout, e]) && r != e {
      assert e.Pg? && e.timeout && !e.integrity;
      assert Message(r) == Message(ErrTimeout) + "\n" + Message(e) by {
        assert [ErrTimeout, e][1..] == [e];
        assert Messages([e]) == [Message(e)] by {
          assert [e][1..] == [];
        }
        assert Messages(r.errs) == [Message(ErrTimeout), Message(e)];
        assert [Message(ErrTimeout), Message(e)][1..] == [Message(e)];
        assert Join([Message(ErrTimeout), Message(e)], "\n") == Message(ErrTimeout) + "\n" + Join([Message(e)], "\n");
      }
      MarkerInJoin(Message(ErrTimeout) + "\n", Message(e));
    }
  }

  /** The sentinels the normaliser produces are left as they are by it. */
  lemma SentinelsAreFixed()
    ensures HandlePGError(Some(ErrNotFound)) == Some(ErrNotFound)
    ensures HandlePGError(Some(ErrConstraintViolation)) == Some(ErrConstraintViolation)
    ensures HandlePGError(Some(ErrUniqConstraintViolation)) == Some(ErrUniqConstraintViolation)
    ensures HandlePGError(Some(ErrMissingRelation)) == Some(ErrMissingRelation)
  {
    SentinelTextsUnmarked();
    assert |ErrNotFound.text| != |ErrNoRows.text|;
    LeftAsIs(ErrNotFound);
    LeftAsIs(ErrConstraintViolation);
    LeftAsIs(ErrUniqConstraintViolation);
    LeftAsIs(ErrMissingRelation);
  }

  /** An error that is neither sql.ErrNoRows, nor a driver error, nor marked passes through unchanged. */
  lemma LeftAsIs(e: Error)
    requires e != ErrNoRows && !e.Pg? && !Contains(Message(e), MissingRelationMarker)
    ensures HandlePGError(Some(e)) == Some(e)
  {
  }

  /** The sentinel texts are lower case, while the missing-relation marker starts with 'A'. */
  lemma SentinelTextsUnmarked()
    ensures !Contains(Message(ErrNotFound), MissingRelationMarker)
    ensures !Contains(Message(ErrConstraintViolation), MissingRelationMarker)
    ensures !Contains(Message(ErrUniqConstraintViolation), MissingRelationMarker)
    ensures !Contains(Message(ErrMissingRelation), MissingRelationMarker)
  {
    LowerCaseTexts();
    NotContainsWithoutFirst(Message(ErrNotFound), MissingRelationMarker);
    NotContainsWithoutFirst(Message(ErrConstraintViolation), MissingRelationMarker);
    NotContainsWithoutFirst(Message(ErrUniqConstraintViolation), MissingRelationMarker);
    NotContainsWithoutFirst(Message(ErrMissingRelation), MissingRelationMarker);
  }

  lemma LowerCaseTexts()
    ensures 'A' !in Message(ErrNotFound)
    ensures 'A' !in Message(ErrConstraintViolation)
    ensures 'A' !in Message(ErrUniqConstraintViolation)
    ensures 'A' !in Message(ErrMissingRelation)
  {
    NotFoundText();
    ConstraintText();
    UniqueText();
    MissingRelationText();
  }

  lemma UniqueText()
    ensures 'A' !in Message(ErrUniqConstraintViolation)
  {
    ConstraintText();
    UniqueSuffixText();
    WrappedWithoutA(ErrConstraintViolation, UniqueSuffix);
  }

  lemma NotFoundText()
    ensures 'A' !in Message(ErrNotFound)
  {
    NotFoundPiecesText();
    assert Message(ErrNotFound) == NotFoundLead + NotFoundTail;
  }

  lemma NotFoundPiecesText()
    ensures 'A' !in NotFoundLead && 'A' !in NotFoundTail
  {
  }

  lemma ConstraintText()
    ensures 'A' !in Message(ErrConstraintViolation)
  {
    InvalidEntityText();
    ConstraintSuffixText();
    WrappedWithoutA(ErrInvalidEntity, ConstraintLead + ConstraintTail);
  }

  lemma MissingRelationText()
    ensures 'A' !in Message(ErrMissingRelation)
  {
    InvalidEntityText();
    MissingRelationSuffixText();
    WrappedWithoutA(ErrInvalidEntity, RelationSuffix);
  }

  /** A sentinel wrapping another with a suffix: neither part has an 'A', so the whole has none. */
  lemma WrappedWithoutA(e: Error, suffix: string)
    requires 'A' !in Message(e) && 'A' !in suffix
    ensures 'A' !in Message(Wrapped("", e, suffix))
  {
    assert Message(Wrapped("", e, suffix)) == "" + Message(e) + suffix;
  }

  lemma InvalidEntityText()
    ensures 'A' !in Message(ErrInvalidEntity)
  {
  }

  lemma ConstraintSuffixText()
    ensures 'A' !in ConstraintLead && 'A' !in ConstraintTail
  {
  }

  lemma UniqueSuffixText()
    ensures 'A' !in UniqueSuffix
  {
  }

  lemma MissingRelationSuffixText()
    ensures 'A' !in RelationSuffix
  {
  }

  /** The marker cannot straddle "timeout\n" and the driver text, so it occurs in the join only if it occurs in the text. */
  lemma {:induction false} MarkerInJoin(head: string, tail: string)
    requires head == Message(ErrTimeout) + "\n"
    requires !Contains(tail, MissingRelationMarker)
    ensures !Contains(head + tail, MissingRelationMarker)
  {
    NotContainsWithoutFirst(head, MissingRelationMarker);
    SuffixOnly(head, tail, MissingRelationMarker);
  }

  /** If `sub` starts with a character absent from `head`, it occurs in head + tail only inside tail. */
  lemma {:induction false} SuffixOnly(head: string, tail: string, sub: string)
    requires |sub| > 0 && sub[0] !in head
    requires !Contains(tail, sub)
    ensures !Contains(head + tail, sub)
  {
    if head == [] {
      assert head + tail == tail;
    } else {
      if |sub| <= |head + tail| {
        assert (head + tail)[..|sub|][0] == head[0];
      }
      assert (head + tail)[1..] == head[1..] + tail;
      SuffixOnly(head[1..], tail, sub);
    }
  }

  /** The outcome of sql.Result.RowsAffected. */
  datatype RowsAffected = Rows(count: int) | RowsError(err: Error)

  /** ForceRowsUpdate. */
  function ForceRowsUpdate(res: RowsAffected): (r: Option<Error>)
    ensures r.None? <==> res.Rows? && res.count != 0
    ensures r == Some(ErrNotFound) <==> res == Rows(0)
    ensures res.RowsError? ==>
      && r.Some? && r.value.Wrapped? && r.value.inner == res.err
      && forall t :: Is(res.err, t) ==> Is(r.value, t)
  {
    match res
    case RowsError(e) => Some(Wrapped("failed to check rows affected by the operation: ", e, ""))
    case Rows(n) => if n == 0 then Some(ErrNotFound) else None
  }
}
