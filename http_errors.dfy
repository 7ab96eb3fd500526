/**
 * errors/http.go: choosing an HTTP status for an error, building the error reported for an
 * unexpected response status, and finding such an error in a wrap chain.
 */
module HttpErrors {
  import opened Wrappers
  import opened Text
  import opened GoErrors
  import PgErrors

  /** One row of the error-to-status table. */
  datatype HTTPError = HTTPError(err: Option<Error>, code: int)

  const StatusInternalServerError := 500

  /** Row `i` is the first row whose error errors.Is matches. */
  predicate FirstMatchAt(err: Option<Error>, table: seq<HTTPError>, i: int)
  {
    && 0 <= i < |table|
    && IsErr(err, table[i].err)
    && forall j :: 0 <= j < i ==> !IsErr(err, table[j].err)
  }

  /** ErrorToHTTPCode, returning the status it aborts the request with. */
  function ErrorToHTTPCode(err: Option<Error>, table: seq<HTTPError>): (code: int)
    ensures forall i :: FirstMatchAt(err, table, i) ==> code == table[i].code
    ensures (forall i :: 0 <= i < |table| ==> !IsErr(err, table[i].err)) ==> code == StatusInternalServerError
  {
    if |table| == 0 then StatusInternalServerError
    else if IsErr(err, table[0].err) then table[0].code
    else
      var code := ErrorToHTTPCode(err, table[1..]);
      assert forall i :: FirstMatchAt(err, table, i) ==> i > 0 && FirstMatchAt(err, table[1..], i - 1);
      code
  }

  /** When some row matches, there is a first one, and its status is the answer. */
  lemma {:induction false} SomeRowMatches(err: Option<Error>, table: seq<HTTPError>, k: nat)
    requires k < |table| && IsErr(err, table[k].err)
    ensures exists i :: FirstMatchAt(err, table, i) && i <= k && ErrorToHTTPCode(err, table) == table[i].code
  {
    if forall j :: 0 <= j < k ==> !IsErr(err, table[j].err) {
      assert FirstMatchAt(err, table, k);
    } else {
      var j :| 0 <= j < k && IsErr(err, table[j].err);
      SomeRowMatches(err, table, j);
    }
  }

  /** The source's own examples: ErrInvalidEntity maps to 400 when listed, and to 500 when only ErrNotFound is. */
  lemma ErrorToHTTPCodeExamples()
    ensures ErrorToHTTPCode(Some(PgErrors.ErrInvalidEntity),
      [HTTPError(Some(PgErrors.ErrNotFound), 404), HTTPError(Some(PgErrors.ErrInvalidEntity), 400)]) == 400
    ensures ErrorToHTTPCode(Some(PgErrors.ErrInvalidEntity), [HTTPError(Some(PgErrors.ErrNotFound), 404)]) == 500
  {
    assert PgErrors.ErrInvalidEntity != PgErrors.ErrNotFound by {
      assert |PgErrors.ErrInvalidEntity.text| != |PgErrors.ErrNotFound.text|;
    }
    var table := [HTTPError(Some(PgErrors.ErrNotFound), 404), HTTPError(Some(PgErrors.ErrInvalidEntity), 400)];
    assert FirstMatchAt(Some(PgErrors.ErrInvalidEntity), table, 1);
  }

  /** The body of a response, as io.ReadAll sees it. */
  datatype ResponseBody = NoBody | Body(content: string) | UnreadableBody(readErr: Error)

  /** fmt's %v of a []int: the numbers between brackets, separated by spaces. */
  function IntList(xs: seq<int>): string
  {
    "[" + Join(seq(|xs|, i requires 0 <= i < |xs| => IntToDecimal(xs[i])), " ") + "]"
  }

  const UnexpectedLead := "got unexpected status code "
  const ExpectedLead := "expected status "
  const AnyLead := "expected any status in "
  const GotLead := ", got "

  /** The status part of the message, depending on how many statuses were expected. */
  function StatusMessage(statusCode: int, expected: seq<int>): string
  {
    if |expected| == 0 then UnexpectedLead + IntToDecimal(statusCode)
    else if |expected| == 1 then ExpectedLead + IntToDecimal(expected[0]) + GotLead + IntToDecimal(statusCode)
    else AnyLead + IntList(expected) + GotLead + IntToDecimal(statusCode)
  }

  predicate EndsWith(s: string, suffix: string)
  {
    |suffix| <= |s| && s[|s| - |suffix|..] == suffix
  }

  lemma EndsWithAppend(a: string, b: string)
    ensures EndsWith(a + b, b)
  {
    assert (a + b)[|a + b| - |b|..] == b;
  }

  /**
   * Every status message names the received status last, and a message starts with
   * "expected" exactly when some status was expected.
   */
  lemma StatusMessageNamesReceived(statusCode: int, expected: seq<int>)
    ensures EndsWith(StatusMessage(statusCode, expected), IntToDecimal(statusCode))
    ensures var m := StatusMessage(statusCode, expected);
      |expected| > 0 <==> |m| >= 8 && m[..8] == "expected"
  {
    var d := IntToDecimal(statusCode);
    LeadWords();
    if |expected| == 0 {
      EndsWithAppend(UnexpectedLead, d);
      StartsWithLead(UnexpectedLead, d);
    } else if |expected| == 1 {
      var head := ExpectedLead + IntToDecimal(expected[0]) + GotLead;
      EndsWithAppend(head, d);
      StartsWithLead(ExpectedLead, IntToDecimal(expected[0]) + GotLead + d);
    } else {
      var head := AnyLead + IntList(expected) + GotLead;
      EndsWithAppend(head, d);
      StartsWithLead(AnyLead, IntList(expected) + GotLead + d);
    }
  }

  /** The first eight characters of each lead. */
  lemma LeadWords()
    ensures |UnexpectedLead| >= 8 && UnexpectedLead[..8] != "expected"
    ensures |ExpectedLead| >= 8 && ExpectedLead[..8] == "expected"
    ensures |AnyLead| >= 8 && AnyLead[..8] == "expected"
  {
    assert UnexpectedLead[0] == 'g';
  }

  lemma StartsWithLead(head: string, rest: string)
    requires |head| >= 8
    ensures |head + rest| >= 8 && (head + rest)[..8] == head[..8]
  {
  }

  lemma Decimal200()
    ensures IntToDecimal(200) == "200"
  {
    assert NatToDecimal(2) == "2";
    assert NatToDecimal(20) == "20";
  }

  lemma Decimal400()
    ensures IntToDecimal(400) == "400"
  {
    assert NatToDecimal(4) == "4";
    assert NatToDecimal(40) == "40";
  }

  lemma Decimal404()
    ensures IntToDecimal(404) == "404"
  {
    assert NatToDecimal(4) == "4";
    assert NatToDecimal(40) == "40";
  }

  /** The status message of the source's own example with nothing expected. */
  lemma NothingExpectedExample()
    ensures StatusMessage(400, []) == "got unexpected status code 400"
  {
    Decimal400();
  }

  /** The status message of the source's own example with 200 expected. */
  lemma OneExpectedExample()
    ensures StatusMessage(400, [200]) == "expected status 200, got 400"
  {
    Decimal200();
    Decimal400();
  }

  /** The status message of the source's own example with 200 and 404 expected. */
  lemma TwoExpectedExample()
    ensures StatusMessage(400, [200, 404]) == "expected any status in " + "[200 404], got 400"
  {
    Decimal200();
    Decimal404();
    Decimal400();
    IntListPair(200, 404);
    assert IntList([200, 404]) == "[200 404]";
    assert StatusMessage(400, [200, 404]) == AnyLead + "[200 404]" + GotLead + "400";
  }

  /** %v of a two-element slice. */
  lemma IntListPair(a: int, b: int)
    ensures IntList([a, b]) == "[" + IntToDecimal(a) + " " + IntToDecimal(b) + "]"
  {
    var parts := seq(2, i requires 0 <= i < 2 => IntToDecimal([a, b][i]));
    assert parts == [IntToDecimal(a), IntToDecimal(b)];
    assert parts[1..] == [IntToDecimal(b)];
    assert Join(parts, " ") == IntToDecimal(a) + " " + Join([IntToDecimal(b)], " ");
  }

  const ReadFailure := "failed to read response body: "

  /** What a present body adds to the message. */
  function BodySuffix(body: ResponseBody): string
  {
    match body
    case NoBody => ""
    case Body(content) => ": " + content
    case UnreadableBody(e) => ": " + ReadFailure + Message(e)
  }

  /**
   * The error standing for a body that was read: its text is the body, verbatim.
   * (The source passes the body to fmt.Errorf as a format string; see BodyErrorAsWritten.)
   */
  function BodyError(content: string): (e: Error)
    ensures Message(e) == content && Chain(e) == [e]
  {
    Leaf(content)
  }

  lemma UnreadableSuffix(e: Error)
    ensures BodySuffix(UnreadableBody(e)) == ": " + Message(Wrapped(ReadFailure, e, ""))
  {
    assert Message(Wrapped(ReadFailure, e, "")) == ReadFailure + Message(e) + "";
  }

  /** The error standing for the body, if the response has one (http.go, lines 42-49). */
  method ReadBody(body: ResponseBody) returns (bodyErr: Option<Error>)
    ensures bodyErr.None? <==> body.NoBody?
    ensures bodyErr.Some? ==> BodySuffix(body) == ": " + Message(bodyErr.value)
    ensures body.UnreadableBody? ==> bodyErr == Some(Wrapped(ReadFailure, body.readErr, ""))
  {
    bodyErr := None;
    match body {
      case NoBody =>
      case UnreadableBody(e) =>
        bodyErr := Some(Wrapped(ReadFailure, e, ""));
        UnreadableSuffix(e);
      case Body(content) =>
        bodyErr := Some(BodyError(content));
    }
  }

  /** Wrapping with %w keeps every target errors.Is finds. */
  lemma WrappedKeepsIs(prefix: string, e: Error)
    ensures forall t :: Is(e, t) ==> Is(Wrapped(prefix, e, ""), t)
  {
  }

  /** NewHTTPClientErr. */
  method NewHTTPClientErr(statusCode: int, body: ResponseBody, expected: seq<int>) returns (r: Error)
    ensures r.HttpClient? && r.code == statusCode
    ensures Message(r.err) == StatusMessage(statusCode, expected) + BodySuffix(body)
    ensures Message(r) == "request failed with status " + IntToDecimal(statusCode) + ": " + Message(r.err)
    ensures body.NoBody? <==> r.err.Leaf?
    ensures body.UnreadableBody? ==> forall t :: Is(body.readErr, t) ==> Is(r.err, t)
  {
    var bodyErr := ReadBody(body);
    var errMessage := Leaf(StatusMessage(statusCode, expected));
    ghost var status := Message(errMessage);

    if bodyErr.Some? {
      errMessage := Wrapped(Message(errMessage) + ": ", bodyErr.value, "");
      assert Message(errMessage) == status + ": " + Message(bodyErr.value) + "";
      WrappedKeepsIs(status + ": ", bodyErr.value);
      if body.UnreadableBody? {
        WrappedKeepsIs(ReadFailure, body.readErr);
      }
    } else {
      assert status + BodySuffix(body) == status;
    }

    r := HttpClient(statusCode, errMessage);
  }

  /** The first *HTTPClientErr of a list of errors. */
  function FirstClientErr(s: seq<Error>): (r: Option<Error>)
    ensures r.Some? ==> r.value in s && r.value.HttpClient?
    ensures r.None? <==> forall x :: x in s ==> !x.HttpClient?
  {
    if s == [] then None else if s[0].HttpClient? then Some(s[0]) else FirstClientErr(s[1..])
  }

  lemma {:induction false} FirstClientErrAppend(a: seq<Error>, b: seq<Error>)
    ensures FirstClientErr(a + b) == if FirstClientErr(a).Some? then FirstClientErr(a) else FirstClientErr(b)
  {
    if a != [] {
      assert (a + b)[0] == a[0];
      assert (a + b)[1..] == a[1..] + b;
      FirstClientErrAppend(a[1..], b);
    } else {
      assert a + b == b;
    }
  }

  /** The errors.As walk for an *HTTPClientErr target, in pre-order over the unwrap tree. */
  function AsClientErr(e: Error): (r: Option<Error>)
    ensures r.Some? ==> r.value.HttpClient?
    decreases e, 1
  {
    match e
    case HttpClient(_, _) => Some(e)
    case Wrapped(_, inner, _) => AsClientErr(inner)
    case Joined(errs) => AsClientErrAll(errs)
    case _ => None
  }

  function AsClientErrAll(errs: seq<Error>): (r: Option<Error>)
    ensures r.Some? ==> r.value.HttpClient?
    decreases errs, 0
  {
    if errs == [] then None
    else
      var first := AsClientErr(errs[0]);
      if first.Some? then first else AsClientErrAll(errs[1..])
  }

  /** The walk finds the first *HTTPClientErr of the unwrap chain, and nil when there is none. */
  lemma {:induction false} AsClientErrFirstOnChain(e: Error)
    ensures AsClientErr(e) == FirstClientErr(Chain(e))
    decreases e, 1
  {
    match e
    case HttpClient(_, _) =>
    case Wrapped(_, inner, _) =>
      AsClientErrFirstOnChain(inner);
      assert Chain(e) == [e] + Chain(inner);
      assert Chain(e)[1..] == Chain(inner);
    case Joined(errs) =>
      AsClientErrAllFirstOnChain(errs);
      assert Chain(e)[1..] == ChainAll(errs);
    case Leaf(_) =>
      assert Chain(e) == [e];
    case Pg(_, _, _) =>
      assert Chain(e) == [e];
  }

  lemma {:induction false} AsClientErrAllFirstOnChain(errs: seq<Error>)
    ensures AsClientErrAll(errs) == FirstClientErr(ChainAll(errs))
    decreases errs, 0
  {
    if errs != [] {
      AsClientErrFirstOnChain(errs[0]);
      AsClientErrAllFirstOnChain(errs[1..]);
      FirstClientErrAppend(Chain(errs[0]), ChainAll(errs[1..]));
    }
  }

  /** AsHTTPClientErr. */
  function AsHTTPClientErr(err: Option<Error>): (r: Option<Error>)
    ensures r.Some? ==> err.Some? && r.value.HttpClient?
  {
    if err.None? then None else AsClientErr(err.value)
  }

  /** `e` wrapped by `depth` calls of fmt.Errorf("...: %w", ...). */
  function WrapDeep(e: Error, depth: nat, prefix: string): Error
  {
    if depth == 0 then e else Wrapped(prefix, WrapDeep(e, depth - 1, prefix), "")
  }

  /** An *HTTPClientErr is found through any depth of wrapping. */
  lemma {:induction false} FoundThroughWrapping(h: Error, depth: nat, prefix: string)
    requires h.HttpClient?
    ensures AsClientErr(WrapDeep(h, depth, prefix)) == Some(h)
  {
    if depth > 0 {
      var w := WrapDeep(h, depth - 1, prefix);
      FoundThroughWrapping(h, depth - 1, prefix);
      assert WrapDeep(h, depth, prefix) == Wrapped(prefix, w, "");
    } else {
      assert WrapDeep(h, depth, prefix) == h;
    }
  }

  /** An error chain without an *HTTPClientErr gives nil, as a plain fmt.Errorf error does. */
  lemma NotFoundWithoutClientErr(text: string)
    ensures AsHTTPClientErr(Some(Leaf(text))) == None
  {
  }

  /**
   * Go's fmt.Sprintf of a format with no arguments, for formats whose verbs carry no flags,
   * width, precision or argument index (None marks such a format, which this model leaves out):
   * "%%" prints '%', a verb prints "%!v(MISSING)", a lone trailing '%' prints "%!(NOVERB)".
   */
  function FormatWithoutArgs(format: string): Option<string>
  {
    if format == [] then Some("")
    else if format[0] != '%' then Prepend([format[0]], FormatWithoutArgs(format[1..]))
    else if |format| == 1 then Some("%!(NOVERB)")
    else if format[1] == '%' then Prepend("%", FormatWithoutArgs(format[2..]))
    else if IsFlagOrWidth(format[1]) then None
    else Prepend("%!" + [format[1]] + "(MISSING)", FormatWithoutArgs(format[2..]))
  }

  /** A flag, a width, a precision or an argument index after '%'. */
  predicate IsFlagOrWidth(c: char)
  {
    c == '#' || c == '0' || c == '+' || c == '-' || c == ' ' || ('1' <= c <= '9') || c == '.' || c == '*' || c == '['
  }

  function Prepend(head: string, tail: Option<string>): Option<string>
  {
    if tail.None? then None else Some(head + tail.value)
  }

  /** A text without '%' goes through fmt unchanged, so ordinary bodies come out verbatim. */
  lemma {:induction false} PlainTextUnchanged(text: string)
    requires '%' !in text
    ensures FormatWithoutArgs(text) == Some(text)
  {
    if text != [] {
      assert '%' !in text[1..];
      PlainTextUnchanged(text[1..]);
      assert [text[0]] + text[1..] == text;
    }
  }

  /** The body error as written: fmt.Errorf(string(bodyBytes)) formats the body. */
  function BodyErrorAsWritten(content: string): Option<Error>
  {
    var text := FormatWithoutArgs(content);
    if text.None? then None else Some(Leaf(text.value))
  }

  /** A body "5%" is reported as "5%!(NOVERB)", and "%d" as "%!d(MISSING)", not verbatim. */
  lemma BodyPercentMangled()
    ensures BodyErrorAsWritten("5%") == Some(Leaf("5%!(NOVERB)"))
    ensures BodyErrorAsWritten("%d") == Some(Leaf("%!d(MISSING)"))
    ensures Message(BodyError("5%")) == "5%"
  {
    assert "5%"[0] == '5' && "5%"[1..] == "%";
    assert FormatWithoutArgs("%") == Some("%!(NOVERB)");
    assert FormatWithoutArgs("5%") == Some(['5'] + "%!(NOVERB)");
    assert ['5'] + "%!(NOVERB)" == "5%!(NOVERB)";
    assert "%d"[1] == 'd' && "%d"[2..] == "";
    assert !IsFlagOrWidth('d');
    assert FormatWithoutArgs("%d") == Some("%!" + ['d'] + "(MISSING)" + "");
    assert "%!" + ['d'] + "(MISSING)" + "" == "%!d(MISSING)";
  }
}
