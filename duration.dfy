/**
 * bunframework/types.go: Duration, a time.Duration that a SQL driver can read and write.
 * time.ParseDuration is a parameter: the value and error it returns for a text.
 */
module SqlDuration {
  import opened Wrappers
  import opened GoErrors

  newtype int64 = x: int | -0x8000_0000_0000_0000 <= x < 0x8000_0000_0000_0000

  /** The dynamic value handed to Scan: a string, a []byte (as the text it holds), nil, an int64, or any other type. */
  datatype ScanSource = StringSource(text: string) | BytesSource(bytes: string) | NilSource | Int64Source(n: int64) | OtherSource(typeName: string)

  /** What time.ParseDuration returns: a value (zero on failure) and an error. */
  datatype Parsed = Parsed(value: int64, err: Option<Error>)

  /** fmt's %T of the source. */
  function TypeName(src: ScanSource): string
  {
    match src
    case StringSource(_) => "string"
    case BytesSource(_) => "[]uint8"
    case NilSource => "<nil>"
    case Int64Source(_) => "int64"
    case OtherSource(t) => t
  }

  /** The duration and error after a Scan of `src` into a Duration holding `current`. */
  datatype ScanOutcome = ScanOutcome(duration: int64, err: Option<Error>)

  function Scanned(current: int64, src: ScanSource, parseDuration: string -> Parsed): ScanOutcome
  {
    match src
    case StringSource(t) => ScanOutcome(parseDuration(t).value, parseDuration(t).err)
    case BytesSource(t) => ScanOutcome(parseDuration(t).value, parseDuration(t).err)
    case NilSource => ScanOutcome(0, None)
    case _ => ScanOutcome(current, Some(Leaf("unsupported data type: " + TypeName(src))))
  }

  class Duration {
    var nanos: int64

    constructor(nanos: int64)
      ensures this.nanos == nanos
    {
      this.nanos := nanos;
    }

    /** Duration.Scan: writes the parsed value through the receiver, even when parsing fails. */
    method Scan(src: ScanSource, parseDuration: string -> Parsed) returns (err: Option<Error>)
      modifies this
      ensures ScanOutcome(nanos, err) == Scanned(old(nanos), src, parseDuration)
    {
      match src {
        case StringSource(t) =>
          var parsed := parseDuration(t);
          nanos := parsed.value;
          return parsed.err;
        case BytesSource(t) =>
          var parsed := parseDuration(t);
          nanos := parsed.value;
          return parsed.err;
        case NilSource =>
          nanos := 0;
          return None;
        case Int64Source(_) =>
          return Some(Leaf("unsupported data type: " + TypeName(src)));
        case OtherSource(_) =>
          return Some(Leaf("unsupported data type: " + TypeName(src)));
      }
    }

    /** Duration.Value: the nanosecond count as an int64, never an error. */
    function Value(): (v: int64)
      reads this
      ensures v == nanos
    {
      nanos
    }
  }

  /** Scanning nil stores zero and succeeds, whatever the duration held. */
  lemma NilScansToZero(current: int64, parseDuration: string -> Parsed)
    ensures Scanned(current, NilSource, parseDuration) == ScanOutcome(0, None)
  {
  }

  /** A string and a []byte holding the same text scan alike. */
  lemma BytesLikeString(current: int64, text: string, parseDuration: string -> Parsed)
    ensures Scanned(current, BytesSource(text), parseDuration) == Scanned(current, StringSource(text), parseDuration)
  {
  }

  /** A failed parse still overwrites the duration, with the parser's value. */
  lemma FailedParseOverwrites(current: int64, text: string, parseDuration: string -> Parsed)
    requires parseDuration(text).err.Some?
    ensures var r := Scanned(current, StringSource(text), parseDuration);
      r.err.Some? && r.duration == parseDuration(text).value
  {
  }

  /** Any other source is refused with an error naming its type, and the duration is kept. */
  lemma UnsupportedKeepsDuration(current: int64, src: ScanSource, parseDuration: string -> Parsed)
    requires src.Int64Source? || src.OtherSource?
    ensures Scanned(current, src, parseDuration).duration == current
    ensures Scanned(current, src, parseDuration).err == Some(Leaf("unsupported data type: " + TypeName(src)))
  {
  }

  /** What Value writes cannot be scanned back: an int64 source is refused. */
  method NoRoundTrip(d: Duration, parseDuration: string -> Parsed) returns (err: Option<Error>)
    modifies d
    ensures err == Some(Leaf("unsupported data type: " + "int64"))
    ensures d.nanos == old(d.nanos)
  {
    var v := d.Value();
    err := d.Scan(Int64Source(v), parseDuration);
  }
}
