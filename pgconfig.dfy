/**
 * pgconfig: the Driver record for bun's pgdriver, and the list of pgdriver options it is turned into.
 */
module PgConfig {
  import opened Wrappers
  import opened Drivers

  /**
   * The Driver record. Pointers and maps are Options (None is nil): `insecure` tells an unset
   * pointer apart from an explicit false. Durations are nanosecond counts.
   */
  datatype Driver = Driver(
    dsn: string,
    network: string,
    addr: string,
    connParams: Option<map<string, ParamValue>>,
    database: string,
    user: string,
    tls: Option<TlsConfig>,
    readTimeout: int,
    timeout: int,
    writeTimeout: int,
    dialTimeout: int,
    appName: string,
    insecure: Option<bool>,
    password: string,
    options: seq<PgOption>)

  /** The zero Driver carrying the given options. */
  function NewDriver(options: seq<PgOption>): (d: Driver)
    ensures d.options == options
    ensures d.dsn == "" && NoFieldSet(d)
  {
    Driver("", "", "", None, "", "", None, 0, 0, 0, 0, "", None, "", options)
  }

  /** The zero Driver carrying a DSN and the given options. */
  function NewDriverWithDSN(dsn: string, options: seq<PgOption>): (d: Driver)
    ensures d.dsn == dsn && d.options == options
    ensures NoFieldSet(d)
  {
    Driver(dsn, "", "", None, "", "", None, 0, 0, 0, 0, "", None, "", options)
  }

  /** The number of fields parseOptions turns into options: the DSN (0), the twelve fields after it (1-12) and TLS (13). */
  const FieldCount := 14

  /** Whether the field of rank `k` holds a non-zero value. */
  predicate FieldSet(d: Driver, k: nat)
  {
    match k
    case 0 => d.dsn != ""
    case 1 => d.addr != ""
    case 2 => d.appName != ""
    case 3 => d.connParams.Some?
    case 4 => d.database != ""
    case 5 => d.dialTimeout != 0
    case 6 => d.insecure.Some?
    case 7 => d.network != ""
    case 8 => d.password != ""
    case 9 => d.readTimeout != 0
    case 10 => d.timeout != 0
    case 11 => d.user != ""
    case 12 => d.writeTimeout != 0
    case 13 => d.tls.Some?
    case _ => false
  }

  /** No field other than the DSN is set. */
  predicate NoFieldSet(d: Driver)
  {
    forall k :: 1 <= k < FieldCount ==> !FieldSet(d, k)
  }

  /** The option the field of rank `k` becomes when it is set. */
  function FieldOption(d: Driver, k: nat): (o: PgOption)
    requires FieldSet(d, k)
    ensures Rank(o) == k
  {
    match k
    case 0 => WithDSN(d.dsn)
    case 1 => WithAddr(d.addr)
    case 2 => WithApplicationName(d.appName)
    case 3 => WithConnParams(d.connParams.value)
    case 4 => WithDatabase(d.database)
    case 5 => WithDialTimeout(d.dialTimeout)
    case 6 => WithInsecure(d.insecure.value)
    case 7 => WithNetwork(d.network)
    case 8 => WithPassword(d.password)
    case 9 => WithReadTimeout(d.readTimeout)
    case 10 => WithTimeout(d.timeout)
    case 11 => WithUser(d.user)
    case 12 => WithWriteTimeout(d.writeTimeout)
    case 13 => WithTLSConfig(d.tls.value)
  }

  /** What the field of rank `k` contributes: its option if set, nothing otherwise. */
  function Emitted(d: Driver, k: nat): (e: seq<PgOption>)
    ensures e == if FieldSet(d, k) then [FieldOption(d, k)] else []
  {
    match k
    case 0 => When(d.dsn != "", WithDSN(d.dsn))
    case 1 => When(d.addr != "", WithAddr(d.addr))
    case 2 => When(d.appName != "", WithApplicationName(d.appName))
    case 3 => WhenSome(d.connParams, m => WithConnParams(m))
    case 4 => When(d.database != "", WithDatabase(d.database))
    case 5 => When(d.dialTimeout != 0, WithDialTimeout(d.dialTimeout))
    case 6 => WhenSome(d.insecure, b => WithInsecure(b))
    case 7 => When(d.network != "", WithNetwork(d.network))
    case 8 => When(d.password != "", WithPassword(d.password))
    case 9 => When(d.readTimeout != 0, WithReadTimeout(d.readTimeout))
    case 10 => When(d.timeout != 0, WithTimeout(d.timeout))
    case 11 => When(d.user != "", WithUser(d.user))
    case 12 => When(d.writeTimeout != 0, WithWriteTimeout(d.writeTimeout))
    case 13 => WhenSome(d.tls, t => WithTLSConfig(t))
    case _ => []
  }

  /** One option if the condition holds, none otherwise. */
  function When(condition: bool, o: PgOption): seq<PgOption>
  {
    if condition then [o] else []
  }

  /** The option made of a pointer's or a map's value, none when it is nil. */
  function WhenSome<O>(option: Option<O>, callback: O -> PgOption): seq<PgOption>
  {
    if option.Some? then [callback(option.value)] else []
  }

  /** The options contributed by the fields of rank below `n`, in rank order. */
  function FieldOptions(d: Driver, n: nat): seq<PgOption>
  {
    if n == 0 then [] else FieldOptions(d, n - 1) + Emitted(d, n - 1)
  }

  /** The position of an option kind in parseOptions' order; caller-supplied options come before all. */
  function Rank(o: PgOption): int
  {
    match o
    case CustomPgOption(_) => -1
    case WithDSN(_) => 0
    case WithAddr(_) => 1
    case WithApplicationName(_) => 2
    case WithConnParams(_) => 3
    case WithDatabase(_) => 4
    case WithDialTimeout(_) => 5
    case WithInsecure(_) => 6
    case WithNetwork(_) => 7
    case WithPassword(_) => 8
    case WithReadTimeout(_) => 9
    case WithTimeout(_) => 10
    case WithUser(_) => 11
    case WithWriteTimeout(_) => 12
    case WithTLSConfig(_) => 13
  }

  /** parseStringOption: appends callback(option) unless the string is empty. */
  method ParseStringOption(option: string, callback: string -> PgOption, options: seq<PgOption>)
    returns (result: seq<PgOption>)
    ensures result == options + When(option != "", callback(option))
  {
    result := options;
    if option == "" {
      return;
    }
    result := result + [callback(option)];
  }

  /** parseDurationOption: appends callback(option) unless the duration is zero. */
  method ParseDurationOption(option: int, callback: int -> PgOption, options: seq<PgOption>)
    returns (result: seq<PgOption>)
    ensures result == options + When(option != 0, callback(option))
  {
    result := options;
    if option == 0 {
      return;
    }
    result := result + [callback(option)];
  }

  /** parseMapOption: appends callback(option) unless the map is nil. */
  method ParseMapOption<K, V>(option: Option<map<K, V>>, callback: map<K, V> -> PgOption, options: seq<PgOption>)
    returns (result: seq<PgOption>)
    ensures result == options + WhenSome(option, callback)
  {
    result := options;
    if option.None? {
      return;
    }
    result := result + [callback(option.value)];
  }

  /** parsePTROption: appends callback(*option) unless the pointer is nil. */
  method ParsePtrOption<O>(option: Option<O>, callback: O -> PgOption, options: seq<PgOption>)
    returns (result: seq<PgOption>)
    ensures result == options + WhenSome(option, callback)
  {
    result := options;
    if option.None? {
      return;
    }
    result := result + [callback(option.value)];
  }

  /** One more field parsed: the options so far extend by what that field contributes. */
  lemma Advance(d: Driver, k: nat, before: seq<PgOption>, after: seq<PgOption>)
    requires before == d.options + FieldOptions(d, k)
    requires after == before + Emitted(d, k)
    ensures after == d.options + FieldOptions(d, k + 1)
  {
  }

  /** parseOptions: the caller's options, then one option per set field, in rank order. */
  method ParseOptions(config: Driver) returns (options: seq<PgOption>)
    ensures options == config.options + FieldOptions(config, FieldCount)
  {
    options := ParseAddressing(config, config.options);
    options := ParseSession(config, options);
    options := ParseLimits(config, options);
  }

  /** The fields of rank 0 to 4: where and which database to reach. */
  method ParseAddressing(config: Driver, options: seq<PgOption>) returns (result: seq<PgOption>)
    requires options == config.options + FieldOptions(config, 0)
    ensures result == config.options + FieldOptions(config, 5)
  {
    result := ParseStringOption(config.dsn, s => WithDSN(s), options);
    Advance(config, 0, options, result);
    var before := result;
    result := ParseStringOption(config.addr, s => WithAddr(s), result);
    Advance(config, 1, before, result);
    before := result;
    result := ParseStringOption(config.appName, s => WithApplicationName(s), result);
    Advance(config, 2, before, result);
    before := result;
    result := ParseMapOption(config.connParams, m => WithConnParams(m), result);
    Advance(config, 3, before, result);
    before := result;
    result := ParseStringOption(config.database, s => WithDatabase(s), result);
    Advance(config, 4, before, result);
  }

  /** The fields of rank 5 to 9: dialling, transport and credentials. */
  method ParseSession(config: Driver, options: seq<PgOption>) returns (result: seq<PgOption>)
    requires options == config.options + FieldOptions(config, 5)
    ensures result == config.options + FieldOptions(config, 10)
  {
    result := ParseDurationOption(config.dialTimeout, t => WithDialTimeout(t), options);
    Advance(config, 5, options, result);
    var before := result;
    result := ParsePtrOption(config.insecure, b => WithInsecure(b), result);
    Advance(config, 6, before, result);
    before := result;
    result := ParseStringOption(config.network, s => WithNetwork(s), result);
    Advance(config, 7, before, result);
    before := result;
    result := ParseStringOption(config.password, s => WithPassword(s), result);
    Advance(config, 8, before, result);
    before := result;
    result := ParseDurationOption(config.readTimeout, t => WithReadTimeout(t), result);
    Advance(config, 9, before, result);
  }

  /** The fields of rank 10 to 13: the remaining timeouts, the user and TLS. */
  method ParseLimits(config: Driver, options: seq<PgOption>) returns (result: seq<PgOption>)
    requires options == config.options + FieldOptions(config, 10)
    ensures result == config.options + FieldOptions(config, FieldCount)
  {
    result := ParseDurationOption(config.timeout, t => WithTimeout(t), options);
    Advance(config, 10, options, result);
    var before := result;
    result := ParseStringOption(config.user, s => WithUser(s), result);
    Advance(config, 11, before, result);
    before := result;
    result := ParseDurationOption(config.writeTimeout, t => WithWriteTimeout(t), result);
    Advance(config, 12, before, result);
    before := result;
    if config.tls.Some? {
      result := result + [WithTLSConfig(config.tls.value)];
    }
    Advance(config, 13, before, result);
  }

  /** Driver.Connect: never fails; bun's options are passed through to the handle. */
  method Connect(config: Driver, options: seq<DbOption>) returns (r: ConnectResult)
    ensures r.Connected?
    ensures r.db.options == options && r.db.sqlDB == r.sqlDB
    ensures r.sqlDB == PgConnector(config.options + FieldOptions(config, FieldCount))
  {
    var pgOptions := ParseOptions(config);
    var sqlDB := PgConnector(pgOptions);
    r := OpenDB(sqlDB, options);
  }

  /** Every option a field contributes has that field's rank. */
  lemma EmittedRank(d: Driver, k: nat, o: PgOption)
    requires o in Emitted(d, k)
    ensures Rank(o) == k
  {
  }

  /** The field options are strictly increasing in rank: the fixed order, with at most one option per field. */
  lemma {:induction false} FieldOptionsOrdered(d: Driver, n: nat)
    ensures forall i, j :: 0 <= i < j < |FieldOptions(d, n)| ==>
      Rank(FieldOptions(d, n)[i]) < Rank(FieldOptions(d, n)[j])
    ensures forall o :: o in FieldOptions(d, n) ==> 0 <= Rank(o) < n
  {
    if n > 0 {
      FieldOptionsOrdered(d, n - 1);
      var prev := FieldOptions(d, n - 1);
      var s := FieldOptions(d, n);
      assert s == prev + Emitted(d, n - 1);
      forall o | o in s
        ensures 0 <= Rank(o) < n
      {
        if o !in prev {
          EmittedRank(d, n - 1, o);
        }
      }
      forall i, j | 0 <= i < j < |s|
        ensures Rank(s[i]) < Rank(s[j])
      {
        if j >= |prev| {
          assert s[i] in prev;
          EmittedRank(d, n - 1, s[j]);
        } else {
          assert s[i] == prev[i] && s[j] == prev[j];
        }
      }
    }
  }

  /** A field's option is among the field options exactly when the field is set. */
  lemma {:induction false} FieldOptionPresent(d: Driver, n: nat, k: nat)
    requires k < n
    ensures (exists o :: o in FieldOptions(d, n) && Rank(o) == k) <==> FieldSet(d, k)
    ensures FieldSet(d, k) ==> FieldOption(d, k) in FieldOptions(d, n)
  {
    var prev := FieldOptions(d, n - 1);
    var e := Emitted(d, n - 1);
    assert FieldOptions(d, n) == prev + e;
    forall o | o in e
      ensures Rank(o) == n - 1
    {
      EmittedRank(d, n - 1, o);
    }
    if k == n - 1 {
      FieldOptionsOrdered(d, n - 1);
      assert forall o :: o in prev ==> Rank(o) != k;
    } else {
      FieldOptionPresent(d, n - 1, k);
    }
  }

  /** The number of set fields of rank below `n`. */
  function SetFieldCount(d: Driver, n: nat): nat
  {
    if n == 0 then 0 else SetFieldCount(d, n - 1) + (if FieldSet(d, n - 1) then 1 else 0)
  }

  /** parseOptions returns one option per caller option and one per set field, TLS included. */
  lemma {:induction false} FieldOptionsLength(d: Driver, n: nat)
    ensures |FieldOptions(d, n)| == SetFieldCount(d, n)
  {
    if n > 0 {
      FieldOptionsLength(d, n - 1);
    }
  }

  /** A non-empty DSN is the first option after the caller's ones. */
  lemma {:induction false} DSNFirst(d: Driver, n: nat)
    requires n >= 1 && d.dsn != ""
    ensures |FieldOptions(d, n)| >= 1 && FieldOptions(d, n)[0] == WithDSN(d.dsn)
  {
    if n > 1 {
      DSNFirst(d, n - 1);
    }
  }

  /** With only the DSN set, the field options are that DSN alone (or nothing when it is empty). */
  lemma {:induction false} OnlyDSN(d: Driver, n: nat)
    requires 1 <= n <= FieldCount && NoFieldSet(d)
    ensures FieldOptions(d, n) == if d.dsn == "" then [] else [WithDSN(d.dsn)]
  {
    if n > 1 {
      OnlyDSN(d, n - 1);
      assert !FieldSet(d, n - 1);
    }
  }

  /** NewDriverWithDSN(dsn, opts) is parsed into opts followed by exactly one DSN option when dsn is not empty. */
  lemma NewDriverWithDSNOptions(dsn: string, opts: seq<PgOption>)
    ensures var d := NewDriverWithDSN(dsn, opts);
      d.options + FieldOptions(d, FieldCount) == opts + (if dsn == "" then [] else [WithDSN(dsn)])
  {
    OnlyDSN(NewDriverWithDSN(dsn, opts), FieldCount);
  }

  /** NewDriver(opts) is parsed into opts alone. */
  lemma NewDriverOptions(opts: seq<PgOption>)
    ensures var d := NewDriver(opts);
      d.options + FieldOptions(d, FieldCount) == opts
  {
    OnlyDSN(NewDriver(opts), FieldCount);
  }

  /** An explicit Insecure = false is still emitted, as WithInsecure(false). */
  lemma ExplicitFalseInsecure(d: Driver)
    requires d.insecure == Some(false)
    ensures WithInsecure(false) in FieldOptions(d, FieldCount)
  {
    FieldOptionPresent(d, FieldCount, 6);
  }
}
