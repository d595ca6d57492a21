/** The benchmark harness: the name of each measurement's CSV file, the fixed
    operation counts of the two workload shapes, the dispatch of a run to the
    chosen backend, and the idle baseline. Timing is an input: `elapsed` is
    the number of milliseconds the clock reports. */
module Harness {
  import opened Wrappers
  import opened Text
  import opened Workload
  import opened DataGenerator
  import Postgres
  import MongoDB

  /** The two implementations of the `Database` interface. */
  datatype Backend = PostgresBackend | MongoBackend

  /** The two workload shapes. */
  datatype Shape = ReadHeavy | WriteHeavy

  /** `Database::name`. */
  function Name(b: Backend): (r: string)
    ensures r == "PostgreSQL" || r == "MongoDB"
  {
    match b
    case PostgresBackend => "PostgreSQL"
    case MongoBackend => "MongoDB"
  }

  /** The shape's part of a measurement name. */
  function Kind(shape: Shape): string {
    match shape
    case ReadHeavy => "read_heavy"
    case WriteHeavy => "write_heavy"
  }

  /** Reads a run_read_heavy issues. */
  const ReadHeavyReads: nat := 1000
  /** Writes a run_read_heavy issues. */
  const ReadHeavyWrites: nat := 200
  /** Reads a run_write_heavy issues. */
  const WriteHeavyReads: nat := 200
  /** Writes a run_write_heavy issues. */
  const WriteHeavyWrites: nat := 1000

  function NumReads(shape: Shape): nat {
    if shape == ReadHeavy then ReadHeavyReads else WriteHeavyReads
  }

  function NumWrites(shape: Shape): nat {
    if shape == ReadHeavy then ReadHeavyWrites else WriteHeavyWrites
  }

  /** The measurement name up to the depth. */
  function Prefix(b: Backend, shape: Shape): string {
    Name(b) + "_" + Kind(shape) + "_depth_"
  }

  /** The measurement name of run_read_heavy and run_write_heavy:
      `{name}_{kind}_depth_{depth}_epoch_{epoch}{suffix}.csv`, where the
      suffix is `_with_index` exactly when the index is used. The name
      starts with the backend and the shape and is a CSV file's. */
  function MeasurementName(b: Backend, shape: Shape, depth: u8, epoch: u8, useIndex: bool): (r: string)
    ensures |r| > |Prefix(b, shape)| + 4 && r[..|Prefix(b, shape)|] == Prefix(b, shape)
    ensures r[|r| - 4..] == ".csv"
  {
    Prefix(b, shape) + Show(depth as nat) + "_epoch_" + Show(epoch as nat)
      + (if useIndex then "_with_index" else "") + ".csv"
  }

  /** What a measurement name records. */
  datatype Combination = Combination(backend: Backend, shape: Shape, depth: u8, epoch: u8, useIndex: bool)

  /** A decimal numeral at the start of `s`, below 256, and what follows it. */
  function ParseU8(s: string): Option<(u8, string)> {
    var n := DigitRun(s);
    match Parse(s[..n])
    case Some(v) => if v < 0x100 then Some((v as u8, s[n..])) else None
    case None => None
  }

  /** Reads back the end of a measurement name, after the epoch's digits. */
  function ParseSuffix(rest: string, b: Backend, shape: Shape, depth: u8, epoch: u8): Option<Combination> {
    if rest == "_with_index.csv" then Some(Combination(b, shape, depth, epoch, true))
    else if rest == ".csv" then Some(Combination(b, shape, depth, epoch, false))
    else None
  }

  /** Reads back the part of a measurement name after its depth's digits. */
  function ParseEpoch(u: string, b: Backend, shape: Shape, depth: u8): Option<Combination> {
    if |u| < 7 || u[..7] != "_epoch_" then None
    else
      match ParseU8(u[7..])
      case None => None
      case Some((epoch, rest)) => ParseSuffix(rest, b, shape, depth, epoch)
  }

  /** Reads a measurement name of the given backend and shape back. */
  function ParseAs(s: string, b: Backend, shape: Shape): Option<Combination> {
    var p := Prefix(b, shape);
    if |s| < |p| || s[..|p|] != p then None
    else
      match ParseU8(s[|p|..])
      case None => None
      case Some((depth, u)) => ParseEpoch(u, b, shape, depth)
  }

  /** Reads a measurement name back. */
  function ParseMeasurementName(s: string): Option<Combination> {
    var candidates := [ParseAs(s, PostgresBackend, ReadHeavy), ParseAs(s, PostgresBackend, WriteHeavy),
                       ParseAs(s, MongoBackend, ReadHeavy), ParseAs(s, MongoBackend, WriteHeavy)];
    if candidates[0].Some? then candidates[0]
    else if candidates[1].Some? then candidates[1]
    else if candidates[2].Some? then candidates[2]
    else candidates[3]
  }

  /** A numeral followed by a non-digit is read back with what follows. */
  lemma ParseU8Show(v: u8, rest: string)
    requires rest == [] || !IsDigit(rest[0])
    ensures ParseU8(Show(v as nat) + rest) == Some((v, rest))
  {
    var d := Show(v as nat);
    DigitRunOfNumeral(d, rest);
    ParseShow(v as nat);
    assert (d + rest)[..|d|] == d;
    assert (d + rest)[|d|..] == rest;
  }

  /** The prefixes of two different backend/shape pairs disagree at a
      position both of them have. */
  lemma PrefixesDiffer(b: Backend, shape: Shape, b': Backend, shape': Shape)
    requires (b, shape) != (b', shape')
    ensures exists k :: 0 <= k < |Prefix(b, shape)| && k < |Prefix(b', shape')| && Prefix(b, shape)[k] != Prefix(b', shape')[k]
  {
    var p, p' := Prefix(b, shape), Prefix(b', shape');
    if b != b' {
      assert p[0] != p'[0];
    } else {
      var k := |Name(b)| + 1;
      assert p[k] == Kind(shape)[0] && p'[k] == Kind(shape')[0];
    }
  }

  /** A measurement name is read back by the parser of its own backend and
      shape. */
  lemma ParseAsOwnName(b: Backend, shape: Shape, depth: u8, epoch: u8, useIndex: bool)
    ensures ParseAs(MeasurementName(b, shape, depth, epoch, useIndex), b, shape)
      == Some(Combination(b, shape, depth, epoch, useIndex))
  {
    var r := (if useIndex then "_with_index" else "") + ".csv";
    var u := "_epoch_" + (Show(epoch as nat) + r);
    NameParts(b, shape, depth, epoch, useIndex);
    ParseEpochName(b, shape, depth, epoch, useIndex);
    ParseAsPrefix(b, shape, depth, u);
  }

  /** A measurement name, grouped from the right. */
  lemma NameParts(b: Backend, shape: Shape, depth: u8, epoch: u8, useIndex: bool)
    ensures var r := (if useIndex then "_with_index" else "") + ".csv";
      MeasurementName(b, shape, depth, epoch, useIndex)
      == Prefix(b, shape) + (Show(depth as nat) + ("_epoch_" + (Show(epoch as nat) + r)))
  {
  }

  /** The parser strips the prefix and the depth's digits. */
  lemma ParseAsPrefix(b: Backend, shape: Shape, depth: u8, u: string)
    requires u == [] || !IsDigit(u[0])
    ensures ParseAs(Prefix(b, shape) + (Show(depth as nat) + u), b, shape) == ParseEpoch(u, b, shape, depth)
  {
    var p := Prefix(b, shape);
    var s := p + (Show(depth as nat) + u);
    assert s[..|p|] == p && s[|p|..] == Show(depth as nat) + u;
    ParseU8Show(depth, u);
  }

  /** The part after the depth is read back as the epoch and the index flag. */
  lemma ParseEpochName(b: Backend, shape: Shape, depth: u8, epoch: u8, useIndex: bool)
    ensures var r := (if useIndex then "_with_index" else "") + ".csv";
      ParseEpoch("_epoch_" + (Show(epoch as nat) + r), b, shape, depth)
      == Some(Combination(b, shape, depth, epoch, useIndex))
  {
    var r := (if useIndex then "_with_index" else "") + ".csv";
    var u := "_epoch_" + (Show(epoch as nat) + r);
    assert u[..7] == "_epoch_" && u[7..] == Show(epoch as nat) + r;
    ParseU8Show(epoch, r);
  }

  /** A measurement name is refused by the parsers of the other three
      backend/shape pairs. */
  lemma ParseAsOtherName(b: Backend, shape: Shape, depth: u8, epoch: u8, useIndex: bool, b': Backend, shape': Shape)
    requires (b, shape) != (b', shape')
    ensures ParseAs(MeasurementName(b, shape, depth, epoch, useIndex), b', shape') == None
  {
    var p, p' := Prefix(b, shape), Prefix(b', shape');
    var s := MeasurementName(b, shape, depth, epoch, useIndex);
    assert s[..|p|] == p;
    PrefixesDiffer(b, shape, b', shape');
    var k :| 0 <= k < |p| && k < |p'| && p[k] != p'[k];
    if |s| >= |p'| {
      assert s[..|p'|][k] == s[k] == p[k];
    }
  }

  /** Every measurement name reads back as the combination it names. */
  lemma ParseMeasurementNameRoundTrip(b: Backend, shape: Shape, depth: u8, epoch: u8, useIndex: bool)
    ensures ParseMeasurementName(MeasurementName(b, shape, depth, epoch, useIndex))
      == Some(Combination(b, shape, depth, epoch, useIndex))
  {
    ParseAsOwnName(b, shape, depth, epoch, useIndex);
    forall b', shape' | (b, shape) != (b', shape')
      ensures ParseAs(MeasurementName(b, shape, depth, epoch, useIndex), b', shape') == None
    {
      ParseAsOtherName(b, shape, depth, epoch, useIndex, b', shape');
    }
  }

  /** Different combinations write different CSV files. */
  lemma MeasurementNameInjective(c: Combination, c': Combination)
    requires MeasurementName(c.backend, c.shape, c.depth, c.epoch, c.useIndex)
          == MeasurementName(c'.backend, c'.shape, c'.depth, c'.epoch, c'.useIndex)
    ensures c == c'
  {
    ParseMeasurementNameRoundTrip(c.backend, c.shape, c.depth, c.epoch, c.useIndex);
    ParseMeasurementNameRoundTrip(c'.backend, c'.shape, c'.depth, c'.epoch, c'.useIndex);
  }

  /** The text before the epoch in the idle baseline's name. */
  const IdlePrefix: string := "Control Test C1 epoch "

  /** The name of the idle baseline's CSV file, which starts with the
      control-test prefix. */
  function IdleName(epoch: u8): (r: string)
    ensures |r| > |IdlePrefix| + 4 && r[..|IdlePrefix|] == IdlePrefix && r[|r| - 4..] == ".csv"
  {
    IdlePrefix + Show(epoch as nat) + ".csv"
  }

  /** Reads the idle baseline's name back. */
  function ParseIdleName(s: string): Option<u8> {
    if |s| < |IdlePrefix| || s[..|IdlePrefix|] != IdlePrefix then None
    else
      match ParseU8(s[|IdlePrefix|..])
      case Some((epoch, rest)) => if rest == ".csv" then Some(epoch) else None
      case None => None
  }

  /** Each epoch's idle baseline has its own file, and none of them is the
      file of a workload measurement. */
  lemma IdleNameRoundTrip(epoch: u8)
    ensures ParseIdleName(IdleName(epoch)) == Some(epoch)
    ensures forall b, shape, depth, e, useIndex :: IdleName(epoch) != MeasurementName(b, shape, depth, e, useIndex)
  {
    var s := IdleName(epoch);
    var d := Show(epoch as nat);
    assert s == IdlePrefix + (d + ".csv");
    assert s[..|IdlePrefix|] == IdlePrefix && s[|IdlePrefix|..] == d + ".csv";
    ParseU8Show(epoch, ".csv");
    forall b, shape, depth, e, useIndex ensures s != MeasurementName(b, shape, depth, e, useIndex) {
      assert MeasurementName(b, shape, depth, e, useIndex)[0] == Name(b)[0];
    }
  }

  /** The events of the index creation that asks for it, per backend. */
  function IndexEvents(b: Backend, depth: u8, useIndex: bool): seq<Event>
    requires depth >= 1
  {
    if !useIndex then []
    else if b == PostgresBackend then [Issued(Execute(CreateGinIndex))]
    else [Issued(CreateIndex(MongoDB.IndexKeys(depth)))]
  }

  /** The read and the write a backend prepares. */
  function Prepare(b: Backend, depth: u8, numDocs: nat, sample: (nat, nat) -> string): Option<Statements> {
    match b
    case PostgresBackend => Postgres.Prepare(depth, sample)
    case MongoBackend => MongoDB.Prepare(depth, numDocs, sample)
  }

  /** `db.run_queries(...)` on the chosen backend. */
  function Queries(b: Backend, connected: bool, depth: u8, numReads: nat, numWrites: nat, useIndex: bool,
                   numDocs: nat, name: string, sample: (nat, nat) -> string, start: nat, fails: nat -> bool): Run
  {
    match b
    case PostgresBackend =>
      Postgres.Queries(connected, numReads, numWrites, useIndex, name, Prepare(b, depth, numDocs, sample), start, fails)
    case MongoBackend =>
      MongoDB.Queries(connected, depth, numReads, numWrites, useIndex, name, Prepare(b, depth, numDocs, sample), start, fails)
  }

  /** What run_read_heavy and run_write_heavy return: the run, and the
      elapsed time only when the run returned `Ok`. */
  datatype Timed = Timed(run: Run, duration: Option<nat>)

  /** run_read_heavy (`shape == ReadHeavy`) and run_write_heavy: the fixed
      operation counts, the measurement name, and `?` on the run. */
  function Benchmark(b: Backend, shape: Shape, connected: bool, depth: u8, useIndex: bool, numDocs: nat, epoch: u8,
                     sample: (nat, nat) -> string, start: nat, fails: nat -> bool, elapsed: nat): (r: Timed)
    ensures r.duration.Some? <==> r.run.outcome == Ok
    ensures r.duration.Some? ==> r.duration == Some(elapsed)
    ensures !connected ==> r.run.events == []
    ensures !connected && !(b == MongoBackend && useIndex && depth == 0) ==> r.duration == Some(elapsed)
  {
    var run := Queries(b, connected, depth, NumReads(shape), NumWrites(shape), useIndex, numDocs,
                       MeasurementName(b, shape, depth, epoch, useIndex), sample, start, fails);
    Timed(run, if run.outcome == Ok then Some(elapsed) else None)
  }

  /** With the fixed counts, read-heavy runs take the read-heavy branch and
      write-heavy runs the write-heavy one, both with a ratio of 5 and no
      remainder: the schedule holds exactly the requested numbers of reads
      and writes, 1200 calls in all. */
  lemma FixedCounts(shape: Shape, st: Statements)
    requires st.read != st.write
    ensures (NumReads(shape) > NumWrites(shape)) <==> shape == ReadHeavy
    ensures shape == ReadHeavy ==> NumReads(shape) / NumWrites(shape) == 5
    ensures shape == WriteHeavy ==> NumWrites(shape) / NumReads(shape) == 5
    ensures var s := Schedule(NumReads(shape), NumWrites(shape), st);
      && Count(s, st.read) == NumReads(shape) && Count(s, st.write) == NumWrites(shape) && |s| == 1200
  {
    var s := Schedule(NumReads(shape), NumWrites(shape), st);
    ScheduleCounts(NumReads(shape), NumWrites(shape), st);
    if shape == ReadHeavy {
      InterleaveLength(200, 5, st.read, st.write);
    } else {
      InterleaveLength(200, 5, st.write, st.read);
    }
  }

  /** A benchmark that returns a duration ran with a client, at a depth of at
      least 1, and issued inside its own window the whole schedule of its
      shape: exactly the fixed numbers of reads and writes. Without a
      duration the run did not return `Ok`. */
  lemma BenchmarkOk(b: Backend, shape: Shape, depth: u8, useIndex: bool, numDocs: nat, epoch: u8,
                    sample: (nat, nat) -> string, start: nat, fails: nat -> bool, elapsed: nat)
    requires IsAlphanumericSampler(sample)
    ensures var t := Benchmark(b, shape, true, depth, useIndex, numDocs, epoch, sample, start, fails, elapsed);
      t.duration.Some? <==> t.run.outcome == Ok
    ensures var t := Benchmark(b, shape, true, depth, useIndex, numDocs, epoch, sample, start, fails, elapsed);
      t.duration.Some? ==>
        && depth >= 1 && t.duration == Some(elapsed)
        && var st := Prepare(b, depth, numDocs, sample).value;
           var s := Schedule(NumReads(shape), NumWrites(shape), st);
           && t.run.events == IndexEvents(b, depth, useIndex)
                + [WindowOpened(MeasurementName(b, shape, depth, epoch, useIndex))] + Calls(s) + [WindowClosed]
           && Count(s, st.read) == NumReads(shape) && Count(s, st.write) == NumWrites(shape)
  {
    var name := MeasurementName(b, shape, depth, epoch, useIndex);
    var t := Benchmark(b, shape, true, depth, useIndex, numDocs, epoch, sample, start, fails, elapsed);
    if t.run.outcome == Ok {
      var prepared := Prepare(b, depth, numDocs, sample);
      match b
      case PostgresBackend =>
        Postgres.QueriesOk(true, NumReads(shape), NumWrites(shape), useIndex, name, prepared, start, fails);
        assert depth >= 1;
        Postgres.PreparedOnce(depth, sample);
        FixedCounts(shape, prepared.value);
      case MongoBackend =>
        MongoDB.QueriesOk(true, depth, NumReads(shape), NumWrites(shape), useIndex, name, prepared, start, fails);
        assert depth >= 1;
        MongoDB.PreparedOnce(depth, numDocs, sample);
        FixedCounts(shape, prepared.value);
    }
  }

  /** `db.run_queries(...)` on the testbed, proved against Queries. */
  method RunQueries(tb: Testbed, b: Backend, connected: bool, depth: u8, numReads: nat, numWrites: nat,
                    useIndex: bool, numDocs: nat, name: string, sample: (nat, nat) -> string)
    returns (outcome: Outcome)
    requires IsAlphanumericSampler(sample)
    modifies tb
    ensures var r := Queries(b, connected, depth, numReads, numWrites, useIndex, numDocs, name, sample,
                             old(tb.calls), tb.fails);
      && outcome == r.outcome && tb.trace == old(tb.trace) + r.events
      && tb.calls == old(tb.calls) + CallCount(r.events)
      && tb.monitorOn == Monitor(old(tb.monitorOn), r.events)
  {
    match b
    case PostgresBackend =>
      outcome := Postgres.RunQueries(tb, connected, depth, numReads, numWrites, useIndex, name, sample);
    case MongoBackend =>
      outcome := MongoDB.RunQueries(tb, connected, depth, numReads, numWrites, useIndex, numDocs, name, sample);
  }

  /** run_read_heavy, proved against Benchmark. */
  method RunReadHeavy(tb: Testbed, b: Backend, connected: bool, depth: u8, useIndex: bool, numDocs: nat,
                      epoch: u8, sample: (nat, nat) -> string, elapsed: nat)
    returns (outcome: Outcome, duration: Option<nat>)
    requires IsAlphanumericSampler(sample)
    modifies tb
    ensures var t := Benchmark(b, ReadHeavy, connected, depth, useIndex, numDocs, epoch, sample,
                               old(tb.calls), tb.fails, elapsed);
      && outcome == t.run.outcome && duration == t.duration
      && tb.trace == old(tb.trace) + t.run.events
      && tb.calls == old(tb.calls) + CallCount(t.run.events)
      && tb.monitorOn == Monitor(old(tb.monitorOn), t.run.events)
  {
    var name := MeasurementName(b, ReadHeavy, depth, epoch, useIndex);
    outcome := RunQueries(tb, b, connected, depth, ReadHeavyReads, ReadHeavyWrites, useIndex, numDocs, name, sample);
    duration := if outcome == Ok then Some(elapsed) else None;
  }

  /** run_write_heavy, proved against Benchmark. */
  method RunWriteHeavy(tb: Testbed, b: Backend, connected: bool, depth: u8, useIndex: bool, numDocs: nat,
                       epoch: u8, sample: (nat, nat) -> string, elapsed: nat)
    returns (outcome: Outcome, duration: Option<nat>)
    requires IsAlphanumericSampler(sample)
    modifies tb
    ensures var t := Benchmark(b, WriteHeavy, connected, depth, useIndex, numDocs, epoch, sample,
                               old(tb.calls), tb.fails, elapsed);
      && outcome == t.run.outcome && duration == t.duration
      && tb.trace == old(tb.trace) + t.run.events
      && tb.calls == old(tb.calls) + CallCount(t.run.events)
      && tb.monitorOn == Monitor(old(tb.monitorOn), t.run.events)
  {
    var name := MeasurementName(b, WriteHeavy, depth, epoch, useIndex);
    outcome := RunQueries(tb, b, connected, depth, WriteHeavyReads, WriteHeavyWrites, useIndex, numDocs, name, sample);
    duration := if outcome == Ok then Some(elapsed) else None;
  }

  /** measure_idle_energy_consumption: the window of the epoch's idle
      baseline opens and, with no call in between, closes again. */
  method MeasureIdleEnergyConsumption(tb: Testbed, epoch: u8, elapsed: nat) returns (duration: nat)
    modifies tb
    ensures tb.trace == old(tb.trace) + [WindowOpened(IdleName(epoch)), WindowClosed]
    ensures tb.calls == old(tb.calls) && !tb.monitorOn && duration == elapsed
  {
    var name := IdleName(epoch);
    tb.StartPowerMonitoring(name);
    tb.StopPowerMonitoring();
    duration := elapsed;
  }
}
