/** The MongoDB backend's workload: dotted paths, the read filter, the `$set`
    update, the two-stage read pipeline, the ratio loops, and the index and
    measurement window of `run_queries`. */
module MongoDB {
  import opened Wrappers
  import opened Text
  import opened Json
  import opened DataGenerator
  import opened Workload

  /** Length of the value every update stores. */
  const UpdateValueSize: nat := 16

  /** The value the update filter compares the read path with: spelled with
      a hyphen, unlike the sentinel the generator writes. */
  const FilterValue: string := "read-target"

  /** create_read_path: `children.` once per level above the leaf, with no
      array index, then `read_target`. */
  function ReadPath(depth: u8): (r: string)
    requires depth >= 1
    ensures |r| == 9 * (depth as nat - 1) + 11 && r[|r| - 11..] == "read_target"
  {
    Repeat("children.", depth as nat - 1) + "read_target"
  }

  /** create_write_path: `children.0.` once per level above the leaf, then
      `write_target`. */
  function WritePath(depth: u8): (r: string)
    requires depth >= 1
    ensures |r| == 11 * (depth as nat - 1) + 12 && r[|r| - 12..] == "write_target"
    ensures depth > 1 ==> |r| > |ReadPath(depth)|
  {
    Repeat("children.0.", depth as nat - 1) + "write_target"
  }

  /** `n` segments `children`. */
  function Descend(n: nat): seq<string> {
    if n == 0 then [] else ["children"] + Descend(n - 1)
  }

  /** `n` textual levels of the read path followed by `last` join `n`
      segments `children` and `last` with dots. */
  lemma {:induction false} DescendJoin(n: nat, last: string)
    ensures Repeat("children.", n) + last == JoinWith(Descend(n) + [last], '.')
  {
    if n > 0 {
      var parts := Descend(n) + [last];
      DescendJoin(n - 1, last);
      assert parts[0] == "children" && parts[1..] == Descend(n - 1) + [last];
      assert Repeat("children.", n) + last == "children" + ['.'] + (Repeat("children.", n - 1) + last);
    }
  }

  /** The segments of `n` levels of `children` are all `children`. */
  lemma {:induction false} DescendWords(n: nat)
    ensures |Descend(n)| == n
    ensures forall i :: 0 <= i < n ==> Descend(n)[i] == "children"
  {
    if n > 0 {
      DescendWords(n - 1);
    }
  }

  /** Splitting `n` textual levels of the read path followed by `last` at
      the dots gives back `n` segments `children` and `last`. */
  lemma DescendSplit(n: nat, last: string)
    requires '.' !in last && last != "0"
    ensures Split(Repeat("children.", n) + last, '.') == Descend(n) + [last]
    ensures "0" !in Descend(n) + [last]
  {
    DescendJoin(n, last);
    DescendSeparated(n, last);
    SplitJoin(Descend(n) + [last], '.');
  }

  /** No segment of the read path holds a dot, and none is `0`. */
  lemma DescendSeparated(n: nat, last: string)
    requires '.' !in last && last != "0"
    ensures forall i :: 0 <= i < |Descend(n) + [last]| ==> '.' !in (Descend(n) + [last])[i]
    ensures "0" !in Descend(n) + [last]
  {
    var parts := Descend(n) + [last];
    DescendWords(n);
    assert '.' !in "children" && "children" != "0";
    assert forall i :: 0 <= i < |parts| ==> parts[i] == "children" || parts[i] == last;
  }

  /** Split at the dots, the read path is `depth - 1` segments `children`
      and `read_target`, with no array index among them; the write path
      takes the generator's chain, `children` and `0` by turns, to
      `write_target`, so it has `depth - 1` more segments than the read
      path. */
  lemma PathSegments(depth: u8)
    requires depth >= 1
    ensures Split(ReadPath(depth), '.') == Descend(depth as nat - 1) + ["read_target"]
    ensures Split(WritePath(depth), '.') == ChainSteps(depth as nat - 1) + ["write_target"]
    ensures "0" !in Split(ReadPath(depth), '.')
    ensures |Split(ReadPath(depth), '.')| == depth as nat
    ensures |Split(WritePath(depth), '.')| == 2 * depth as nat - 1
  {
    var n := depth as nat - 1;
    DescendSplit(n, "read_target");
    DescendWords(n);
    assert "children.0." == "children" + ['.'] + "0" + ['.'];
    StepsSplit('.', n, "write_target");
  }

  /** The dotted paths against the generated documents: the write path,
      followed member by member and index by index, leads to the leaf's
      16-character write target. The read path does only for depth 1; deeper,
      it names a member of the `children` array, which has none, so it relies
      on MongoDB's implicit traversal of array elements. */
  lemma PathsAgainstDocuments(depth: u8, count: nat, i: nat, word: (nat, nat) -> string,
                              sample: (nat, nat, nat) -> string)
    requires depth >= 1 && i < count
    requires IsAlphanumericSampler3(sample)
    ensures var doc := GenerateNestedData(depth, count, word, sample).items[i];
      && Navigate(doc, Split(WritePath(depth), '.')).Some?
      && Navigate(doc, Split(WritePath(depth), '.')).value.Str?
      && |Navigate(doc, Split(WritePath(depth), '.')).value.s| == WriteTargetByteSize
      && (depth == 1 ==> Navigate(doc, Split(ReadPath(depth), '.'))
                         == Some(Str(if i % 2 == 0 then Sentinel else word(i, 1))))
      && (depth > 1 ==> Navigate(doc, Split(ReadPath(depth), '.')) == None)
  {
    var doc := GenerateNestedData(depth, count, word, sample).items[i];
    PathSegments(depth);
    DocumentShape(depth, count, i, word, sample);
    if depth > 1 {
      var path := Descend(depth as nat - 1) + ["read_target"];
      DescendWords(depth as nat - 1);
      var second := path[1..][0];
      assert path[0] == "children" && (second == "children" || second == "read_target");
      assert !IsDigit(second[0]);
      assert Parse(second) == None;
    }
  }

  /** create_read_filter: the read path against the hyphenated value. */
  function ReadFilter(depth: u8): Value
    requires depth >= 1
  {
    Obj([Member(ReadPath(depth), Str(FilterValue))])
  }

  /** create_update: `$set` of the write path to the string `value`. */
  function Update(depth: u8, value: string): Value
    requires depth >= 1
  {
    Obj([Member("$set", Obj([Member(WritePath(depth), Str(value))]))])
  }

  /** create_read_pipeline: a `$match` of the read path against the
      sentinel, then a `$project` of that path alone into `value`. */
  function ReadPipeline(depth: u8): seq<Value>
    requires depth >= 1
  {
    [Obj([Member("$match", Obj([Member(ReadPath(depth), Str(Sentinel))]))]),
     Obj([Member("$project", Obj([Member("_id", Num(0)), Member("value", Str("$" + ReadPath(depth)))]))])]
  }

  /** The pipeline has two stages: a `$match` of one path against the
      sentinel, then a `$project` that drops `_id` and keeps one field,
      `value`, taken from that same path and nothing else, so a read
      returns the matched leaf value and never a whole document. The index
      is built on that path too. */
  lemma PipelineProjectsMatchedPath(depth: u8)
    requires depth >= 1
    ensures var p := ReadPipeline(depth);
      && |p| == 2
      && p[0].Obj? && |p[0].members| == 1 && p[0].members[0].key == "$match"
      && p[1].Obj? && |p[1].members| == 1 && p[1].members[0].key == "$project"
      && var matched := p[0].members[0].value;
         var projected := p[1].members[0].value;
         && matched.Obj? && |matched.members| == 1 && matched.members[0].value == Str(Sentinel)
         && projected.Obj? && Get(projected.members, "_id") == Some(Num(0))
         && |projected.members| == 2 && projected.members[1].key == "value"
         && projected.members[1].value == Str("$" + matched.members[0].key)
         && IndexKeys(depth).members[0].key == matched.members[0].key
  {
  }

  /** The update sets one field, through `$set`, to `value`; that field,
      split at the dots and followed member by member and index by index,
      leads in every generated document of the same depth to its
      16-character write target. */
  lemma UpdateSetsWriteTarget(depth: u8, value: string, count: nat, i: nat, word: (nat, nat) -> string,
                              sample: (nat, nat, nat) -> string)
    requires depth >= 1 && i < count
    requires IsAlphanumericSampler3(sample)
    ensures var u := Update(depth, value);
      && u.Obj? && |u.members| == 1 && u.members[0].key == "$set"
      && var fields := u.members[0].value;
         && fields.Obj? && |fields.members| == 1 && fields.members[0].value == Str(value)
         && var target := Navigate(GenerateNestedData(depth, count, word, sample).items[i], Split(fields.members[0].key, '.'));
            target.Some? && target.value.Str? && |target.value.s| == WriteTargetByteSize
  {
    PathsAgainstDocuments(depth, count, i, word, sample);
  }

  /** The keys `create_index` indexes: the read path, ascending. */
  function IndexKeys(depth: u8): Value
    requires depth >= 1
  {
    Obj([Member(ReadPath(depth), Num(1))])
  }

  /** create_read_options: `num_doc as u32` keeps the low 32 bits. */
  function BatchSize(numDocs: nat): (b: nat)
    ensures b < 0x1_0000_0000
    ensures numDocs < 0x1_0000_0000 ==> b == numDocs
  {
    numDocs % 0x1_0000_0000
  }

  /** The pipeline's `$match` and the update filter test the same path, and
      the generator's targetable documents hold there exactly the value the
      match asks for, which is not the value the filter asks for. */
  lemma MatchAndFilter(depth: u8, count: nat, i: nat, word: (nat, nat) -> string,
                       sample: (nat, nat, nat) -> string)
    requires depth >= 1 && i < count && i % 2 == 0
    requires IsAlphanumericSampler3(sample)
    ensures var leaf := LeafField(GenerateNestedData(depth, count, word, sample).items[i], depth as nat, "read_target");
      && leaf.Some?
      && ReadPipeline(depth)[0] == Obj([Member("$match", Obj([Member(ReadPath(depth), leaf.value)]))])
      && ReadFilter(depth).members[0].key == ReadPath(depth)
      && ReadFilter(depth) != Obj([Member(ReadPath(depth), leaf.value)])
  {
    DocumentShape(depth, count, i, word, sample);
    assert FilterValue[4] != Sentinel[4];
  }

  /** The update value a run draws. */
  function UpdateValue(sample: (nat, nat) -> string): string {
    FixedSizeWord(UpdateValueSize, sample)
  }

  /** What a run prepares before its loops: the pipeline with its batch
      size, and the update with its filter; nothing when `depth - 1`
      overflows in create_read_path. */
  function Prepare(depth: u8, numDocs: nat, sample: (nat, nat) -> string): Option<Statements> {
    if depth == 0 then None
    else Some(Statements(Aggregate(ReadPipeline(depth), BatchSize(numDocs)),
                         UpdateMany(ReadFilter(depth), Update(depth, UpdateValue(sample)))))
  }

  /** Every update of a run stores the same 16-character alphanumeric value
      at the write path, and the read differs from the update. */
  lemma PreparedOnce(depth: u8, numDocs: nat, sample: (nat, nat) -> string)
    requires depth >= 1 && IsAlphanumericSampler(sample)
    ensures var st := Prepare(depth, numDocs, sample).value;
      && st.read != st.write
      && st.write == UpdateMany(ReadFilter(depth), Update(depth, UpdateValue(sample)))
      && |UpdateValue(sample)| == UpdateValueSize && AllAlphanumeric(UpdateValue(sample))
      && |st.read.pipeline| == 2
  {
  }

  /** run_read_heavy: the statements come first, so depth 0 panics; the
      ratio is computed inside the outer loop, so no writes means no
      iteration, no division and no call. */
  function ReadHeavy(numReads: nat, numWrites: nat, prepared: Option<Statements>,
                     start: nat, fails: nat -> bool): (r: Run)
    ensures r.outcome.Panic? <==> prepared.None?
    ensures r.outcome.Panic? || numWrites == 0 ==> r.events == []
    ensures r.outcome == Err ==> prepared.Some? && numWrites > 0 && r.events != []
    ensures r.outcome == Ok ==>
      prepared.Some? && r.events == (if numWrites == 0 then [] else Calls(ReadHeavyCalls(numReads, numWrites, prepared.value)))
  {
    if prepared.None? then Run(Panic(SubtractOverflow), [])
    else if numWrites == 0 then Run(Ok, [])
    else
      IssueSpec(ReadHeavyCalls(numReads, numWrites, prepared.value), start, fails);
      Ran(Issue(ReadHeavyCalls(numReads, numWrites, prepared.value), start, fails))
  }

  /** run_write_heavy, with the roles of reads and writes exchanged. */
  function WriteHeavy(numReads: nat, numWrites: nat, prepared: Option<Statements>,
                      start: nat, fails: nat -> bool): (r: Run)
    ensures r.outcome.Panic? <==> prepared.None?
    ensures r.outcome.Panic? || numReads == 0 ==> r.events == []
    ensures r.outcome == Err ==> prepared.Some? && numReads > 0 && r.events != []
    ensures r.outcome == Ok ==>
      prepared.Some? && r.events == (if numReads == 0 then [] else Calls(WriteHeavyCalls(numReads, numWrites, prepared.value)))
  {
    if prepared.None? then Run(Panic(SubtractOverflow), [])
    else if numReads == 0 then Run(Ok, [])
    else
      IssueSpec(WriteHeavyCalls(numReads, numWrites, prepared.value), start, fails);
      Ran(Issue(WriteHeavyCalls(numReads, numWrites, prepared.value), start, fails))
  }

  /** The branch `num_reads > num_writes` chooses. */
  function Branch(numReads: nat, numWrites: nat, prepared: Option<Statements>,
                  start: nat, fails: nat -> bool): Run
  {
    if numReads > numWrites then ReadHeavy(numReads, numWrites, prepared, start, fails)
    else WriteHeavy(numReads, numWrites, prepared, start, fails)
  }

  /** create_index: the read path is built first, so depth 0 panics even
      without a client; without one nothing is sent; otherwise the index
      on the read path is created, and the run fails exactly when that one
      call does. */
  function IndexRun(connected: bool, depth: u8, start: nat, fails: nat -> bool): (r: Run)
    ensures r.outcome.Panic? <==> depth == 0
    ensures r.events != [] <==> connected && depth >= 1
    ensures r.events != [] ==> r.events == [Issued(CreateIndex(IndexKeys(depth)))]
    ensures r.outcome == Err <==> connected && depth >= 1 && fails(start)
  {
    if depth == 0 then Run(Panic(SubtractOverflow), [])
    else if !connected then Run(Ok, [])
    else Run(if fails(start) then Err else Ok, [Issued(CreateIndex(IndexKeys(depth)))])
  }

  /** run_queries: the index first, whether or not there is a client;
      nothing more without a client; otherwise the branch inside the
      window. */
  function Queries(connected: bool, depth: u8, numReads: nat, numWrites: nat, useIndex: bool,
                   name: string, prepared: Option<Statements>, start: nat, fails: nat -> bool): Run
  {
    var index := if useIndex then IndexRun(connected, depth, start, fails) else Run(Ok, []);
    if index.outcome != Ok then index
    else if !connected then Run(Ok, [])
    else
      var w := Windowed(name, Branch(numReads, numWrites, prepared, start + |index.events|, fails));
      Run(w.outcome, index.events + w.events)
  }

  /** The three ways run_queries can go, one per stage it stops at. */
  lemma QueriesStages(connected: bool, depth: u8, numReads: nat, numWrites: nat, useIndex: bool,
                      name: string, prepared: Option<Statements>, start: nat, fails: nat -> bool)
    ensures var index := if useIndex then IndexRun(connected, depth, start, fails) else Run(Ok, []);
      var r := Queries(connected, depth, numReads, numWrites, useIndex, name, prepared, start, fails);
      var b := Branch(numReads, numWrites, prepared, start + |index.events|, fails);
      && OnlyCalls(index.events)
      && (index.outcome != Ok ==> r == index)
      && (index.outcome == Ok && !connected ==> r == Run(Ok, []))
      && (index.outcome == Ok && connected ==> r == Run(b.outcome, index.events + Windowed(name, b).events))
  {
  }

  /** A branch only issues calls. It panics, before issuing any, exactly when
      the statements could not be built; with a zero divisor it returns `Ok`
      having issued nothing; otherwise it issues its schedule as Issue does. */
  lemma BranchSpec(numReads: nat, numWrites: nat, prepared: Option<Statements>, start: nat, fails: nat -> bool)
    ensures var b := Branch(numReads, numWrites, prepared, start, fails);
      var divisor := if numReads > numWrites then numWrites else numReads;
      && OnlyCalls(b.events)
      && (b.outcome.Panic? <==> prepared.None?)
      && (b.outcome.Panic? ==> b == Run(Panic(SubtractOverflow), []))
      && (prepared.Some? && divisor == 0 ==> b == Run(Ok, []))
      && (prepared.Some? && divisor > 0 ==> b == Ran(Issue(Schedule(numReads, numWrites, prepared.value), start, fails)))
  {
  }

  /** A branch issues client calls and nothing else. */
  lemma BranchOnlyCalls(numReads: nat, numWrites: nat, prepared: Option<Statements>, start: nat, fails: nat -> bool)
    ensures OnlyCalls(Branch(numReads, numWrites, prepared, start, fails).events)
  {
    BranchSpec(numReads, numWrites, prepared, start, fails);
  }

  /** How a run goes. Asking for the index at depth 0 panics before anything
      else, with or without a client. Otherwise nothing happens without a
      client; a failing index creation returns before the window opens; and
      else the window opens right after the index, and the monitor is still
      running after the run exactly when the branch did not return `Ok`. */
  lemma QueriesWindow(connected: bool, depth: u8, numReads: nat, numWrites: nat, useIndex: bool,
                      name: string, prepared: Option<Statements>, start: nat, fails: nat -> bool, on: bool)
    ensures var r := Queries(connected, depth, numReads, numWrites, useIndex, name, prepared, start, fails);
      && (useIndex && depth == 0 ==> r == Run(Panic(SubtractOverflow), []))
      && (!(useIndex && depth == 0) && !connected ==> r == Run(Ok, []))
      && (connected && useIndex && depth >= 1 ==> r.events[0] == Issued(CreateIndex(IndexKeys(depth))))
      && (connected && useIndex && depth >= 1 && fails(start) ==> r.outcome == Err && Monitor(on, r.events) == on)
      && (connected && !(useIndex && (depth == 0 || fails(start))) ==>
            var k := if useIndex then 1 else 0;
            && r.events[k] == WindowOpened(name)
            && (Monitor(on, r.events) <==> r.outcome != Ok)
            && (r.outcome == Ok <==> r.events[|r.events| - 1] == WindowClosed))
  {
    var index := if useIndex then IndexRun(connected, depth, start, fails) else Run(Ok, []);
    QueriesStages(connected, depth, numReads, numWrites, useIndex, name, prepared, start, fails);
    OnlyCallsCount(on, index.events);
    if connected && index.outcome == Ok {
      var b := Branch(numReads, numWrites, prepared, start + |index.events|, fails);
      BranchSpec(numReads, numWrites, prepared, start + |index.events|, fails);
      WindowedSpec(on, name, b);
      TraceSplit(on, index.events, Windowed(name, b).events);
    }
  }

  /** A run with a client that returns `Ok` has issued the whole schedule of
      its branch inside the window, after the index; with a zero divisor the
      window holds no call. */
  lemma QueriesOk(connected: bool, depth: u8, numReads: nat, numWrites: nat, useIndex: bool,
                  name: string, prepared: Option<Statements>, start: nat, fails: nat -> bool)
    requires connected
    requires Queries(connected, depth, numReads, numWrites, useIndex, name, prepared, start, fails).outcome == Ok
    ensures prepared.Some? && !(useIndex && depth == 0)
    ensures var divisor := if numReads > numWrites then numWrites else numReads;
      var index := if useIndex then [Issued(CreateIndex(IndexKeys(depth)))] else [];
      Queries(connected, depth, numReads, numWrites, useIndex, name, prepared, start, fails).events
      == index + [WindowOpened(name)]
         + (if divisor == 0 then [] else Calls(Schedule(numReads, numWrites, prepared.value))) + [WindowClosed]
  {
    var index := if useIndex then IndexRun(connected, depth, start, fails) else Run(Ok, []);
    var b := Branch(numReads, numWrites, prepared, start + |index.events|, fails);
    BranchSpec(numReads, numWrites, prepared, start + |index.events|, fails);
    if (if numReads > numWrites then numWrites else numReads) == 0 {
      WindowedOk(index.events, name, b, []);
    } else {
      IssueSpec(Schedule(numReads, numWrites, prepared.value), start + |index.events|, fails);
      WindowedOk(index.events, name, b, Schedule(numReads, numWrites, prepared.value));
    }
  }

  /** create_index, proved against IndexRun. */
  method CreateIndexOn(tb: Testbed, connected: bool, depth: u8) returns (outcome: Outcome)
    modifies tb
    ensures var r := IndexRun(connected, depth, old(tb.calls), tb.fails);
      && outcome == r.outcome && tb.trace == old(tb.trace) + r.events
      && tb.calls == old(tb.calls) + |r.events| && tb.monitorOn == old(tb.monitorOn)
  {
    if depth == 0 {
      return Panic(SubtractOverflow);
    }
    var keys := IndexKeys(depth);
    if connected {
      var ok := tb.Send(CreateIndex(keys));
      outcome := if ok then Ok else Err;
    } else {
      outcome := Ok;
    }
  }

  /** A read-heavy run, proved against ReadHeavy. */
  method RunReadHeavy(tb: Testbed, numReads: nat, numWrites: nat, depth: u8, numDocs: nat,
                      sample: (nat, nat) -> string)
    returns (outcome: Outcome)
    requires IsAlphanumericSampler(sample)
    modifies tb
    ensures var r := ReadHeavy(numReads, numWrites, Prepare(depth, numDocs, sample), old(tb.calls), tb.fails);
      && outcome == r.outcome && tb.trace == old(tb.trace) + r.events
      && tb.calls == old(tb.calls) + |r.events| && tb.monitorOn == old(tb.monitorOn)
  {
    if depth == 0 {
      return Panic(SubtractOverflow);
    }
    var pipeline := ReadPipeline(depth);
    var batchSize := BatchSize(numDocs);
    var filter := ReadFilter(depth);
    var value := GenerateFixedSizeWord(UpdateValueSize, sample);
    var update := Update(depth, value);
    if numWrites == 0 {
      return Ok;
    }
    var ok := tb.RunInterleaved(numWrites, numReads / numWrites, Aggregate(pipeline, batchSize),
                                UpdateMany(filter, update));
    outcome := if ok then Ok else Err;
  }

  /** A write-heavy run, proved against WriteHeavy. */
  method RunWriteHeavy(tb: Testbed, numReads: nat, numWrites: nat, depth: u8, numDocs: nat,
                       sample: (nat, nat) -> string)
    returns (outcome: Outcome)
    requires IsAlphanumericSampler(sample)
    modifies tb
    ensures var r := WriteHeavy(numReads, numWrites, Prepare(depth, numDocs, sample), old(tb.calls), tb.fails);
      && outcome == r.outcome && tb.trace == old(tb.trace) + r.events
      && tb.calls == old(tb.calls) + |r.events| && tb.monitorOn == old(tb.monitorOn)
  {
    if depth == 0 {
      return Panic(SubtractOverflow);
    }
    var pipeline := ReadPipeline(depth);
    var filter := ReadFilter(depth);
    var value := GenerateFixedSizeWord(UpdateValueSize, sample);
    var update := Update(depth, value);
    var batchSize := BatchSize(numDocs);
    if numReads == 0 {
      return Ok;
    }
    var ok := tb.RunInterleaved(numReads, numWrites / numReads, UpdateMany(filter, update),
                                Aggregate(pipeline, batchSize));
    outcome := if ok then Ok else Err;
  }

  /** The branch of run_queries that `num_reads > num_writes` chooses,
      proved against Branch. */
  method RunBranch(tb: Testbed, numReads: nat, numWrites: nat, depth: u8, numDocs: nat,
                   sample: (nat, nat) -> string)
    returns (outcome: Outcome)
    requires IsAlphanumericSampler(sample)
    modifies tb
    ensures var r := Branch(numReads, numWrites, Prepare(depth, numDocs, sample), old(tb.calls), tb.fails);
      && outcome == r.outcome && tb.trace == old(tb.trace) + r.events
      && tb.calls == old(tb.calls) + |r.events| && tb.monitorOn == old(tb.monitorOn)
  {
    if numReads > numWrites {
      outcome := RunReadHeavy(tb, numReads, numWrites, depth, numDocs, sample);
    } else {
      outcome := RunWriteHeavy(tb, numReads, numWrites, depth, numDocs, sample);
    }
  }

  /** The measured part of run_queries, proved against Windowed and
      Branch: the window opens, the branch runs, and the window closes only
      when the branch returned `Ok`. */
  method Measure(tb: Testbed, depth: u8, numReads: nat, numWrites: nat, numDocs: nat, name: string,
                 sample: (nat, nat) -> string)
    returns (outcome: Outcome)
    requires IsAlphanumericSampler(sample)
    modifies tb
    ensures var w := Windowed(name, Branch(numReads, numWrites, Prepare(depth, numDocs, sample), old(tb.calls), tb.fails));
      && outcome == w.outcome && tb.trace == old(tb.trace) + w.events
      && tb.calls == old(tb.calls) + CallCount(w.events)
      && tb.monitorOn == Monitor(old(tb.monitorOn), w.events)
  {
    ghost var t0, c0 := tb.trace, tb.calls;
    ghost var b := Branch(numReads, numWrites, Prepare(depth, numDocs, sample), c0, tb.fails);
    BranchOnlyCalls(numReads, numWrites, Prepare(depth, numDocs, sample), c0, tb.fails);
    WindowedSpec(tb.monitorOn, name, b);
    WindowedTrace(t0, [], t0, name, b);
    assert [] + Windowed(name, b).events == Windowed(name, b).events;
    tb.StartPowerMonitoring(name);
    outcome := RunBranch(tb, numReads, numWrites, depth, numDocs, sample);
    assert outcome == b.outcome && tb.trace == t0 + [WindowOpened(name)] + b.events && tb.calls == c0 + |b.events|;
    if outcome != Ok {
      return;
    }
    tb.StopPowerMonitoring();
  }

  /** run_queries, proved against Queries: the testbed records the run's
      events, counts its calls, and runs the monitor as those events say. */
  method RunQueries(tb: Testbed, connected: bool, depth: u8, numReads: nat, numWrites: nat,
                    useIndex: bool, numDocs: nat, name: string, sample: (nat, nat) -> string)
    returns (outcome: Outcome)
    requires IsAlphanumericSampler(sample)
    modifies tb
    ensures var r := Queries(connected, depth, numReads, numWrites, useIndex, name,
                             Prepare(depth, numDocs, sample), old(tb.calls), tb.fails);
      && outcome == r.outcome && tb.trace == old(tb.trace) + r.events
      && tb.calls == old(tb.calls) + CallCount(r.events)
      && tb.monitorOn == Monitor(old(tb.monitorOn), r.events)
  {
    ghost var t0, c0, m0 := tb.trace, tb.calls, tb.monitorOn;
    ghost var prepared := Prepare(depth, numDocs, sample);
    ghost var index := if useIndex then IndexRun(connected, depth, c0, tb.fails) else Run(Ok, []);
    QueriesStages(connected, depth, numReads, numWrites, useIndex, name, prepared, c0, tb.fails);
    if useIndex {
      outcome := CreateIndexOn(tb, connected, depth);
      if outcome != Ok {
        OnlyCallsCount(m0, index.events);
        return;
      }
    } else {
      assert tb.trace == t0 + index.events;
    }
    if !connected {
      OnlyCallsCount(m0, index.events);
      return Ok;
    }
    ghost var b := Branch(numReads, numWrites, prepared, tb.calls, tb.fails);
    outcome := Measure(tb, depth, numReads, numWrites, numDocs, name, sample);
    CallsThen(m0, t0, index.events, Windowed(name, b).events);
  }
}
