/** The PostgreSQL backend's workload: path arrays for `#>` and `jsonb_set`,
    the containment document for `@>`, the SQL text of the read and the
    write, the ratio loops, and the measurement window of `run_queries`. */
module Postgres {
  import opened Wrappers
  import opened Text
  import opened Json
  import opened DataGenerator
  import opened Workload

  /** Length of the value every write stores. */
  const UpdateValueSize: nat := 16

  /** One level down the chain, in path-array syntax. */
  const Step: string := "children,0,"

  /** create_read_path: the path array (without braces) from a document's
      root to its leaf's `read_target`. */
  function ReadPath(depth: u8): (r: string)
    requires depth >= 1
    ensures |r| == 11 * depth as nat && r[|r| - 11..] == "read_target"
  {
    Repeat(Step, depth as nat - 1) + "read_target"
  }

  /** create_write_path: the path array to the leaf's `write_target`. */
  function WritePath(depth: u8): (r: string)
    requires depth >= 1
    ensures |r| == |ReadPath(depth)| + 1 && r[|r| - 12..] == "write_target"
    ensures r[..|r| - 12] == ReadPath(depth)[..|ReadPath(depth)| - 11]
  {
    Repeat(Step, depth as nat - 1) + "write_target"
  }

  /** Both paths are the `depth - 1` chain steps and then the leaf field,
      joined with commas: they differ only in their last segment, which
      PostgreSQL reads back when it parses the `text[]` literal. */
  lemma PathSegments(depth: u8)
    requires depth >= 1
    ensures ReadPath(depth) == JoinWith(ChainSteps(depth as nat - 1) + ["read_target"], ',')
    ensures WritePath(depth) == JoinWith(ChainSteps(depth as nat - 1) + ["write_target"], ',')
    ensures Split(ReadPath(depth), ',') == ChainSteps(depth as nat - 1) + ["read_target"]
    ensures Split(WritePath(depth), ',') == ChainSteps(depth as nat - 1) + ["write_target"]
    ensures |Split(ReadPath(depth), ',')| == |Split(WritePath(depth), ',')| == 2 * depth as nat - 1
  {
    var n := depth as nat - 1;
    assert Step == "children" + [','] + "0" + [','];
    StepsJoin(',', n, "read_target");
    StepsJoin(',', n, "write_target");
    StepsSplit(',', n, "read_target");
    StepsSplit(',', n, "write_target");
  }

  /** In every generated document of the same depth, the read path leads to
      the leaf's read target (the sentinel exactly for the even documents) and
      the write path to its 16-character write target. */
  lemma PathsAddressLeaf(depth: u8, count: nat, i: nat, word: (nat, nat) -> string,
                         sample: (nat, nat, nat) -> string)
    requires depth >= 1 && i < count
    requires IsAlphanumericSampler3(sample)
    ensures var doc := GenerateNestedData(depth, count, word, sample).items[i];
      && Navigate(doc, Split(ReadPath(depth), ','))
         == Some(Str(if i % 2 == 0 then Sentinel else word(i, depth as nat)))
      && Navigate(doc, Split(WritePath(depth), ',')).Some?
      && Navigate(doc, Split(WritePath(depth), ',')).value.Str?
      && |Navigate(doc, Split(WritePath(depth), ',')).value.s| == WriteTargetByteSize
  {
    PathSegments(depth);
    DocumentShape(depth, count, i, word, sample);
  }

  /** `k` levels of one-element `children` arrays around `inner`. */
  function Nest(k: nat, inner: Value): Value {
    if k == 0 then inner else Obj([Member("children", Arr([Nest(k - 1, inner)]))])
  }

  /** What create_containment_json builds: `depth - 1` nested `children`
      arrays around `{"read_target": "read_target"}`, so that following the
      chain steps leads to that object. */
  function Containment(depth: u8): (r: Value)
    requires depth >= 1
    ensures Navigate(r, ChainSteps(depth as nat - 1)) == Some(Obj([Member("read_target", Str(Sentinel))]))
  {
    var inner := Obj([Member("read_target", Str(Sentinel))]);
    NestCursor(depth as nat - 1, inner, "read_target", Str(Sentinel));
    Nest(depth as nat - 1, inner)
  }

  /** The cursor `current` after `k` steps points at the innermost object,
      and assigning through it changes that object only. */
  lemma {:induction false} NestCursor(k: nat, inner: Value, key: string, x: Value)
    requires inner.Obj?
    ensures Navigate(Nest(k, inner), ChainSteps(k)) == Some(inner)
    ensures ObjectAt(Nest(k, inner), ChainSteps(k))
    ensures Assign(Nest(k, inner), ChainSteps(k), key, x) == Nest(k, Obj(Put(inner.members, key, x)))
  {
    if k > 0 {
      NestCursor(k - 1, inner, key, x);
      ParseZero();
      var path := ChainSteps(k);
      var child := Nest(k - 1, inner);
      var child' := Assign(child, ChainSteps(k - 1), key, x);
      assert path[0] == "children" && path[1..][0] == "0" && path[1..][1..] == ChainSteps(k - 1);
      assert Assign(Arr([child]), path[1..], key, x) == Arr([child']);
      assert Put([Member("children", Arr([child]))], "children", Arr([child'])) == [Member("children", Arr([child']))];
    }
  }

  /** Adding a `children` array at the cursor adds one level. */
  lemma {:induction false} NestGrow(k: nat, inner: Value)
    ensures Nest(k, Obj([Member("children", Arr([inner]))])) == Nest(k + 1, inner)
  {
    if k > 0 { NestGrow(k - 1, inner); }
  }

  lemma {:induction false} ChainStepsSnoc(k: nat)
    ensures ChainSteps(k + 1) == ChainSteps(k) + ["children", "0"]
  {
    if k > 0 { ChainStepsSnoc(k - 1); }
  }

  /** create_containment_json: a cursor walks down from the root, adding one
      `children` array per level, and finally sets the leaf's `read_target`. */
  method CreateContainmentJson(depth: u8) returns (value: Value)
    requires depth >= 1
    ensures value == Containment(depth)
  {
    value := Obj([]);
    var cursor: seq<string> := [];
    var i: nat := 0;
    while i < depth as nat - 1
      invariant i <= depth as nat - 1
      invariant value == Nest(i, Obj([])) && cursor == ChainSteps(i)
    {
      NestCursor(i, Obj([]), "children", Arr([Obj([])]));
      value := Assign(value, cursor, "children", Arr([Obj([])]));
      cursor := cursor + ["children", "0"];
      NestGrow(i, Obj([]));
      ChainStepsSnoc(i);
      i := i + 1;
    }
    NestCursor(i, Obj([]), "read_target", Str(Sentinel));
    value := Assign(value, cursor, "read_target", Str(Sentinel));
  }

  /** The containment document has the path shape of a targetable generated
      document: the read path walks its `depth - 1` one-element levels to an
      object holding the sentinel as `read_target` and nothing else. So a
      document of the same shape agrees with it at the leaf exactly when it
      is targetable. */
  lemma ContainmentShape(depth: u8, doc: Value)
    requires depth >= 1
    ensures Navigate(Containment(depth), ChainSteps(depth as nat - 1))
            == Some(Obj([Member("read_target", Str(Sentinel))]))
    ensures Navigate(Containment(depth), Split(ReadPath(depth), ',')) == Some(Str(Sentinel))
    ensures IsTargetable(Containment(depth), depth as nat)
    ensures IsTargetable(doc, depth as nat) <==>
      LeafField(doc, depth as nat, "read_target") == LeafField(Containment(depth), depth as nat, "read_target")
  {
    var inner := Obj([Member("read_target", Str(Sentinel))]);
    NestCursor(depth as nat - 1, inner, "read_target", Str(Sentinel));
    AssignLands(Nest(depth as nat - 1, inner), ChainSteps(depth as nat - 1), "read_target", Str(Sentinel));
    assert Put(inner.members, "read_target", Str(Sentinel)) == inner.members;
    PathSegments(depth);
  }

  /** The row test of both queries: containment of the document `c`. */
  function Containing(c: Value): string {
    " @> '" + Render(c) + "'"
  }

  /** The statement `create_index` executes. */
  const IndexSql: string :=
    "CREATE INDEX " + "IF NOT EXISTS idx_gin_data ON hierarchical_data USING GIN (data jsonb_path_ops)"

  /** The format of `create_read_query`, filled in. */
  function SelectSql(path: string, c: Value): (r: string)
    ensures |r| >= 7 && r[..7] == "SELECT "
  {
    "SELECT " + "data #> '{" + path + "}'::text[] \n            FROM hierarchical_data WHERE data" + Containing(c)
  }

  /** The part of an update before the stored string. */
  function SetHead(path: string): string {
    "UPDATE " + "hierarchical_data SET data = jsonb_set(\n                data,\n                '{"
      + path + "}'::text[],\n                '\""
  }

  /** The part of an update after the stored string. */
  function SetTail(c: Value): string {
    "\"'::jsonb\n            )\n            WHERE data" + Containing(c)
  }

  /** The format of `create_write_query`, filled in. */
  function UpdateSql(path: string, value: string, c: Value): (r: string)
    ensures |r| >= 7 && r[..7] == "UPDATE "
  {
    SetHead(path) + value + SetTail(c)
  }

  /** The SQL text the client sends for a statement, which begins with the
      statement's verb. */
  function SqlText(s: Sql): (r: string)
    ensures s.CreateGinIndex? ==> |r| >= 13 && r[..13] == "CREATE INDEX "
    ensures s.SelectPath? ==> |r| >= 7 && r[..7] == "SELECT "
    ensures s.SetPath? ==> |r| >= 7 && r[..7] == "UPDATE "
  {
    match s
    case CreateGinIndex => IndexSql
    case SelectPath(path, c) => SelectSql(path, c)
    case SetPath(path, value, c) => UpdateSql(path, value, c)
  }

  /** create_read_query: the read path's value in every row that contains
      the containment document. */
  function ReadStatement(depth: u8): Sql
    requires depth >= 1
  {
    SelectPath(ReadPath(depth), Containment(depth))
  }

  /** create_write_query: sets the write path of every row that contains the
      containment document to the string `value`. */
  function WriteStatement(depth: u8, value: string): Sql
    requires depth >= 1
  {
    SetPath(WritePath(depth), value, Containment(depth))
  }

  /** The read's text ends with the containment test, and its path, split
      at the commas, leads in the containment document to the sentinel. */
  lemma ReadStatementMeaning(depth: u8)
    requires depth >= 1
    ensures var r := ReadStatement(depth); var t := SqlText(r); var f := Containing(Containment(depth));
      && |t| >= |f| && t[|t| - |f|..] == f
      && r.SelectPath? && Navigate(Containment(depth), Split(r.path, ',')) == Some(Str(Sentinel))
  {
    SelectFiltersRows(ReadPath(depth), Containment(depth));
    ContainmentShape(depth, Containment(depth));
  }

  /** The update's text ends with the containment test and carries `value`
      right after a prefix fixed by the depth. */
  lemma WriteStatementMeaning(depth: u8, value: string)
    requires depth >= 1
    ensures var r := WriteStatement(depth, value); var t := SqlText(r); var f := Containing(Containment(depth));
      var h := |SetHead(WritePath(depth))|;
      && |t| >= |f| && t[|t| - |f|..] == f
      && h + |value| <= |t| && t[h..h + |value|] == value
  {
    UpdateCarriesValue(WritePath(depth), value, value, Containment(depth));
  }

  /** A select's text ends with its row test. */
  lemma SelectFiltersRows(path: string, c: Value)
    ensures var r := SqlText(SelectPath(path, c)); var f := Containing(c);
      |r| >= |f| && r[|r| - |f|..] == f
  {
    var f := Containing(c);
    var h := "SELECT data #> '{" + path + "}'::text[] \n            FROM hierarchical_data WHERE data";
    assert SqlText(SelectPath(path, c)) == h + f;
    assert (h + f)[|h|..] == f;
  }

  /** An update's text ends with its row test and carries the stored string
      right after a prefix that depends on the path alone, so among strings
      of one length the text determines the string. */
  lemma UpdateCarriesValue(path: string, value: string, other: string, c: Value)
    ensures var w := SqlText(SetPath(path, value, c)); var f := Containing(c);
      |w| >= |f| && w[|w| - |f|..] == f
    ensures var h := |SetHead(path)|;
      SqlText(SetPath(path, value, c))[h..h + |value|] == value
    ensures |value| == |other| ==>
      (SqlText(SetPath(path, value, c)) == SqlText(SetPath(path, other, c)) <==> value == other)
  {
    var f := Containing(c);
    var h := SetHead(path);
    var tail := SetTail(c);
    assert tail[|tail| - |f|..] == f;
    assert SqlText(SetPath(path, value, c)) == h + value + tail;
    assert SqlText(SetPath(path, other, c)) == h + other + tail;
    assert (h + value + tail)[|h|..|h| + |value|] == value;
    assert (h + other + tail)[|h|..|h| + |other|] == other;
    assert (h + value + tail)[|h + value + tail| - |f|..] == f;
  }

  /** The read every run issues. */
  function ReadCall(depth: u8): Call
    requires depth >= 1
  {
    Query(ReadStatement(depth))
  }

  /** The write every run issues, storing `value`. */
  function WriteCall(depth: u8, value: string): Call
    requires depth >= 1
  {
    Execute(WriteStatement(depth, value))
  }

  /** The update value a run draws. */
  function UpdateValue(sample: (nat, nat) -> string): string {
    FixedSizeWord(UpdateValueSize, sample)
  }

  /** What create_read_query and create_write_query give a run: the read
      and the write, or nothing when `depth - 1` overflows. */
  function Prepare(depth: u8, sample: (nat, nat) -> string): Option<Statements> {
    if depth == 0 then None else Some(Statements(ReadCall(depth), WriteCall(depth, UpdateValue(sample))))
  }

  /** Every write of a run stores the same 16-character alphanumeric value,
      and the read differs from the write. */
  lemma PreparedOnce(depth: u8, sample: (nat, nat) -> string)
    requires depth >= 1 && IsAlphanumericSampler(sample)
    ensures var st := Prepare(depth, sample).value;
      && st.read != st.write
      && st.write == WriteCall(depth, UpdateValue(sample))
      && |UpdateValue(sample)| == UpdateValueSize && AllAlphanumeric(UpdateValue(sample))
  {
  }

  /** run_read_heavy, the `k`-th call of the run numbered `start + k`: the
      ratio is computed first, so no writes means a division by zero; the
      statements come next, so depth 0 means `depth - 1` overflows. */
  function ReadHeavy(numReads: nat, numWrites: nat, prepared: Option<Statements>,
                     start: nat, fails: nat -> bool): (r: Run)
    ensures r.outcome.Panic? <==> numWrites == 0 || prepared.None?
    ensures r.outcome.Panic? ==> r.events == []
    ensures r.outcome == Err ==> r.events != []
    ensures r.outcome == Ok ==>
      numWrites > 0 && prepared.Some? && r.events == Calls(ReadHeavyCalls(numReads, numWrites, prepared.value))
  {
    if numWrites == 0 then Run(Panic(DivisionByZero), [])
    else if prepared.None? then Run(Panic(SubtractOverflow), [])
    else
      IssueSpec(ReadHeavyCalls(numReads, numWrites, prepared.value), start, fails);
      Ran(Issue(ReadHeavyCalls(numReads, numWrites, prepared.value), start, fails))
  }

  /** run_write_heavy, with the roles of reads and writes exchanged. */
  function WriteHeavy(numReads: nat, numWrites: nat, prepared: Option<Statements>,
                      start: nat, fails: nat -> bool): (r: Run)
    ensures r.outcome.Panic? <==> numReads == 0 || prepared.None?
    ensures r.outcome.Panic? ==> r.events == []
    ensures r.outcome == Err ==> r.events != []
    ensures r.outcome == Ok ==>
      numReads > 0 && prepared.Some? && r.events == Calls(WriteHeavyCalls(numReads, numWrites, prepared.value))
  {
    if numReads == 0 then Run(Panic(DivisionByZero), [])
    else if prepared.None? then Run(Panic(SubtractOverflow), [])
    else
      IssueSpec(WriteHeavyCalls(numReads, numWrites, prepared.value), start, fails);
      Ran(Issue(WriteHeavyCalls(numReads, numWrites, prepared.value), start, fails))
  }

  /** The branch `num_reads > num_writes` chooses. */
  function Branch(numReads: nat, numWrites: nat, prepared: Option<Statements>,
                  start: nat, fails: nat -> bool): Run
  {
    if numReads > numWrites then ReadHeavy(numReads, numWrites, prepared, start, fails)
    else WriteHeavy(numReads, numWrites, prepared, start, fails)
  }

  /** run_queries: nothing without a client; otherwise the index (when asked
      for) before the window opens, then the branch inside the window. */
  function Queries(connected: bool, numReads: nat, numWrites: nat, useIndex: bool, name: string,
                   prepared: Option<Statements>, start: nat, fails: nat -> bool): Run
  {
    if !connected then Run(Ok, [])
    else if useIndex && fails(start) then Run(Err, [Issued(Execute(CreateGinIndex))])
    else
      var index := if useIndex then [Issued(Execute(CreateGinIndex))] else [];
      var w := Windowed(name, Branch(numReads, numWrites, prepared, start + |index|, fails));
      Run(w.outcome, index + w.events)
  }

  /** A branch only issues calls. It panics, before issuing any, exactly when
      its divisor is zero or the depth is 0, and names the first of the two;
      otherwise it issues its schedule as Issue does: a prefix, all of it
      exactly when it returns `Ok`. */
  lemma BranchSpec(numReads: nat, numWrites: nat, prepared: Option<Statements>, start: nat, fails: nat -> bool)
    ensures var b := Branch(numReads, numWrites, prepared, start, fails);
      var divisor := if numReads > numWrites then numWrites else numReads;
      && OnlyCalls(b.events)
      && (b.outcome.Panic? <==> divisor == 0 || prepared.None?)
      && (b.outcome.Panic? ==> b.events == [] && (b.outcome.fault == DivisionByZero <==> divisor == 0))
      && (!b.outcome.Panic? ==> b == Ran(Issue(Schedule(numReads, numWrites, prepared.value), start, fails)))
  {
  }

  /** How a connected run goes. Without a client nothing happens. A failing
      index creation returns before the window opens. Otherwise the window
      opens right after the index, and the monitor is still running after
      the run exactly when the branch did not return `Ok`; the last event
      closes the window exactly when it did. */
  lemma QueriesWindow(connected: bool, numReads: nat, numWrites: nat, useIndex: bool, name: string,
                      prepared: Option<Statements>, start: nat, fails: nat -> bool, on: bool)
    ensures var r := Queries(connected, numReads, numWrites, useIndex, name, prepared, start, fails);
      && (!connected ==> r == Run(Ok, []))
      && (connected && useIndex ==> r.events[0] == Issued(Execute(CreateGinIndex)))
      && (connected && useIndex && fails(start) ==> r.outcome == Err && Monitor(on, r.events) == on)
      && (connected && !(useIndex && fails(start)) ==>
            var k := if useIndex then 1 else 0;
            && r.events[k] == WindowOpened(name)
            && (Monitor(on, r.events) <==> r.outcome != Ok)
            && (r.outcome == Ok <==> r.events[|r.events| - 1] == WindowClosed))
  {
    if connected {
      var index := if useIndex then [Issued(Execute(CreateGinIndex))] else [];
      assert OnlyCalls(index);
      OnlyCallsCount(on, index);
      if !(useIndex && fails(start)) {
        var b := Branch(numReads, numWrites, prepared, start + |index|, fails);
        assert OnlyCalls(b.events) by {
          BranchSpec(numReads, numWrites, prepared, start + |index|, fails);
        }
        assert Queries(connected, numReads, numWrites, useIndex, name, prepared, start, fails)
          == Run(b.outcome, index + Windowed(name, b).events);
        MeasuredShape(on, index, name, b);
      }
    }
  }

  /** A run that returns `Ok` with a client has issued the whole schedule of
      its branch inside the window, after the index. */
  lemma QueriesOk(connected: bool, numReads: nat, numWrites: nat, useIndex: bool, name: string,
                  prepared: Option<Statements>, start: nat, fails: nat -> bool)
    requires connected
    requires Queries(connected, numReads, numWrites, useIndex, name, prepared, start, fails).outcome == Ok
    ensures prepared.Some? && (if numReads > numWrites then numWrites > 0 else numReads > 0)
    ensures Queries(connected, numReads, numWrites, useIndex, name, prepared, start, fails).events
      == (if useIndex then [Issued(Execute(CreateGinIndex))] else []) + [WindowOpened(name)]
         + Calls(Schedule(numReads, numWrites, prepared.value)) + [WindowClosed]
  {
    var index := if useIndex then [Issued(Execute(CreateGinIndex))] else [];
    var b := Branch(numReads, numWrites, prepared, start + |index|, fails);
    BranchSpec(numReads, numWrites, prepared, start + |index|, fails);
    IssueSpec(Schedule(numReads, numWrites, prepared.value), start + |index|, fails);
    WindowedOk(index, name, b, Schedule(numReads, numWrites, prepared.value));
  }

  /** A read-heavy run, proved against ReadHeavy. */
  method RunReadHeavy(tb: Testbed, numReads: nat, numWrites: nat, depth: u8, sample: (nat, nat) -> string)
    returns (outcome: Outcome)
    requires IsAlphanumericSampler(sample)
    modifies tb
    ensures var r := ReadHeavy(numReads, numWrites, Prepare(depth, sample), old(tb.calls), tb.fails);
      && outcome == r.outcome && tb.trace == old(tb.trace) + r.events
      && tb.calls == old(tb.calls) + |r.events| && tb.monitorOn == old(tb.monitorOn)
  {
    if numWrites == 0 {
      return Panic(DivisionByZero);
    }
    var ratio := numReads / numWrites;
    if depth == 0 {
      return Panic(SubtractOverflow);
    }
    var value := GenerateFixedSizeWord(UpdateValueSize, sample);
    var writeQuery := WriteStatement(depth, value);
    var readQuery := ReadStatement(depth);
    var ok := tb.RunInterleaved(numWrites, ratio, Query(readQuery), Execute(writeQuery));
    outcome := if ok then Ok else Err;
  }

  /** A write-heavy run, proved against WriteHeavy. */
  method RunWriteHeavy(tb: Testbed, numReads: nat, numWrites: nat, depth: u8, sample: (nat, nat) -> string)
    returns (outcome: Outcome)
    requires IsAlphanumericSampler(sample)
    modifies tb
    ensures var r := WriteHeavy(numReads, numWrites, Prepare(depth, sample), old(tb.calls), tb.fails);
      && outcome == r.outcome && tb.trace == old(tb.trace) + r.events
      && tb.calls == old(tb.calls) + |r.events| && tb.monitorOn == old(tb.monitorOn)
  {
    if numReads == 0 {
      return Panic(DivisionByZero);
    }
    var ratio := numWrites / numReads;
    if depth == 0 {
      return Panic(SubtractOverflow);
    }
    var value := GenerateFixedSizeWord(UpdateValueSize, sample);
    var writeQuery := WriteStatement(depth, value);
    var readQuery := ReadStatement(depth);
    var ok := tb.RunInterleaved(numReads, ratio, Execute(writeQuery), Query(readQuery));
    outcome := if ok then Ok else Err;
  }

  /** The three ways run_queries can go, one per stage it stops at. */
  lemma QueriesStages(connected: bool, numReads: nat, numWrites: nat, useIndex: bool, name: string,
                      prepared: Option<Statements>, start: nat, fails: nat -> bool)
    ensures var r := Queries(connected, numReads, numWrites, useIndex, name, prepared, start, fails);
      var index := if useIndex then [Issued(Execute(CreateGinIndex))] else [];
      var b := Branch(numReads, numWrites, prepared, start + |index|, fails);
      && OnlyCalls(index)
      && (!connected ==> r == Run(Ok, []))
      && (connected && useIndex && fails(start) ==> r == Run(Err, index))
      && (connected && !(useIndex && fails(start)) ==> r == Run(b.outcome, index + Windowed(name, b).events))
  {
  }

  /** The branch of run_queries that `num_reads > num_writes` chooses,
      proved against Branch. */
  method RunBranch(tb: Testbed, numReads: nat, numWrites: nat, depth: u8, sample: (nat, nat) -> string)
    returns (outcome: Outcome)
    requires IsAlphanumericSampler(sample)
    modifies tb
    ensures var r := Branch(numReads, numWrites, Prepare(depth, sample), old(tb.calls), tb.fails);
      && outcome == r.outcome && tb.trace == old(tb.trace) + r.events
      && tb.calls == old(tb.calls) + |r.events| && tb.monitorOn == old(tb.monitorOn)
  {
    if numReads > numWrites {
      outcome := RunReadHeavy(tb, numReads, numWrites, depth, sample);
    } else {
      outcome := RunWriteHeavy(tb, numReads, numWrites, depth, sample);
    }
  }

  /** The measured part of run_queries, proved against Windowed and
      Branch: the window opens, the branch runs, and the window closes only
      when the branch returned `Ok`. */
  method Measure(tb: Testbed, depth: u8, numReads: nat, numWrites: nat, name: string,
                 sample: (nat, nat) -> string)
    returns (outcome: Outcome)
    requires IsAlphanumericSampler(sample)
    modifies tb
    ensures var w := Windowed(name, Branch(numReads, numWrites, Prepare(depth, sample), old(tb.calls), tb.fails));
      && outcome == w.outcome && tb.trace == old(tb.trace) + w.events
      && tb.calls == old(tb.calls) + CallCount(w.events)
      && tb.monitorOn == Monitor(old(tb.monitorOn), w.events)
  {
    ghost var t0, c0 := tb.trace, tb.calls;
    ghost var b := Branch(numReads, numWrites, Prepare(depth, sample), c0, tb.fails);
    BranchSpec(numReads, numWrites, Prepare(depth, sample), c0, tb.fails);
    WindowedSpec(tb.monitorOn, name, b);
    WindowedTrace(t0, [], t0, name, b);
    assert [] + Windowed(name, b).events == Windowed(name, b).events;
    tb.StartPowerMonitoring(name);
    outcome := RunBranch(tb, numReads, numWrites, depth, sample);
    assert outcome == b.outcome && tb.trace == t0 + [WindowOpened(name)] + b.events && tb.calls == c0 + |b.events|;
    if outcome != Ok {
      return;
    }
    tb.StopPowerMonitoring();
  }

  /** run_queries, proved against Queries: the testbed records the run's
      events, counts its calls, and runs the monitor as those events say. */
  method RunQueries(tb: Testbed, connected: bool, depth: u8, numReads: nat, numWrites: nat,
                    useIndex: bool, name: string, sample: (nat, nat) -> string)
    returns (outcome: Outcome)
    requires IsAlphanumericSampler(sample)
    modifies tb
    ensures var r := Queries(connected, numReads, numWrites, useIndex, name, Prepare(depth, sample), old(tb.calls), tb.fails);
      && outcome == r.outcome && tb.trace == old(tb.trace) + r.events
      && tb.calls == old(tb.calls) + CallCount(r.events)
      && tb.monitorOn == Monitor(old(tb.monitorOn), r.events)
  {
    ghost var t0, c0, m0 := tb.trace, tb.calls, tb.monitorOn;
    ghost var prepared := Prepare(depth, sample);
    ghost var r := Queries(connected, numReads, numWrites, useIndex, name, prepared, c0, tb.fails);
    QueriesStages(connected, numReads, numWrites, useIndex, name, prepared, c0, tb.fails);
    if !connected {
      assert r == Run(Ok, []);
      return Ok;
    }
    ghost var index: seq<Event> := if useIndex then [Issued(Execute(CreateGinIndex))] else [];
    OnlyCallsCount(m0, index);
    if useIndex {
      var ok := tb.Send(Execute(CreateGinIndex));
      if !ok {
        assert r == Run(Err, index);
        return Err;
      }
    }
    assert tb.trace == t0 + index && tb.calls == c0 + |index| && tb.monitorOn == m0;
    ghost var b := Branch(numReads, numWrites, prepared, c0 + |index|, tb.fails);
    assert r == Run(b.outcome, index + Windowed(name, b).events);
    outcome := Measure(tb, depth, numReads, numWrites, name, sample);
    CallsThen(m0, t0, index, Windowed(name, b).events);
  }
}
