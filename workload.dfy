/** What every backend's workload has in common: the calls it issues, the
    ratio-interleaving of reads and writes, how the first failing call ends a
    run, and the testbed (the backend's client together with the power
    monitor) whose state a run changes. */
module Workload {
  import opened Json

  /** A statement of the relational workload, by what it asks for: the GIN
      index, the value at a path in every row containing a document, or the
      string stored at a path in every such row. The relational backend
      renders each to the SQL text its client sends. */
  datatype Sql =
    | CreateGinIndex
    | SelectPath(path: string, containing: Value)
    | SetPath(path: string, value: string, containing: Value)

  /** One call on a backend client: the relational client's `query` and
      `execute`, the document store's `aggregate` (with the cursor drained),
      `update_many` and `create_index`. */
  datatype Call =
    | Query(sql: Sql)
    | Execute(sql: Sql)
    | Aggregate(pipeline: seq<Value>, batchSize: nat)
    | UpdateMany(filter: Value, update: Value)
    | CreateIndex(keys: Value)

  /** What the testbed records, in order. */
  datatype Event =
    | Issued(call: Call)
    | WindowOpened(name: string)
    | WindowClosed

  /** Why a run panicked: an integer division by zero, or `depth - 1` on a
      depth of 0 (overflow checks on). */
  datatype Fault = DivisionByZero | SubtractOverflow

  /** How `run_queries` ends: `Ok(())`, an error returned through `?`, or a
      panic. */
  datatype Outcome = Ok | Err | Panic(fault: Fault)

  /** `n` copies of `x`. */
  function Rep<T>(x: T, n: nat): seq<T> {
    seq(n, _ => x)
  }

  /** The nested loops of every run_read_heavy and run_write_heavy: `outer`
      rounds, each `inner` calls of `major` followed by one call of `minor`. */
  function Interleave<T>(outer: nat, inner: nat, major: T, minor: T): seq<T> {
    if outer == 0 then []
    else Interleave(outer - 1, inner, major, minor) + Rep(major, inner) + [minor]
  }

  lemma {:induction false} InterleaveLength<T>(outer: nat, inner: nat, major: T, minor: T)
    ensures |Interleave(outer, inner, major, minor)| == outer * (inner + 1)
  {
    if outer > 0 {
      InterleaveLength(outer - 1, inner, major, minor);
    }
  }

  /** `a * b` by repeated addition, which keeps the counting proofs linear. */
  function Times(a: nat, b: nat): nat {
    if a == 0 then 0 else Times(a - 1, b) + b
  }
  lemma {:induction false} TimesIsProduct(a: nat, b: nat)
    ensures Times(a, b) == a * b
  {
    if a > 0 { TimesIsProduct(a - 1, b); }
  }
  /** Number of occurrences of `x` in `s`. */
  function Count<T(==)>(s: seq<T>, x: T): (n: nat)
    ensures n <= |s|
  {
    if s == [] then 0 else Count(s[..|s| - 1], x) + (if s[|s| - 1] == x then 1 else 0)
  }

  lemma {:induction false} CountAppend<T>(a: seq<T>, b: seq<T>, x: T)
    ensures Count(a + b, x) == Count(a, x) + Count(b, x)
    decreases |b|
  {
    if b != [] {
      CountAppend(a, b[..|b| - 1], x);
      assert (a + b)[..|a + b| - 1] == a + b[..|b| - 1];
    } else {
      assert a + b == a;
    }
  }

  lemma {:induction false} CountRep<T>(x: T, n: nat, y: T)
    ensures Count(Rep(x, n), y) == if x == y then n else 0
  {
    if n > 0 {
      CountRep(x, n - 1, y);
      assert Rep(x, n)[..n - 1] == Rep(x, n - 1);
    }
  }

  /** One more round adds `inner` calls of `major` and one of `minor`. */
  lemma TallyStep<T>(outer: nat, inner: nat, major: T, minor: T, y: T)
    requires outer > 0
    ensures Count(Interleave(outer, inner, major, minor), y) ==
      Count(Interleave(outer - 1, inner, major, minor), y) + (if major == y then inner else 0) + (if minor == y then 1 else 0)
  {
    var prev := Interleave(outer - 1, inner, major, minor);
    CountAppend(prev + Rep(major, inner), [minor], y);
    CountAppend(prev, Rep(major, inner), y);
    CountRep(major, inner, y);
    assert [minor][..0] == [];
  }

  /** `Times(outer, inner)` calls of `major` and `outer` of `minor`. */
  lemma {:induction false} InterleaveTally<T>(outer: nat, inner: nat, major: T, minor: T)
    requires major != minor
    ensures Count(Interleave(outer, inner, major, minor), major) == Times(outer, inner)
    ensures Count(Interleave(outer, inner, major, minor), minor) == outer
  {
    if outer > 0 {
      InterleaveTally(outer - 1, inner, major, minor);
      TallyStep(outer, inner, major, minor, major);
      TallyStep(outer, inner, major, minor, minor);
    }
  }

  /** The loops issue `outer * inner` calls of `major` and `outer` of `minor`. */
  lemma InterleaveCounts<T>(outer: nat, inner: nat, major: T, minor: T)
    requires major != minor
    ensures Count(Interleave(outer, inner, major, minor), major) == outer * inner
    ensures Count(Interleave(outer, inner, major, minor), minor) == outer
  {
    InterleaveTally(outer, inner, major, minor);
    TimesIsProduct(outer, inner);
  }

  /** Round `q` (counting from 0), which starts once the `q` earlier rounds
      are done, is `inner` calls of `major` and then one `minor`: every
      `minor` follows its own batch of `major`s. */
  lemma InterleaveAt<T>(outer: nat, inner: nat, major: T, minor: T, q: nat, r: nat)
    requires q < outer && r <= inner
    ensures |Interleave(q, inner, major, minor)| + r < |Interleave(outer, inner, major, minor)|
    ensures Interleave(outer, inner, major, minor)[|Interleave(q, inner, major, minor)| + r] ==
      if r < inner then major else minor
  {
    var k := |Interleave(q, inner, major, minor)| + r;
    var next := Interleave(q + 1, inner, major, minor);
    InterleavePrefix(q + 1, outer, inner, major, minor);
    assert next[k] == (Rep(major, inner) + [minor])[r];
  }

  /** An earlier stop of the loops is a prefix of the full run. */
  lemma {:induction false} InterleavePrefix<T>(i: nat, outer: nat, inner: nat, major: T, minor: T)
    requires i <= outer
    ensures Interleave(i, inner, major, minor) <= Interleave(outer, inner, major, minor)
    decreases outer
  {
    if i < outer {
      InterleavePrefix(i, outer - 1, inner, major, minor);
    }
  }
  /** The loops issue nothing but `major` and `minor`. */
  lemma {:induction false} InterleaveMembers<T>(outer: nat, inner: nat, major: T, minor: T)
    ensures forall k :: 0 <= k < |Interleave(outer, inner, major, minor)| ==>
      Interleave(outer, inner, major, minor)[k] == major || Interleave(outer, inner, major, minor)[k] == minor
  {
    if outer > 0 {
      InterleaveMembers(outer - 1, inner, major, minor);
    }
  }

  /** Whether every call numbered `start` to `start + n - 1` succeeds. */
  ghost predicate AllSucceed(start: nat, n: nat, fails: nat -> bool) {
    forall k :: start <= k < start + n ==> !fails(k)
  }

  /** Two runs of successes, one after the other, are one run. */
  lemma AllSucceedJoin(start: nat, m: nat, n: nat, fails: nat -> bool)
    requires AllSucceed(start, m, fails) && AllSucceed(start + m, n, fails)
    ensures AllSucceed(start, m + n, fails)
  {
  }

  /** Of the `n` calls numbered from `start`, how many succeed before the
      first that fails (`n` when none fails). */
  function FirstFailure(start: nat, n: nat, fails: nat -> bool): (m: nat)
    ensures m <= n
    decreases n
  {
    if n == 0 || fails(start) then 0 else 1 + FirstFailure(start + 1, n - 1, fails)
  }

  /** The calls before the first failure succeed, and the one at it fails. */
  lemma {:induction false} FirstFailureSpec(start: nat, n: nat, fails: nat -> bool)
    ensures var m := FirstFailure(start, n, fails);
      AllSucceed(start, m, fails) && (m < n ==> fails(start + m))
    decreases n
  {
    if n > 0 && !fails(start) {
      FirstFailureSpec(start + 1, n - 1, fails);
    }
  }

  /** The first failure is the only position with those properties. */
  lemma FirstFailureIs(start: nat, n: nat, m: nat, fails: nat -> bool)
    requires m <= n && AllSucceed(start, m, fails)
    requires m < n ==> fails(start + m)
    ensures FirstFailure(start, n, fails) == m
  {
    FirstFailureSpec(start, n, fails);
  }

  /** The calls actually issued, and whether all of them succeeded. */
  datatype Attempt = Attempt(issued: seq<Call>, ok: bool)

  /** Issuing `calls` one after the other, the first numbered `start`: the run
      stops right after the first call that fails, as `?` does. */
  function Issue(calls: seq<Call>, start: nat, fails: nat -> bool): Attempt {
    var m := FirstFailure(start, |calls|, fails);
    if m < |calls| then Attempt(calls[..m + 1], false) else Attempt(calls, true)
  }

  /** What issuing promises: the calls issued are a prefix of the calls; the
      run succeeds exactly when every call does, and then issued them all;
      otherwise the last call issued is the first that failed. */
  lemma IssueSpec(calls: seq<Call>, start: nat, fails: nat -> bool)
    ensures var a := Issue(calls, start, fails);
      && a.issued <= calls
      && (a.ok <==> AllSucceed(start, |calls|, fails))
      && (a.ok ==> a.issued == calls)
      && (!a.ok ==> && |a.issued| >= 1
                    && fails(start + |a.issued| - 1)
                    && AllSucceed(start, |a.issued| - 1, fails))
  {
    FirstFailureSpec(start, |calls|, fails);
  }

  /** The events recording that `calls` were issued. */
  function Calls(calls: seq<Call>): (r: seq<Event>)
    ensures |r| == |calls|
  {
    seq(|calls|, i requires 0 <= i < |calls| => Issued(calls[i]))
  }

  lemma CallsAppend(a: seq<Call>, b: seq<Call>)
    ensures Calls(a + b) == Calls(a) + Calls(b)
  {
  }

  /** Number of calls recorded in a trace. */
  function CallCount(trace: seq<Event>): nat {
    if trace == [] then 0
    else (if trace[0].Issued? then 1 else 0) + CallCount(trace[1..])
  }

  /** Whether the most recently opened measurement window is still open
      after `trace`, when one was open before it exactly when `on`: a window
      event opens or closes it, a call does not. */
  function Monitor(on: bool, trace: seq<Event>): bool
    decreases |trace|
  {
    if trace == [] then on
    else
      var next := match trace[0]
        case WindowOpened(_) => true
        case WindowClosed => false
        case Issued(_) => on;
      Monitor(next, trace[1..])
  }

  /** Counting and following the monitor over two stretches of a trace. */
  lemma {:induction false} TraceSplit(on: bool, a: seq<Event>, b: seq<Event>)
    ensures CallCount(a + b) == CallCount(a) + CallCount(b)
    ensures Monitor(on, a + b) == Monitor(Monitor(on, a), b)
    decreases |a|
  {
    if a == [] {
      assert a + b == b;
    } else {
      assert (a + b)[1..] == a[1..] + b;
      var next := match a[0]
        case WindowOpened(_) => true
        case WindowClosed => false
        case Issued(_) => on;
      TraceSplit(next, a[1..], b);
    }
  }

  /** Whether a trace records calls only. */
  ghost predicate OnlyCalls(trace: seq<Event>) {
    forall i :: 0 <= i < |trace| ==> trace[i].Issued?
  }

  /** A trace of calls only counts each of them and leaves the monitor
      alone. */
  lemma {:induction false} OnlyCallsCount(on: bool, trace: seq<Event>)
    requires OnlyCalls(trace)
    ensures CallCount(trace) == |trace|
    ensures Monitor(on, trace) == on
    decreases |trace|
  {
    if trace != [] {
      OnlyCallsCount(on, trace[1..]);
    }
  }

  /** What a run does: how it ends and the events it leaves, in order. */
  datatype Run = Run(outcome: Outcome, events: seq<Event>)

  /** The run that issues the calls of an attempt and ends as it does. */
  function Ran(a: Attempt): Run {
    Run(if a.ok then Ok else Err, Calls(a.issued))
  }

  /** The read and the write a run prepares before its loops. */
  datatype Statements = Statements(read: Call, write: Call)

  /** The nested loops of a read-heavy run: `numWrites` rounds of
      `numReads / numWrites` reads followed by one write. */
  function ReadHeavyCalls(numReads: nat, numWrites: nat, st: Statements): seq<Call>
    requires numWrites > 0
  {
    Interleave(numWrites, numReads / numWrites, st.read, st.write)
  }

  /** The nested loops of a write-heavy run: `numReads` rounds of
      `numWrites / numReads` writes followed by one read. */
  function WriteHeavyCalls(numReads: nat, numWrites: nat, st: Statements): seq<Call>
    requires numReads > 0
  {
    Interleave(numReads, numWrites / numReads, st.write, st.read)
  }

  /** The schedule of the branch `numReads > numWrites` chooses. */
  function Schedule(numReads: nat, numWrites: nat, st: Statements): seq<Call>
    requires if numReads > numWrites then numWrites > 0 else numReads > 0
  {
    if numReads > numWrites then ReadHeavyCalls(numReads, numWrites, st) else WriteHeavyCalls(numReads, numWrites, st)
  }

  /** What integer division leaves out. */
  lemma DivisionRemainder(a: nat, b: nat)
    requires b > 0
    ensures b * (a / b) == a - a % b
  {
  }

  /** A read-heavy schedule issues `numWrites * (numReads / numWrites)`
      reads (the remainder of the division is never read) and `numWrites`
      writes; a write-heavy one `numReads` reads and
      `numReads * (numWrites / numReads)` writes. Nothing else is issued. */
  lemma ScheduleCounts(numReads: nat, numWrites: nat, st: Statements)
    requires if numReads > numWrites then numWrites > 0 else numReads > 0
    requires st.read != st.write
    ensures var s := Schedule(numReads, numWrites, st);
      && (numReads > numWrites ==>
            && Count(s, st.read) == numWrites * (numReads / numWrites) == numReads - numReads % numWrites
            && Count(s, st.write) == numWrites)
      && (numReads <= numWrites ==>
            && Count(s, st.read) == numReads
            && Count(s, st.write) == numReads * (numWrites / numReads) == numWrites - numWrites % numReads)
      && (forall k :: 0 <= k < |s| ==> s[k] == st.read || s[k] == st.write)
  {
    if numReads > numWrites {
      InterleaveCounts(numWrites, numReads / numWrites, st.read, st.write);
      DivisionRemainder(numReads, numWrites);
      InterleaveMembers(numWrites, numReads / numWrites, st.read, st.write);
    } else {
      InterleaveCounts(numReads, numWrites / numReads, st.write, st.read);
      DivisionRemainder(numWrites, numReads);
      InterleaveMembers(numReads, numWrites / numReads, st.write, st.read);
    }
  }

  /** A run inside a measurement window: the window opens before it and
      closes after it only when it returns `Ok`; an error or a panic leaves
      the window open. */
  function Windowed(name: string, b: Run): Run {
    Run(b.outcome, [WindowOpened(name)] + b.events + (if b.outcome == Ok then [WindowClosed] else []))
  }

  /** A run of calls only, measured: the window is opened first, and the
      monitor is still running afterwards exactly when the run did not return
      `Ok`; the last event closes the window exactly when it did. */
  lemma WindowedSpec(on: bool, name: string, b: Run)
    requires OnlyCalls(b.events)
    ensures var w := Windowed(name, b);
      && w.outcome == b.outcome
      && w.events[0] == WindowOpened(name)
      && (Monitor(on, w.events) <==> b.outcome != Ok)
      && (b.outcome == Ok <==> w.events[|w.events| - 1] == WindowClosed)
      && CallCount(w.events) == CallCount(b.events) == |b.events|
  {
    var w := Windowed(name, b);
    var tail := if b.outcome == Ok then [WindowClosed] else [];
    TraceSplit(on, [WindowOpened(name)] + b.events, tail);
    TraceSplit(on, [WindowOpened(name)], b.events);
    OnlyCallsCount(true, b.events);
    assert [WindowOpened(name)][1..] == [];
    if b.outcome != Ok && b.events != [] {
      assert w.events[|w.events| - 1] == b.events[|b.events| - 1];
    }
  }

  /** A stretch of calls followed by more events: counted together, and the
      monitor is as the later events leave it. */
  lemma CallsThen(on: bool, t: seq<Event>, first: seq<Event>, second: seq<Event>)
    requires OnlyCalls(first)
    ensures (t + first) + second == t + (first + second)
    ensures CallCount(first + second) == |first| + CallCount(second)
    ensures Monitor(on, first + second) == Monitor(on, second)
  {
    OnlyCallsCount(on, first);
    TraceSplit(on, first, second);
  }

  /** Calls made before a measured run of calls: the window opens right
      after them, it is still open afterwards exactly when the run did not
      return `Ok`, and the last event closes it exactly when it did. */
  lemma MeasuredShape(on: bool, before: seq<Event>, name: string, b: Run)
    requires OnlyCalls(before) && OnlyCalls(b.events)
    ensures var e := before + Windowed(name, b).events;
      && e[|before|] == WindowOpened(name)
      && (Monitor(on, e) <==> b.outcome != Ok)
      && (b.outcome == Ok <==> e[|e| - 1] == WindowClosed)
  {
    var w := Windowed(name, b).events;
    WindowedSpec(on, name, b);
    CallsThen(on, [], before, w);
    assert (before + w)[|before|] == w[0];
    assert (before + w)[|before + w| - 1] == w[|w| - 1];
  }

  /** The trace a measured run leaves after `t` and the calls `before`,
      which together left `u`. */
  lemma WindowedTrace(t: seq<Event>, before: seq<Event>, u: seq<Event>, name: string, b: Run)
    requires u == t + before
    ensures b.outcome != Ok ==> u + [WindowOpened(name)] + b.events == t + (before + Windowed(name, b).events)
    ensures b.outcome == Ok ==>
      u + [WindowOpened(name)] + b.events + [WindowClosed] == t + (before + Windowed(name, b).events)
  {
  }

  /** A measured run that returns `Ok` after issuing `calls`. */
  lemma WindowedOk(before: seq<Event>, name: string, b: Run, calls: seq<Call>)
    requires b.outcome == Ok && b.events == Calls(calls)
    ensures before + Windowed(name, b).events == before + [WindowOpened(name)] + Calls(calls) + [WindowClosed]
  {
  }

  /** Calls issued in two stretches leave the events of the two, in order. */
  lemma TraceAppend(t: seq<Event>, a: seq<Call>, b: seq<Call>)
    ensures t + Calls(a) + Calls(b) == t + Calls(a + b)
  {
    CallsAppend(a, b);
  }

  /** One call is issued whatever happens; the run goes on when it succeeds. */
  lemma IssueOne(c: Call, start: nat, fails: nat -> bool)
    ensures Issue([c], start, fails) == Attempt([c], !fails(start))
  {
    assert [c][..1] == [c];
  }

  /** Issuing two stretches of calls one after the other: the second is
      reached only when the first succeeds, and the calls keep their numbers. */
  lemma IssueAppend(p: seq<Call>, q: seq<Call>, start: nat, fails: nat -> bool)
    ensures var a := Issue(p, start, fails);
      var b := Issue(q, start + |p|, fails);
      Issue(p + q, start, fails) == if a.ok then Attempt(p + b.issued, b.ok) else a
  {
    var m := FirstFailure(start, |p|, fails);
    var k := FirstFailure(start + |p|, |q|, fails);
    FirstFailureSpec(start, |p|, fails);
    FirstFailureSpec(start + |p|, |q|, fails);
    if m < |p| {
      FirstFailureIs(start, |p + q|, m, fails);
      assert (p + q)[..m + 1] == p[..m + 1];
    } else {
      AllSucceedJoin(start, |p|, k, fails);
      FirstFailureIs(start, |p + q|, |p| + k, fails);
      if k < |q| {
        assert (p + q)[..|p| + k + 1] == p + q[..k + 1];
      }
    }
  }

  lemma RepCallsSnoc(t: seq<Event>, c: Call, j: nat)
    ensures t + Calls(Rep(c, j)) + [Issued(c)] == t + Calls(Rep(c, j + 1))
  {
    assert Rep(c, j + 1) == Rep(c, j) + [c];
    CallsAppend(Rep(c, j), [c]);
  }

  /** The inner loop's `j`-th call fails after `j` successes. */
  lemma RepStopsAt(c: Call, n: nat, j: nat, start: nat, fails: nat -> bool)
    requires j < n && AllSucceed(start, j, fails) && fails(start + j)
    ensures Issue(Rep(c, n), start, fails) == Attempt(Rep(c, j + 1), false)
  {
    FirstFailureIs(start, n, j, fails);
    assert Rep(c, n)[..j + 1] == Rep(c, j + 1);
  }

  lemma RepSucceeds(c: Call, n: nat, start: nat, fails: nat -> bool)
    requires AllSucceed(start, n, fails)
    ensures Issue(Rep(c, n), start, fails) == Attempt(Rep(c, n), true)
  {
    FirstFailureIs(start, n, n, fails);
  }

  /** A run that fails within its first `i + 1` rounds ends as those rounds do. */
  lemma RoundsStop(i: nat, outer: nat, inner: nat, major: Call, minor: Call, start: nat, fails: nat -> bool)
    requires i < outer
    requires !Issue(Interleave(i + 1, inner, major, minor), start, fails).ok
    ensures Issue(Interleave(outer, inner, major, minor), start, fails) ==
            Issue(Interleave(i + 1, inner, major, minor), start, fails)
  {
    var next := Interleave(i + 1, inner, major, minor);
    var whole := Interleave(outer, inner, major, minor);
    InterleavePrefix(i + 1, outer, inner, major, minor);
    assert whole == next + whole[|next|..];
    IssueAppend(next, whole[|next|..], start, fails);
  }

  /** Round `i` of the nested loops, reached after the earlier rounds all
      succeeded, decides how the run goes on. */
  lemma AfterRound(i: nat, outer: nat, inner: nat, major: Call, minor: Call, start: nat, fails: nat -> bool)
    requires i < outer
    requires Issue(Interleave(i, inner, major, minor), start, fails).ok
    ensures var done := Interleave(i, inner, major, minor);
      var r := Issue(Rep(major, inner) + [minor], start + |done|, fails);
      && Issue(Interleave(i + 1, inner, major, minor), start, fails) == Attempt(done + r.issued, r.ok)
      && (!r.ok ==> Issue(Interleave(outer, inner, major, minor), start, fails) == Attempt(done + r.issued, false))
  {
    var done := Interleave(i, inner, major, minor);
    IssueAll(done, start, fails);
    IssueAppend(done, Rep(major, inner) + [minor], start, fails);
    assert done + (Rep(major, inner) + [minor]) == Interleave(i + 1, inner, major, minor);
    if !Issue(Interleave(i + 1, inner, major, minor), start, fails).ok {
      RoundsStop(i, outer, inner, major, minor, start, fails);
    }
  }

  /** The testbed's state when a round stops the run is the state the whole
      run leaves. */
  lemma RunStops(t0: seq<Event>, c0: nat, trace: seq<Event>, calls: nat,
                 done: seq<Call>, whole: seq<Call>, r: Attempt, fails: nat -> bool)
    requires Issue(whole, c0, fails) == Attempt(done + r.issued, false)
    requires trace == t0 + Calls(done) + Calls(r.issued) && calls == c0 + |done| + |r.issued|
    ensures var a := Issue(whole, c0, fails);
      trace == t0 + Calls(a.issued) && calls == c0 + |a.issued| && !a.ok
  {
    TraceAppend(t0, done, r.issued);
  }

  /** A run that succeeds issues all its calls. */
  lemma IssueAll(calls: seq<Call>, start: nat, fails: nat -> bool)
    requires Issue(calls, start, fails).ok
    ensures Issue(calls, start, fails).issued == calls
  {
  }

  /** The backend's client and the power monitor, as one benchmark run sees
      them. The client answers its `k`-th call with an error exactly when
      `fails(k)`. */
  class Testbed {
    var trace: seq<Event>
    var calls: nat
    // whether the most recently opened window is still open
    var monitorOn: bool
    const fails: nat -> bool

    constructor (fails: nat -> bool)
      ensures trace == [] && calls == 0 && !monitorOn && this.fails == fails
    {
      trace, calls, monitorOn := [], 0, false;
      this.fails := fails;
    }

    /** Issues one call and reports whether it succeeded. */
    method Send(c: Call) returns (ok: bool)
      modifies this
      ensures trace == old(trace) + [Issued(c)] && calls == old(calls) + 1 && monitorOn == old(monitorOn)
      ensures ok == !fails(old(calls))
    {
      ok := !fails(calls);
      trace, calls := trace + [Issued(c)], calls + 1;
    }

    /** start_power_monitoring: spawns the sampling process writing `fileName`. */
    method StartPowerMonitoring(fileName: string)
      modifies this
      ensures trace == old(trace) + [WindowOpened(fileName)] && calls == old(calls) && monitorOn
    {
      trace, monitorOn := trace + [WindowOpened(fileName)], true;
    }

    /** stop_power_monitoring: kills the sampling process and waits for it. */
    method StopPowerMonitoring()
      modifies this
      ensures trace == old(trace) + [WindowClosed] && calls == old(calls) && !monitorOn
    {
      trace, monitorOn := trace + [WindowClosed], false;
    }

    /** The inner loop: `n` calls of `c`, returning at the first that fails. */
    method SendRepeatedly(c: Call, n: nat) returns (ok: bool)
      modifies this
      ensures monitorOn == old(monitorOn)
      ensures var a := Issue(Rep(c, n), old(calls), fails);
        trace == old(trace) + Calls(a.issued) && calls == old(calls) + |a.issued| && ok == a.ok
    {
      ghost var t0, c0 := trace, calls;
      var j := 0;
      while j < n
        invariant 0 <= j <= n && monitorOn == old(monitorOn)
        invariant trace == t0 + Calls(Rep(c, j)) && calls == c0 + j
        invariant AllSucceed(c0, j, fails)
      {
        var success := Send(c);
        RepCallsSnoc(t0, c, j);
        if !success {
          RepStopsAt(c, n, j, c0, fails);
          return false;
        }
        j := j + 1;
      }
      RepSucceeds(c, n, c0, fails);
      return true;
    }

    /** One round of the nested loops: `inner` calls of `major`, then one of
        `minor`, returning at the first call that fails. */
    method RunRound(inner: nat, major: Call, minor: Call) returns (ok: bool)
      modifies this
      ensures monitorOn == old(monitorOn)
      ensures var a := Issue(Rep(major, inner) + [minor], old(calls), fails);
        trace == old(trace) + Calls(a.issued) && calls == old(calls) + |a.issued| && ok == a.ok
    {
      ghost var t0, c0 := trace, calls;
      IssueAppend(Rep(major, inner), [minor], c0, fails);
      ok := SendRepeatedly(major, inner);
      if !ok {
        return;
      }
      IssueAll(Rep(major, inner), c0, fails);
      IssueOne(minor, c0 + inner, fails);
      ok := Send(minor);
      TraceAppend(t0, Rep(major, inner), [minor]);
    }

    /** The nested loops: `outer` rounds of `inner` calls of `major` and then
        one of `minor`, returning at the first call that fails. */
    method RunInterleaved(outer: nat, inner: nat, major: Call, minor: Call) returns (ok: bool)
      modifies this
      ensures monitorOn == old(monitorOn)
      ensures var a := Issue(Interleave(outer, inner, major, minor), old(calls), fails);
        trace == old(trace) + Calls(a.issued) && calls == old(calls) + |a.issued| && ok == a.ok
    {
      ghost var t0, c0 := trace, calls;
      var i := 0;
      while i < outer
        invariant 0 <= i <= outer && monitorOn == old(monitorOn)
        invariant Issue(Interleave(i, inner, major, minor), c0, fails) == Attempt(Interleave(i, inner, major, minor), true)
        invariant trace == t0 + Calls(Interleave(i, inner, major, minor))
        invariant calls == c0 + |Interleave(i, inner, major, minor)|
      {
        ghost var done := Interleave(i, inner, major, minor);
        ghost var r := Issue(Rep(major, inner) + [minor], c0 + |done|, fails);
        var roundOk := RunRound(inner, major, minor);
        AfterRound(i, outer, inner, major, minor, c0, fails);
        if !roundOk {
          RunStops(t0, c0, trace, calls, done, Interleave(outer, inner, major, minor), r, fails);
          return false;
        }
        TraceAppend(t0, done, r.issued);
        i := i + 1;
      }
      return true;
    }
  }
}
