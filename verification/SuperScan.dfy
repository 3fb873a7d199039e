/** One SuperScan run over one apartment: the read pass, the active tests, the deep pass over
    raw symbols and the removal pass, with a cancel check at every step and database calls
    that may raise. */
module SuperScan {
  import opened Common
  import opened ScanRows
  import opened ScanLaws

  datatype Status = Running | Completed | Stopped | Failed

  /** How a pass ends: carried through, cancelled, or by an exception. */
  datatype End = Through | Cancelled | Raised

  /** A test log row; `sent` when the device was addressed at all. */
  datatype LogEntry = LogEntry(key: Key, success: bool, sent: bool)

  function LogOf(w: World, i: nat): LogEntry
    requires i < |Tests(w)| && |w.trials| == |w.known|
  {
    LogEntry(Tests(w)[i].key, w.trials[i].before && w.trials[i].success, w.trials[i].before)
  }

  /** The log of the first `n` tests: one row each, in order. */
  function LogsOf(w: World, n: nat): (r: seq<LogEntry>)
    requires n <= |Tests(w)| && |w.trials| == |w.known|
    ensures |r| == n
  {
    if n == 0 then [] else LogsOf(w, n - 1) + [LogOf(w, n - 1)]
  }

  /** The operations after the read pass, and after the tests. */
  ghost function UpToTests(w: World, n: nat): seq<Op>
    requires GoodWorld(w) && n <= |Tests(w)|
  {
    ReadOps(w, |w.known|) + TestOps(w, n)
  }

  ghost function UpToSymbols(w: World, n: nat): seq<Op>
    requires GoodWorld(w) && n <= |SymbolsOf(w)|
  {
    UpToTests(w, |Tests(w)|) + SymbolOps(w, n)
  }

  /** A run that has not got to the removal. */
  ghost predicate Unfinished(w: World, ops: seq<Op>)
    requires GoodWorld(w)
  {
    ops <= Plan(w) && ops != Plan(w)
  }

  lemma {:induction false} ReadOpsGrow(w: World, n: nat, m: nat)
    requires n <= m <= |w.known| && |w.readings| == |w.known|
    ensures ReadOps(w, n) <= ReadOps(w, m)
  {
    if n < m { ReadOpsGrow(w, n, m - 1); }
  }

  lemma {:induction false} TestOpsGrow(w: World, n: nat, m: nat)
    requires n <= m <= |Tests(w)| && |w.trials| == |w.known|
    ensures TestOps(w, n) <= TestOps(w, m)
  {
    if n < m { TestOpsGrow(w, n, m - 1); }
  }

  lemma {:induction false} SymbolOpsGrow(w: World, n: nat, m: nat)
    requires n <= m <= |SymbolsOf(w)|
    ensures SymbolOps(w, n) <= SymbolOps(w, m)
  {
    if n < m { SymbolOpsGrow(w, n, m - 1); }
  }

  lemma PrefixOf(a: seq<Op>, b: seq<Op>, c: seq<Op>)
    requires a <= b && b <= c
    ensures a <= c
  {
  }

  /** Stopping within an item of the read pass leaves a prefix of the plan. */
  lemma ReadPrefix(w: World, n: nat, ops: seq<Op>)
    requires GoodWorld(w) && n <= |w.known|
    requires ops <= ReadOps(w, n)
    ensures Unfinished(w, ops)
  {
    ReadOpsGrow(w, n, |w.known|);
    PrefixOf(ops, ReadOps(w, n), ReadOps(w, |w.known|));
    PrefixOf(ops, ReadOps(w, |w.known|), Body(w));
    PrefixOf(ops, Body(w), Plan(w));
  }

  /** The two row operations of an item of the read pass, and the prefixes they pass. */
  lemma ReadStep(w: World, i: nat, ops: seq<Op>)
    requires GoodWorld(w) && i < |w.known| && ops == ReadOps(w, i)
    ensures ReadOps(w, i + 1) == ops + [Touch(w.known[i].key, w.readings[i])] + [Observe(w.known[i].key)]
    ensures Unfinished(w, ops) && Unfinished(w, ops + [Touch(w.known[i].key, w.readings[i])])
  {
    ReadPrefix(w, i, ops);
    assert ReadOps(w, i + 1) == ops + [Touch(w.known[i].key, w.readings[i])] + [Observe(w.known[i].key)];
    ReadPrefix(w, i + 1, ops + [Touch(w.known[i].key, w.readings[i])]);
  }

  lemma TestPrefix(w: World, n: nat)
    requires GoodWorld(w) && n <= |Tests(w)|
    ensures Unfinished(w, UpToTests(w, n))
  {
    TestOpsGrow(w, n, |Tests(w)|);
    assert UpToTests(w, n) <= UpToTests(w, |Tests(w)|) <= Body(w);
  }

  /** The row operation of one test. */
  function TestOp(w: World, i: nat): Op
    requires i < |Tests(w)| && |w.trials| == |w.known|
  {
    Tested(Tests(w)[i].key, StatusOf(w.trials[i]))
  }

  lemma TestStep(w: World, i: nat, ops: seq<Op>)
    requires GoodWorld(w) && i < |Tests(w)| && ops == UpToTests(w, i)
    ensures ops + [TestOp(w, i)] == UpToTests(w, i + 1)
    ensures Unfinished(w, ops) && Unfinished(w, ops + [TestOp(w, i)])
    ensures Addressed(w, i) <= Addressed(w, |Tests(w)|) && Addressed(w, i + 1) <= Addressed(w, |Tests(w)|)
  {
    TestPrefix(w, i);
    TestPrefix(w, i + 1);
    AddressedGrows(w, i, |Tests(w)|);
    AddressedGrows(w, i + 1, |Tests(w)|);
    assert ops + [TestOp(w, i)] == UpToTests(w, i + 1);
  }

  /** The row operation, if any, of one symbol. */
  function SymbolOp(w: World, i: nat): seq<Op>
    requires i < |SymbolsOf(w)|
  {
    if Reported(w, SymbolsOf(w)[i]) then [Unknown(SymbolKey(SymbolsOf(w)[i]))] else []
  }

  lemma SymbolStep(w: World, i: nat, ops: seq<Op>)
    requires GoodWorld(w) && i < |SymbolsOf(w)| && ops == UpToSymbols(w, i)
    ensures ops + SymbolOp(w, i) == UpToSymbols(w, i + 1)
    ensures Unfinished(w, ops)
  {
    SymbolPrefix(w, i);
    assert ops + SymbolOp(w, i) == UpToSymbols(w, i + 1);
  }

  lemma SymbolPrefix(w: World, n: nat)
    requires GoodWorld(w) && n <= |SymbolsOf(w)|
    ensures Unfinished(w, UpToSymbols(w, n)) && UpToSymbols(w, |SymbolsOf(w)|) == Body(w)
  {
    SymbolOpsGrow(w, n, |SymbolsOf(w)|);
    assert UpToSymbols(w, n) <= UpToSymbols(w, |SymbolsOf(w)|) == Body(w);
  }

  ghost function GoodLogs(logs: seq<LogEntry>): set<nat> {
    set j: nat | j < |logs| && logs[j].success
  }

  lemma GoodLogsNext(logs: seq<LogEntry>, e: LogEntry)
    ensures |GoodLogs(logs + [e])| == |GoodLogs(logs)| + if e.success then 1 else 0
  {
    OneMorePlace(GoodLogs(logs), GoodLogs(logs + [e]), |logs|, e.success);
  }

  lemma {:induction false} PassedAreGood(w: World, n: nat)
    requires n <= |Tests(w)| && |w.trials| == |w.known|
    ensures PassedCount(w, n) == |GoodLogs(LogsOf(w, n))|
  {
    if n > 0 {
      PassedAreGood(w, n - 1);
      GoodLogsNext(LogsOf(w, n - 1), LogOf(w, n - 1));
    } else {
      assert GoodLogs([]) == {};
    }
  }

  lemma {:induction false} LogsAre(w: World, n: nat, i: nat)
    requires i < n <= |Tests(w)| && |w.trials| == |w.known|
    ensures LogsOf(w, n)[i] == LogOf(w, i)
  {
    if i < n - 1 { LogsAre(w, n - 1, i); }
  }

  lemma {:induction false} AddressedGrows(w: World, n: nat, m: nat)
    requires GoodWorld(w) && n <= m <= |Tests(w)|
    ensures Addressed(w, n) <= Addressed(w, m)
  {
    if n < m { AddressedGrows(w, n, m - 1); }
  }

  class SuperScanEngine {
    const run: RunId
    const w: World
    /** The first cancel check that sees the request, the database call that raises, whether
        the registry can be had. */
    const cancelAt: Option<nat>
    const crashAt: Option<nat>
    const reachable: bool

    var checks: nat
    var calls: nat
    var rows: Rows
    var logs: seq<LogEntry>
    var addressed: seq<Key>
    ghost var trace: seq<Op>
    ghost const start: Rows

    // The run's own row.
    var status: Status
    var progress: nat
    var total: nat
    var discovered: nat
    var newCount: nat
    var changed: nat
    var tested: nat
    var passed: nat
    var failed: nat
    var unknown: nat
    var removed: nat

    constructor (run: RunId, w: World, rows: Rows, cancelAt: Option<nat>, crashAt: Option<nat>, reachable: bool)
      ensures this.run == run && this.w == w && this.rows == rows && start == rows
      ensures this.crashAt == crashAt && this.cancelAt == cancelAt
      ensures this.reachable == reachable && trace == [] && logs == [] && addressed == [] && status == Running
      ensures progress == total == 0 && tested == passed == failed == 0
    {
      this.run, this.w, this.rows, start := run, w, rows, rows;
      this.cancelAt, this.crashAt, this.reachable := cancelAt, crashAt, reachable;
      checks, calls, logs, addressed, trace := 0, 0, [], [], [];
      status, progress, total, discovered, newCount, changed := Running, 0, 0, 0, 0, 0;
      tested, passed, failed, unknown, removed := 0, 0, 0, 0, 0;
    }

    /** _check_cancel: once requested, every later check sees it. */
    method CheckCancel() returns (go: bool)
      modifies this`checks
      ensures go <==> !(cancelAt.Some? && old(checks) >= cancelAt.value)
    {
      go := !(cancelAt.Some? && checks >= cancelAt.value);
      checks := checks + 1;
    }

    /** A database call that leaves the capability rows alone. */
    method Call() returns (ok: bool)
      modifies this`calls
      ensures ok <==> crashAt != Some(old(calls))
    {
      ok := crashAt != Some(calls);
      calls := calls + 1;
    }

    /** The rows are what the operations carried out so far make of the rows at the start. */
    ghost predicate Consistent()
      reads this
    {
      rows == Apply(start, run, trace)
    }

    method Write(op: Op) returns (ok: bool)
      requires Consistent()
      modifies this`calls, this`rows, this`trace
      ensures Consistent()
      ensures trace == if ok then old(trace) + [op] else old(trace)
    {
      ok := Call();
      if ok {
        rows := Step(rows, run, op);
        ApplyAppend(start, run, trace, op);
        trace := trace + [op];
      }
    }

    method Progress(current: nat, steps: nat) returns (ok: bool)
      modifies this`calls, this`progress, this`total
      ensures ok ==> progress == current && total == Max(steps, 1)
    {
      progress, total := current, if steps >= 1 then steps else 1;
      ok := Call();
    }

    /** One item of the read pass: the cancel check, the progress row, the upsert, the
        status of a row never tested.  A second result is the row's value afterwards. */
    method ReadItem(i: nat, steps: nat) returns (end: End, value: string)
      requires GoodWorld(w) && i < |w.known| && trace == ReadOps(w, i) && Consistent()
      modifies this`checks, this`calls, this`rows, this`trace, this`progress, this`total
      ensures Consistent()
      ensures end.Through? ==> trace == ReadOps(w, i + 1) && progress == i + 1 && total == Max(steps, 1)
      ensures end.Through? ==>
                value == if w.readings[i].Some? then w.readings[i].value else RowOr(old(rows), w.known[i].key).lastValue
      ensures !end.Through? ==> Unfinished(w, trace)
    {
      value := "";
      ReadStep(w, i, trace);
      var k := w.known[i].key;
      var go := CheckCancel();
      if !go { return Cancelled, value; }
      var ok := Progress(i + 1, steps);
      if !ok { return Raised, value; }
      ok := Write(Touch(k, w.readings[i]));
      if !ok { return Raised, value; }
      ApplyAppend(start, run, old(trace), Touch(k, w.readings[i]));
      value := rows[k].lastValue;
      if rows[k].status.NotTested? {
        ok := Write(Observe(k));
        if !ok { return Raised, value; }
      } else {
        ApplyAppend(start, run, trace, Observe(k));
        trace := trace + [Observe(k)];
      }
      end := Through;
    }

    /** The main pass over the known capabilities. */
    method ReadPass(prior: map<Key, string>, steps: nat)
      returns (end: End, vars: set<string>, added: nat, differing: nat)
      requires GoodWorld(w) && trace == [] && Consistent()
      requires forall k :: k in prior <==> k in Present(start)
      requires forall k :: k in prior ==> prior[k] == start[k].lastValue
      modifies this`checks, this`calls, this`rows, this`trace, this`progress, this`total
      ensures Consistent()
      ensures !end.Through? ==> Unfinished(w, trace)
      ensures end.Through? ==> trace == ReadOps(w, |w.known|) && vars == VarsOf(w.known, |w.known|)
      ensures end.Through? ==> added == NewCount(start, w, |w.known|) && differing == ChangedCount(start, w, |w.known|)
      ensures end.Through? && w.known != [] ==> progress == |w.known| && total == Max(steps, 1)
      ensures end.Through? && w.known == [] ==> progress == old(progress) && total == old(total)
    {
      end, vars, added, differing := Through, {}, 0, 0;
      for i := 0 to |w.known|
        invariant Consistent() && trace == ReadOps(w, i) && vars == VarsOf(w.known, i)
        invariant added == NewCount(start, w, i) && differing == ChangedCount(start, w, i)
        invariant i == 0 ==> progress == old(progress) && total == old(total)
        invariant i > 0 ==> progress == i && total == Max(steps, 1)
      {
        var k := w.known[i].key;
        KeysToAre(w, i, k);
        ValueBeforeTurn(start, run, w, i, k);
        var value;
        end, value := ReadItem(i, steps);
        if !end.Through? { return; }
        vars := vars + w.known[i].vars;
        if k !in prior {
          added := added + 1;
        } else if prior[k] != value {
          differing := differing + 1;
        }
      }
      end := Through;
    }

    /** Saving a test's result and its log row. */
    method Record(op: Op, entry: LogEntry) returns (ok: bool)
      requires Consistent()
      modifies this`calls, this`rows, this`trace, this`logs
      ensures Consistent()
      ensures ok ==> trace == old(trace) + [op] && logs == old(logs) + [entry]
      ensures !ok ==> trace == old(trace) || trace == old(trace) + [op]
    {
      ok := Write(op);
      if !ok { return; }
      ok := Call();
      if ok { logs := logs + [entry]; }
    }

    /** One active test.  A controller found disconnected is not addressed to: the row becomes
        unavailable and the test counts as failed. */
    method TestItem(i: nat, steps: nat) returns (end: End, success: bool)
      requires |w.trials| == |w.known| && i < |Tests(w)| && Consistent()
      modifies this`checks, this`calls, this`rows, this`trace, this`progress, this`total, this`logs, this`addressed
      ensures Consistent()
      ensures end.Through? ==> trace == old(trace) + [TestOp(w, i)]
      ensures end.Through? ==> progress == |w.known| + i + 1 && total == Max(steps, 1)
      ensures end.Through? ==> logs == old(logs) + [LogOf(w, i)] && success == LogOf(w, i).success
      ensures end.Through? || addressed != old(addressed) ==>
                addressed == old(addressed) + (if w.trials[i].before then [Tests(w)[i].key] else [])
      ensures !end.Through? ==> trace == old(trace) || trace == old(trace) + [TestOp(w, i)]
    {
      success := false;
      var k := Tests(w)[i].key;
      var go := CheckCancel();
      if !go { return Cancelled, success; }
      var ok := Progress(|w.known| + i + 1, steps);
      if !ok { return Raised, success; }
      ok := Call();
      if !ok { return Raised, success; }
      var t := w.trials[i];
      if !t.before {
        ok := Record(Tested(k, Unavailable), LogEntry(k, false, false));
        return if ok then Through else Raised, false;
      }
      addressed := addressed + [k];
      success := t.success;
      var status := if success then Passed else if !t.after then Unavailable else TestStatus.Failed;
      ok := Record(Tested(k, status), LogEntry(k, success, true));
      end := if ok then Through else Raised;
    }

    /** One more test on top of the first `i`. */
    method NextTest(i: nat, steps: nat) returns (end: End, success: bool)
      requires GoodWorld(w) && i < |Tests(w)| && Consistent()
      requires trace == UpToTests(w, i) && addressed == Addressed(w, i) && logs == LogsOf(w, i)
      modifies this`checks, this`calls, this`rows, this`trace, this`progress, this`total, this`logs, this`addressed
      ensures Consistent() && addressed <= Addressed(w, |Tests(w)|)
      ensures end.Through? ==> trace == UpToTests(w, i + 1) && addressed == Addressed(w, i + 1)
      ensures end.Through? ==> logs == LogsOf(w, i + 1)
      ensures end.Through? ==> progress == |w.known| + i + 1 && total == Max(steps, 1) && success == LogOf(w, i).success
      ensures !end.Through? ==> Unfinished(w, trace)
    {
      TestStep(w, i, trace);
      end, success := TestItem(i, steps);
    }

    method TestPass(steps: nat) returns (end: End, n: nat, good: nat, bad: nat)
      requires GoodWorld(w) && trace == UpToTests(w, 0) && Consistent() && logs == [] && addressed == []
      modifies this`checks, this`calls, this`rows, this`trace, this`progress, this`total, this`logs, this`addressed
      ensures Consistent()
      ensures addressed <= Addressed(w, |Tests(w)|)
      ensures end.Through? ==> trace == UpToTests(w, |Tests(w)|) && addressed == Addressed(w, |Tests(w)|)
      ensures end.Through? ==> n == good + bad == |Tests(w)| && good == PassedCount(w, |Tests(w)|)
      ensures end.Through? ==> logs == LogsOf(w, |Tests(w)|)
      ensures end.Through? && Tests(w) != [] ==> progress == |w.known| + |Tests(w)| && total == Max(steps, 1)
      ensures end.Through? && Tests(w) == [] ==> progress == old(progress) && total == old(total)
      ensures !end.Through? ==> Unfinished(w, trace)
    {
      end, n, good, bad := Through, 0, 0, 0;
      for i := 0 to |Tests(w)|
        invariant Consistent() && trace == UpToTests(w, i) && addressed == Addressed(w, i) && logs == LogsOf(w, i)
        invariant n == good + bad == i && good == PassedCount(w, i)
        invariant i > 0 ==> progress == |w.known| + i && total == Max(steps, 1)
        invariant i == 0 ==> progress == old(progress) && total == old(total)
        invariant end == Through
      {
        var success;
        end, success := NextTest(i, steps);
        if !end.Through? { return; }
        n := n + 1;
        if success { good := good + 1; } else { bad := bad + 1; }
      }
    }

    /** One symbol of the deep pass: a row if it is in a device list and no known capability
        touches it. */
    method ReportItem(i: nat, vars: set<string>) returns (end: End, reported: bool)
      requires i < |SymbolsOf(w)| && vars == VarsOf(w.known, |w.known|) && Consistent()
      modifies this`checks, this`calls, this`rows, this`trace
      ensures Consistent() && reported == (end.Through? && Reported(w, SymbolsOf(w)[i]))
      ensures trace == old(trace) + (if end.Through? then SymbolOp(w, i) else [])
    {
      var go := CheckCancel();
      if !go { return Cancelled, false; }
      var s := SymbolsOf(w)[i];
      if !(s.gvl in DEEP_SCAN_GVLS) { return Through, false; }
      if s.fullName == "" || s.fullName in vars { return Through, false; }
      var ok := Write(Unknown(SymbolKey(s)));
      return if ok then Through else Raised, ok;
    }

    method UnknownPass(vars: set<string>) returns (end: End, count: nat)
      requires GoodWorld(w) && w.mode.Deep? && trace == UpToTests(w, |Tests(w)|) && Consistent()
      requires vars == VarsOf(w.known, |w.known|)
      modifies this`checks, this`calls, this`rows, this`trace
      ensures Consistent()
      ensures end.Through? ==> trace == Body(w) && count == ReportedCount(w, |SymbolsOf(w)|)
      ensures !end.Through? ==> Unfinished(w, trace)
    {
      end, count := Through, 0;
      assert UpToSymbols(w, 0) == trace;
      SymbolPrefix(w, 0);
      if w.symbols.None? { return; }
      for i := 0 to |SymbolsOf(w)|
        invariant Consistent() && trace == UpToSymbols(w, i) && count == ReportedCount(w, i)
        invariant end == Through
      {
        SymbolStep(w, i, trace);
        var reported;
        end, reported := ReportItem(i, vars);
        if !end.Through? { return; }
        if reported { count := count + 1; }
      }
      SymbolPrefix(w, |SymbolsOf(w)|);
    }

    /** Rows still present but not seen by this run are counted and turned off; then the
        run's row is saved. */
    method RemovalPass() returns (end: End)
      requires Consistent()
      modifies this`calls, this`rows, this`trace, this`removed
      ensures Consistent() && !end.Cancelled?
      ensures trace == old(trace) || trace == old(trace) + [Remove]
      ensures end.Through? ==> trace == old(trace) + [Remove] && removed == |Removable(old(rows), run)|
    {
      var ok := Call();
      if !ok { return Raised; }
      removed := |Removable(rows, run)|;
      ok := Write(Remove);
      if !ok { return Raised; }
      ok := Call();
      return if ok then Through else Raised;
    }

    method ReadPhase(prior: map<Key, string>, steps: nat) returns (end: End, vars: set<string>)
      requires GoodWorld(w) && trace == [] && Consistent() && progress == total == 0
      requires forall k :: k in prior <==> k in Present(start)
      requires forall k :: k in prior ==> prior[k] == start[k].lastValue
      modifies this`checks, this`calls, this`rows, this`trace, this`progress, this`total
      modifies this`discovered, this`newCount, this`changed
      ensures Consistent()
      ensures !end.Through? ==> Unfinished(w, trace)
      ensures end.Through? ==> trace == UpToTests(w, 0) && vars == VarsOf(w.known, |w.known|)
      ensures end.Through? ==> discovered == |w.known| && newCount == NewCount(start, w, |w.known|)
      ensures end.Through? ==> changed == ChangedCount(start, w, |w.known|)
      ensures end.Through? ==> progress == |w.known| && total == if w.known == [] then 0 else Max(steps, 1)
    {
      var added, differing;
      end, vars, added, differing := ReadPass(prior, steps);
      if end.Through? {
        discovered, newCount, changed := |w.known|, added, differing;
        assert UpToTests(w, 0) == trace;
      }
    }

    method TestPhase(steps: nat) returns (end: End)
      requires GoodWorld(w) && trace == UpToTests(w, 0) && Consistent() && logs == [] && addressed == []
      requires progress == |w.known| && total == if w.known == [] then 0 else Max(steps, 1)
      requires tested == passed == failed == 0
      modifies this`checks, this`calls, this`rows, this`trace, this`progress, this`total, this`logs, this`addressed
      modifies this`tested, this`passed, this`failed
      ensures Consistent()
      ensures addressed <= Addressed(w, |Tests(w)|)
      ensures !end.Through? ==> Unfinished(w, trace)
      ensures end.Through? ==> trace == UpToTests(w, |Tests(w)|)
      ensures end.Through? ==> logs == LogsOf(w, |Tests(w)|) && addressed == Addressed(w, |Tests(w)|)
      ensures end.Through? ==> tested == passed + failed == |Tests(w)| && passed == PassedCount(w, |Tests(w)|)
      ensures end.Through? ==> progress == |w.known| + |Tests(w)| && total == if w.known == [] then 0 else Max(steps, 1)
    {
      NoTestsOfNothing(w);
      end := Through;
      if Active(w.mode) {
        var n, good, bad;
        end, n, good, bad := TestPass(steps);
        if end.Through? { tested, passed, failed := n, good, bad; }
      }
    }

    method SymbolPhase(vars: set<string>) returns (end: End)
      requires GoodWorld(w) && trace == UpToTests(w, |Tests(w)|) && Consistent()
      requires vars == VarsOf(w.known, |w.known|)
      modifies this`checks, this`calls, this`rows, this`trace, this`unknown
      ensures Consistent()
      ensures !end.Through? ==> Unfinished(w, trace)
      ensures end.Through? ==> trace == Body(w) && unknown == ReportedCount(w, |SymbolsOf(w)|)
    {
      end := Through;
      var count := 0;
      if w.mode.Deep? {
        end, count := UnknownPass(vars);
        if !end.Through? { return; }
      } else {
        assert trace == UpToSymbols(w, 0);
        SymbolPrefix(w, 0);
      }
      unknown := count;
    }

    /** The passes after the reads. */
    method TestAndSymbolPhases(vars: set<string>, steps: nat) returns (end: End)
      requires GoodWorld(w) && trace == UpToTests(w, 0) && Consistent() && logs == [] && addressed == []
      requires progress == |w.known| && total == if w.known == [] then 0 else Max(steps, 1)
      requires tested == passed == failed == 0
      requires steps == |w.known| + |Tests(w)| && vars == VarsOf(w.known, |w.known|)
      modifies this`checks, this`calls, this`rows, this`trace, this`progress, this`total, this`logs, this`addressed
      modifies this`tested, this`passed, this`failed, this`unknown
      ensures Consistent() && addressed <= Addressed(w, |Tests(w)|)
      ensures !end.Through? ==> Unfinished(w, trace)
      ensures end.Through? ==> trace == Body(w) && TestsAccounted() && unknown == ReportedCount(w, |SymbolsOf(w)|)
    {
      NoTestsOfNothing(w);
      end := TestPhase(steps);
      if end.Through? { end := SymbolPhase(vars); }
    }

    /** The passes in turn, ended by the first cancel or exception. */
    method RunPasses(prior: map<Key, string>) returns (end: End)
      requires GoodWorld(w) && trace == [] && Consistent() && progress == total == 0
      requires logs == [] && addressed == [] && tested == passed == failed == 0
      requires forall k :: k in prior <==> k in Present(start)
      requires forall k :: k in prior ==> prior[k] == start[k].lastValue
      modifies this`checks, this`calls, this`rows, this`trace, this`progress, this`total, this`logs, this`addressed
      modifies this`discovered, this`newCount, this`changed, this`tested, this`passed, this`failed, this`unknown
      ensures Consistent() && addressed <= Addressed(w, |Tests(w)|)
      ensures !end.Through? ==> Unfinished(w, trace)
      ensures end.Through? ==> trace == Body(w) && ReadsCounted() && TestsAccounted()
    {
      var steps := |w.known| + |Tests(w)|;
      var vars;
      end, vars := ReadPhase(prior, steps);
      if end.Through? { end := TestAndSymbolPhases(vars, steps); }
    }

    /** What was present before, and the registry; None: one of the calls raised. */
    method Prepare() returns (prior: Option<map<Key, string>>)
      modifies this`calls
      ensures prior.Some? ==> forall k :: k in prior.value <==> k in Present(rows)
      ensures prior.Some? ==> forall k :: k in prior.value ==> prior.value[k] == rows[k].lastValue
    {
      var ok := Call();
      if !ok { return None; }
      var values := map k | k in rows && rows[k].present :: rows[k].lastValue;
      if !reachable { return None; }
      ok := Call();
      return if ok then Some(values) else None;
    }

    /** _run_scan: what was present before, the registry, the passes, the removal. */
    method RunScan() returns (end: End)
      requires GoodWorld(w) && rows == start && trace == []
      requires logs == [] && addressed == [] && progress == total == 0 && tested == passed == failed == 0
      modifies this`checks, this`calls, this`rows, this`trace, this`progress, this`total, this`logs, this`addressed
      modifies this`discovered, this`newCount, this`changed, this`tested, this`passed, this`failed
      modifies this`unknown, this`removed
      ensures Consistent() && addressed <= Addressed(w, |Tests(w)|)
      ensures Unfinished(w, trace) || trace == Plan(w)
      ensures end.Cancelled? ==> Unfinished(w, trace)
      ensures end.Through? ==> trace == Plan(w) && ReadsCounted() && TestsAccounted()
      ensures end.Through? ==> removed == |Removable(Apply(start, run, Body(w)), run)|
    {
      ReadPrefix(w, 0, trace);
      var prior := Prepare();
      if prior.None? { return Raised; }
      end := RunPasses(prior.value);
      if end.Through? {
        SymbolPrefix(w, |SymbolsOf(w)|);
        end := RemovalPass();
      }
    }

    /** What a completed read, test and deep pass left on the run's row. */
    ghost predicate ReadsCounted()
      reads this
      requires GoodWorld(w)
    {
      && discovered == |w.known| && newCount == NewCount(start, w, |w.known|)
      && changed == ChangedCount(start, w, |w.known|) && unknown == ReportedCount(w, |SymbolsOf(w)|)
    }

    /** Every test was logged once, and the last progress step is the last step. */
    ghost predicate TestsAccounted()
      reads this
      requires GoodWorld(w)
    {
      && tested == passed + failed == |Tests(w)| && passed == PassedCount(w, |Tests(w)|)
      && logs == LogsOf(w, |Tests(w)|) && addressed == Addressed(w, |Tests(w)|)
      && progress == total == |w.known| + |Tests(w)|
    }

    /** The same without the plan: how many devices were tested, which and with what verdict,
        and how the counts add up item by item.  Test `place` is that of the item with `place`
        outputs with a safe test in front of it. */
    ghost predicate TestsSpelledOut()
      reads this
      requires GoodWorld(w)
    {
      && |logs| == tested == (if w.mode.Full? || w.mode.Deep? then Min(60, |TestableBefore(w.known, |w.known|)|) else 0)
      && (forall i :: i in TestableBefore(w.known, |w.known|) && |TestableBefore(w.known, i)| < tested ==>
           var place := |TestableBefore(w.known, i)|;
           && place < |w.trials|
           && logs[place] == LogEntry(w.known[i].key, w.trials[place].before && w.trials[place].success,
                                      w.trials[place].before))
      && passed == |GoodLogs(logs)|
      && tested == passed + failed
    }

    ghost predicate CountsSpelledOut()
      reads this
      requires GoodWorld(w)
    {
      && changed == |ChangedBefore(start, w, |w.known|)|
      && unknown == |NewSymbolsBefore(w, |SymbolsOf(w)|)|
    }

    lemma SpellOut()
      requires GoodWorld(w) && ReadsCounted() && TestsAccounted()
      ensures TestsSpelledOut() && CountsSpelledOut()
    {
      TestsExactly(w);
      PassedAreGood(w, |Tests(w)|);
      forall j | 0 <= j < |logs| ensures logs[j] == LogOf(w, j) { LogsAre(w, |Tests(w)|, j); }
      ChangedCountIs(start, w, |w.known|);
      ReportedCountIs(w, |SymbolsOf(w)|);
    }

    /** A scan carried through has balanced counts. */
    method RunBalanced() returns (end: End)
      requires GoodWorld(w) && Unseen(start, run) && rows == start && trace == []
      requires logs == [] && addressed == [] && progress == total == 0 && tested == passed == failed == 0
      modifies this`checks, this`calls, this`rows, this`trace, this`progress, this`total, this`logs, this`addressed
      modifies this`discovered, this`newCount, this`changed, this`tested, this`passed, this`failed
      modifies this`unknown, this`removed
      ensures Consistent() && addressed <= Addressed(w, |Tests(w)|)
      ensures Unfinished(w, trace) || trace == Plan(w)
      ensures end.Cancelled? ==> Unfinished(w, trace)
      ensures end.Through? ==> trace == Plan(w) && Balanced() && TestsAccounted()
      ensures end.Through? ==> TestsSpelledOut() && CountsSpelledOut()
    {
      end := RunScan();
      if end.Through? {
        CountsBalance(start, run, w);
        SpellOut();
      }
    }

    /** execute: the scan, and how it ended on the run's row. */
    method Execute()
      requires GoodWorld(w) && Unseen(start, run) && rows == start && trace == []
      requires logs == [] && addressed == [] && progress == total == 0 && tested == passed == failed == 0
      modifies this
      ensures rows == Apply(start, run, trace) && trace <= Plan(w)
      ensures status.Completed? ==> trace == Plan(w) && Balanced() && TestsAccounted() && tested <= MAX_ACTIVE_TESTS
      ensures status.Completed? ==> TestsSpelledOut() && CountsSpelledOut()
      ensures status.Stopped? ==> trace != Plan(w)
      ensures !status.Running?
      ensures addressed <= Addressed(w, |Tests(w)|) && (!Active(w.mode) ==> addressed == [])
    {
      var end := RunBalanced();
      NoTestsOfNothing(w);
      status := match end case Through => Completed case Cancelled => Stopped case Raised => Status.Failed;
    }

    ghost predicate Balanced()
      reads this
      requires GoodWorld(w)
    {
      BalancedCounts(start, rows, w, discovered, newCount, removed, unknown)
    }
  }

  /** The counts of a completed run: what is present afterwards is what the scan touched, and
      present before, plus new, minus removed, is the number of known capabilities, with the
      newly reported symbols of a deep scan on top. */
  ghost predicate BalancedCounts(before: Rows, after: Rows, w: World, discovered: nat, added: nat, removed: nat,
                                 unknown: nat)
    requires GoodWorld(w)
  {
    && Present(after) == KnownKeys(w) + SymbolKeys(w)
    && removed == |Present(before) - Present(after)|
    && discovered == |w.known| == |KnownKeys(w)|
    && |Present(before)| + added + |SymbolKeys(w) - Present(before)| - removed == |Present(after)|
    && |Present(after)| == discovered + |SymbolKeys(w)|
    && |SymbolKeys(w)| <= unknown
    && (!w.mode.Deep? ==> SymbolKeys(w) == {} && unknown == 0)
  }

  lemma CountsBalance(before: Rows, run: RunId, w: World)
    requires GoodWorld(w) && Unseen(before, run)
    ensures BalancedCounts(before, Apply(before, run, Plan(w)), w, |w.known|, NewCount(before, w, |w.known|),
                           |Removable(Apply(before, run, Body(w)), run)|, ReportedCount(w, |SymbolsOf(w)|))
  {
    ScanBalance(before, run, w);
  }

  lemma NoTestsOfNothing(w: World)
    ensures w.known == [] ==> Tests(w) == []
    ensures |Tests(w)| <= MAX_ACTIVE_TESTS && (!Active(w.mode) ==> Tests(w) == [])
  {
  }
}
