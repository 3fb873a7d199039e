/** What scans do to the capability rows: which rows stay present, how the counts of one run
    add up, and what any history of runs leaves as a row's value. */
module ScanLaws {
  import opened Common
  import opened ScanRows

  // ---- Which rows a plan touches ----

  /** The keys of the first `n` known items. */
  function KeysTo(w: World, n: nat): set<Key>
    requires n <= |w.known|
  {
    if n == 0 then {} else KeysTo(w, n - 1) + {w.known[n - 1].key}
  }

  function KnownKeys(w: World): set<Key> {
    KeysTo(w, |w.known|)
  }

  /** The keys of the symbols reported among the first `n`. */
  function SymbolKeysTo(w: World, n: nat): set<Key>
    requires n <= |SymbolsOf(w)|
  {
    if n == 0 then {}
    else SymbolKeysTo(w, n - 1) + (if Reported(w, SymbolsOf(w)[n - 1]) then {SymbolKey(SymbolsOf(w)[n - 1])} else {})
  }

  function SymbolKeys(w: World): set<Key> {
    SymbolKeysTo(w, |SymbolsOf(w)|)
  }

  lemma {:induction false} KeysToAre(w: World, n: nat, k: Key)
    requires n <= |w.known|
    ensures k in KeysTo(w, n) <==> exists i :: 0 <= i < n && w.known[i].key == k
  {
    if n > 0 { KeysToAre(w, n - 1, k); }
  }

  lemma {:induction false} SymbolKeysToKind(w: World, n: nat)
    requires n <= |SymbolsOf(w)|
    ensures forall k :: k in SymbolKeysTo(w, n) ==> k.kind.UnknownSymbol?
    ensures |SymbolKeysTo(w, n)| <= ReportedCount(w, n)
  {
    if n > 0 { SymbolKeysToKind(w, n - 1); }
  }

  lemma {:induction false} TouchedConcat(a: seq<Op>, b: seq<Op>)
    ensures Touched(a + b) == Touched(a) + Touched(b)
    decreases |b|
  {
    if b == [] {
      assert a + b == a;
    } else {
      var n := |b| - 1;
      assert (a + b)[..|a + b| - 1] == a + b[..n];
      TouchedConcat(a, b[..n]);
    }
  }

  lemma {:induction false} TouchedByReads(w: World, n: nat)
    requires n <= |w.known| && |w.readings| == |w.known|
    ensures Touched(ReadOps(w, n)) == KeysTo(w, n)
    ensures NoRemove(ReadOps(w, n))
  {
    if n > 0 {
      TouchedByReads(w, n - 1);
      var ops := [Touch(w.known[n - 1].key, w.readings[n - 1]), Observe(w.known[n - 1].key)];
      TouchedConcat(ReadOps(w, n - 1), ops);
      assert ops[..1] == [ops[0]] && ops[..1][..0] == [];
      assert Touched(ops[..1]) == TouchedBy(ops[0]);
    }
  }

  lemma {:induction false} TouchedByTests(w: World, n: nat)
    requires n <= |Tests(w)| && |w.trials| == |w.known|
    ensures Touched(TestOps(w, n)) == {} && NoRemove(TestOps(w, n))
  {
    if n > 0 {
      TouchedByTests(w, n - 1);
      TouchedConcat(TestOps(w, n - 1), [Tested(Tests(w)[n - 1].key, StatusOf(w.trials[n - 1]))]);
    }
  }

  lemma {:induction false} TouchedBySymbols(w: World, n: nat)
    requires n <= |SymbolsOf(w)|
    ensures Touched(SymbolOps(w, n)) == SymbolKeysTo(w, n)
    ensures NoRemove(SymbolOps(w, n))
  {
    if n > 0 {
      TouchedBySymbols(w, n - 1);
      TouchedByOneMore(SymbolOps(w, n - 1), w, SymbolsOf(w)[n - 1]);
    }
  }

  lemma TouchedByOneMore(ops: seq<Op>, w: World, s: Symbol)
    requires NoRemove(ops)
    ensures var more := if Reported(w, s) then [Unknown(SymbolKey(s))] else [];
            NoRemove(ops + more) && Touched(ops + more) == Touched(ops) + if Reported(w, s) then {SymbolKey(s)} else {}
  {
    if Reported(w, s) {
      var op := Unknown(SymbolKey(s));
      assert (ops + [op])[..|ops|] == ops;
    } else {
      assert ops + [] == ops;
    }
  }

  /** A scan touches the known capabilities and the symbols it reports, and removes last. */
  lemma TouchedByBody(w: World)
    requires GoodWorld(w)
    ensures Touched(Body(w)) == KnownKeys(w) + SymbolKeys(w) && NoRemove(Body(w))
  {
    var readOps, testOps, symbolOps := ReadOps(w, |w.known|), TestOps(w, |Tests(w)|), SymbolOps(w, |SymbolsOf(w)|);
    TouchedByReads(w, |w.known|);
    TouchedByTests(w, |Tests(w)|);
    TouchedBySymbols(w, |SymbolsOf(w)|);
    TouchedConcat(readOps, testOps);
    TouchedConcat(readOps + testOps, symbolOps);
  }

  // ---- One run ----

  /** new_since_last over the first `n` items: those not present before. */
  function NewCount(rows: Rows, w: World, n: nat): nat
    requires n <= |w.known|
  {
    if n == 0 then 0 else NewCount(rows, w, n - 1) + (if w.known[n - 1].key in Present(rows) then 0 else 1)
  }

  /** changed_since_last: present before, read now, and the value differs. */
  function ChangedCount(rows: Rows, w: World, n: nat): nat
    requires n <= |w.known| && |w.readings| == |w.known|
  {
    if n == 0 then 0
    else
      var k := w.known[n - 1].key;
      ChangedCount(rows, w, n - 1) +
      (if k in Present(rows) && w.readings[n - 1].Some? && w.readings[n - 1].value != rows[k].lastValue then 1 else 0)
  }

  /** unknown_count: symbols reported, which may share a key. */
  function ReportedCount(w: World, n: nat): nat
    requires n <= |SymbolsOf(w)|
  {
    if n == 0 then 0 else ReportedCount(w, n - 1) + (if Reported(w, SymbolsOf(w)[n - 1]) then 1 else 0)
  }

  lemma AddOne(before: set<Key>, k: Key, p: set<Key>)
    requires k !in before
    ensures |before + {k}| == |before| + 1
    ensures |before + {k} - p| == |before - p| + if k in p then 0 else 1
  {
    if k in p {
      assert before + {k} - p == before - p;
    } else {
      assert before + {k} - p == (before - p) + {k};
    }
  }

  lemma {:induction false} KeysToSize(w: World, n: nat)
    requires n <= |w.known| && DistinctKeys(w.known)
    ensures |KeysTo(w, n)| == n
    ensures n < |w.known| ==> w.known[n].key !in KeysTo(w, n)
  {
    if n < |w.known| { KeysToAre(w, n, w.known[n].key); }
    if n > 0 {
      KeysToSize(w, n - 1);
      AddOne(KeysTo(w, n - 1), w.known[n - 1].key, {});
    }
  }

  lemma {:induction false} NewCountIsSize(rows: Rows, w: World, n: nat)
    requires n <= |w.known| && DistinctKeys(w.known)
    ensures NewCount(rows, w, n) == |KeysTo(w, n) - Present(rows)|
  {
    if n > 0 {
      NewCountIsSize(rows, w, n - 1);
      KeysToSize(w, n - 1);
      AddOne(KeysTo(w, n - 1), w.known[n - 1].key, Present(rows));
    }
  }

  lemma KnownAndSymbolsApart(w: World)
    requires GoodWorld(w)
    ensures KnownKeys(w) !! SymbolKeys(w)
  {
    SymbolKeysToKind(w, |SymbolsOf(w)|);
    forall k | k in KnownKeys(w) ensures !k.kind.UnknownSymbol? {
      KeysToAre(w, |w.known|, k);
    }
  }

  lemma SetSizes(p: set<Key>, k: set<Key>, u: set<Key>)
    requires k !! u
    ensures |p| + |k - p| + |u - p| - |p - (k + u)| == |k| + |u|
  {
    assert |k + u| == |k| + |u|;
    assert p + (k - p) + (u - p) == p + k + u;
    assert |p + (k - p)| == |p| + |k - p|;
    assert |p + (k - p) + (u - p)| == |p + (k - p)| + |u - p|;
    assert p + k + u == (k + u) + (p - (k + u));
    assert |(k + u) + (p - (k + u))| == |k + u| + |p - (k + u)|;
  }

  /** A completed scan leaves present exactly the rows it touched, and its counts balance:
      present before, plus new, minus removed, is the number of known capabilities.  In a
      deep scan the symbols not present before come on top on the left and all symbols on
      the right, as new_since_last does not count them. */
  lemma ScanBalance(rows: Rows, run: RunId, w: World)
    requires GoodWorld(w) && Unseen(rows, run)
    ensures var after := Apply(rows, run, Plan(w));
            var removed := Removable(Apply(rows, run, Body(w)), run);
            && Present(after) == KnownKeys(w) + SymbolKeys(w)
            && removed == Present(rows) - Present(after)
            && |KnownKeys(w)| == |w.known|
            && |Present(after)| == |w.known| + |SymbolKeys(w)|
            && |Present(rows)| + NewCount(rows, w, |w.known|) + |SymbolKeys(w) - Present(rows)| - |removed|
               == |Present(after)|
            && (!w.mode.Deep? ==> SymbolKeys(w) == {})
            && |SymbolKeys(w)| <= ReportedCount(w, |SymbolsOf(w)|)
  {
    TouchedByBody(w);
    PresentAfterScan(rows, run, Body(w));
    RemovableIsUntouched(rows, run, Body(w));
    NewCountIsSize(rows, w, |w.known|);
    KeysToSize(w, |w.known|);
    SymbolKeysToKind(w, |SymbolsOf(w)|);
    KnownAndSymbolsApart(w);
    SetSizes(Present(rows), KnownKeys(w), SymbolKeys(w));
  }

  // ---- Runs that stop ----

  /** A run that was stopped or failed before the removal pass turns no row off, and marks
      present exactly the rows it got to. */
  lemma StoppedRunKeepsPresent(rows: Rows, run: RunId, w: World, ops: seq<Op>)
    requires GoodWorld(w) && Unseen(rows, run) && ops <= Plan(w) && ops != Plan(w)
    ensures Present(Apply(rows, run, ops)) == Present(rows) + Touched(ops)
  {
    TouchedByBody(w);
    assert NoRemove(ops) by {
      forall i | 0 <= i < |ops| ensures !ops[i].Remove? { assert ops[i] == Plan(w)[i] == Body(w)[i]; }
    }
    forall k ensures k in Present(Apply(rows, run, ops)) <==> k in Present(rows) + Touched(ops) {
      MarksAreTouches(rows, run, ops, k);
    }
  }

  // ---- Histories ----

  /** One run of a history: what it met and the operations it got to carry out. */
  datatype Run = Run(id: RunId, world: World, ops: seq<Op>)

  ghost predicate ScanOf(r: Run) {
    GoodWorld(r.world) && r.ops <= Plan(r.world)
  }

  function RunAll(rows: Rows, runs: seq<Run>): Rows {
    if runs == [] then rows else Apply(RunAll(rows, runs[..|runs| - 1]), runs[|runs| - 1].id, runs[|runs| - 1].ops)
  }

  /** The most recent successful reading of `k` among the operations, or what was there. */
  function Latest(ops: seq<Op>, k: Key, was: string): string {
    if ops == [] then was
    else
      match ops[|ops| - 1]
      case Touch(k', Some(v)) => if k' == k then v else Latest(ops[..|ops| - 1], k, was)
      case _ => Latest(ops[..|ops| - 1], k, was)
  }

  function LatestOfRuns(runs: seq<Run>, k: Key, was: string): string {
    if runs == [] then was else Latest(runs[|runs| - 1].ops, k, LatestOfRuns(runs[..|runs| - 1], k, was))
  }

  /** Whether the last reading of `k` succeeded. */
  function LastReadOk(ops: seq<Op>, k: Key, was: bool): bool {
    if ops == [] then was
    else
      match ops[|ops| - 1]
      case Touch(k', r) => if k' == k then r.Some? else LastReadOk(ops[..|ops| - 1], k, was)
      case _ => LastReadOk(ops[..|ops| - 1], k, was)
  }

  ghost predicate SymbolsOnly(ops: seq<Op>) {
    forall i :: 0 <= i < |ops| && ops[i].Unknown? ==> ops[i].key.kind.UnknownSymbol?
  }

  lemma {:induction false} ValueAfterOps(rows: Rows, run: RunId, ops: seq<Op>, k: Key)
    requires SymbolsOnly(ops) && !k.kind.UnknownSymbol?
    ensures RowOr(Apply(rows, run, ops), k).lastValue == Latest(ops, k, RowOr(rows, k).lastValue)
    ensures RowOr(Apply(rows, run, ops), k).high == LastReadOk(ops, k, RowOr(rows, k).high)
    decreases |ops|
  {
    if ops != [] {
      var n := |ops| - 1;
      assert SymbolsOnly(ops[..n]) by {
        forall i | 0 <= i < n && ops[..n][i].Unknown? ensures ops[..n][i].key.kind.UnknownSymbol? {
          assert ops[i].Unknown?;
        }
      }
      ValueAfterOps(rows, run, ops[..n], k);
      assert ops[n].Unknown? ==> ops[n].key != k;
    }
  }

  lemma {:induction false} SymbolOpsOnly(w: World, n: nat)
    requires n <= |SymbolsOf(w)|
    ensures SymbolsOnly(SymbolOps(w, n))
  {
    if n > 0 { SymbolOpsOnly(w, n - 1); }
  }

  lemma {:induction false} ReadOpsOnly(w: World, n: nat)
    requires n <= |w.known| && |w.readings| == |w.known|
    ensures SymbolsOnly(ReadOps(w, n))
  {
    if n > 0 { ReadOpsOnly(w, n - 1); }
  }

  lemma {:induction false} TestOpsOnly(w: World, n: nat)
    requires n <= |Tests(w)| && |w.trials| == |w.known|
    ensures SymbolsOnly(TestOps(w, n))
  {
    if n > 0 { TestOpsOnly(w, n - 1); }
  }

  lemma PlanSymbolsOnly(w: World, ops: seq<Op>)
    requires GoodWorld(w) && ops <= Plan(w)
    ensures SymbolsOnly(ops)
  {
    ReadOpsOnly(w, |w.known|);
    TestOpsOnly(w, |Tests(w)|);
    SymbolOpsOnly(w, |SymbolsOf(w)|);
    assert SymbolsOnly(Plan(w));
    forall i | 0 <= i < |ops| && ops[i].Unknown? ensures ops[i].key.kind.UnknownSymbol? {
      assert ops[i] == Plan(w)[i];
    }
  }

  /** After any history of scans, completed, stopped or failed, with any readings failing, a
      known capability's value is its most recent successful reading. */
  lemma {:induction false} ValueIsLatestReading(rows: Rows, runs: seq<Run>, k: Key)
    requires forall i :: 0 <= i < |runs| ==> ScanOf(runs[i])
    requires !k.kind.UnknownSymbol?
    ensures RowOr(RunAll(rows, runs), k).lastValue == LatestOfRuns(runs, k, RowOr(rows, k).lastValue)
    decreases |runs|
  {
    if runs != [] {
      var n := |runs| - 1;
      ValueIsLatestReading(rows, runs[..n], k);
      PlanSymbolsOnly(runs[n].world, runs[n].ops);
      ValueAfterOps(RunAll(rows, runs[..n]), runs[n].id, runs[n].ops, k);
    }
  }

  /** A row's confidence is high exactly when the last reading made of it succeeded. */
  lemma ConfidenceIsLastRead(rows: Rows, r: Run, k: Key)
    requires ScanOf(r) && !k.kind.UnknownSymbol?
    ensures RowOr(Apply(rows, r.id, r.ops), k).high == LastReadOk(r.ops, k, RowOr(rows, k).high)
  {
    PlanSymbolsOnly(r.world, r.ops);
    ValueAfterOps(rows, r.id, r.ops, k);
  }

  /** A run with a new id finds no row marked with it, whatever ran before. */
  lemma {:induction false} NewRunUnseen(rows: Rows, runs: seq<Run>, id: RunId)
    requires Unseen(rows, id) && forall i :: 0 <= i < |runs| ==> runs[i].id != id
    ensures Unseen(RunAll(rows, runs), id)
    decreases |runs|
  {
    if runs != [] {
      var n := |runs| - 1;
      NewRunUnseen(rows, runs[..n], id);
      OpsLeaveUnseen(RunAll(rows, runs[..n]), runs[n].id, runs[n].ops, id);
    }
  }

  lemma {:induction false} OpsLeaveUnseen(rows: Rows, run: RunId, ops: seq<Op>, id: RunId)
    requires Unseen(rows, id) && run != id
    ensures Unseen(Apply(rows, run, ops), id)
    decreases |ops|
  {
    if ops != [] { OpsLeaveUnseen(rows, run, ops[..|ops| - 1], id); }
  }

  // ---- Readings within one run ----

  /** Until its own turn comes, a capability's row keeps the value it had before the run. */
  lemma {:induction false} ValueBeforeTurn(rows: Rows, run: RunId, w: World, n: nat, k: Key)
    requires GoodWorld(w) && n <= |w.known| && k !in KeysTo(w, n)
    ensures RowOr(Apply(rows, run, ReadOps(w, n)), k).lastValue == RowOr(rows, k).lastValue
  {
    if n > 0 {
      ValueBeforeTurn(rows, run, w, n - 1, k);
      ReadsNext(rows, run, w, n);
    }
  }

  // ---- The tests of one run ----

  function PassedCount(w: World, n: nat): nat
    requires n <= |Tests(w)| && |w.trials| == |w.known|
  {
    if n == 0 then 0 else PassedCount(w, n - 1) + (if w.trials[n - 1].before && w.trials[n - 1].success then 1 else 0)
  }

  /** The devices whose active test the first `n` tests begin: those found connected. */
  function Addressed(w: World, n: nat): seq<Key>
    requires n <= |Tests(w)| && |w.trials| == |w.known|
  {
    if n == 0 then [] else Addressed(w, n - 1) + (if w.trials[n - 1].before then [Tests(w)[n - 1].key] else [])
  }

  /** The keys addressed are those of the tests that found the controller connected. */
  lemma {:induction false} AddressedFrom(w: World, n: nat, k: Key)
    requires n <= |Tests(w)| && |w.trials| == |w.known|
    ensures k in Addressed(w, n) <==> exists i :: 0 <= i < n && Tests(w)[i].key == k && w.trials[i].before
  {
    if n > 0 { AddressedFrom(w, n - 1, k); }
  }

  // ---- The counts and the rows, item by item ----

  /** Item `i` was present before, its reading answered, and the value differs from the one on
      the row. */
  ghost predicate Changed(rows: Rows, w: World, i: nat)
    requires i < |w.known| == |w.readings|
  {
    var k := w.known[i].key;
    k in rows && rows[k].present && w.readings[i].Some? && w.readings[i].value != rows[k].lastValue
  }

  ghost function ChangedBefore(rows: Rows, w: World, n: nat): set<nat>
    requires n <= |w.known| == |w.readings|
  {
    set i: nat | i < n && Changed(rows, w, i)
  }

  lemma ChangedNext(rows: Rows, w: World, n: nat)
    requires n < |w.known| == |w.readings|
    ensures |ChangedBefore(rows, w, n + 1)| == |ChangedBefore(rows, w, n)| + if Changed(rows, w, n) then 1 else 0
  {
    OneMorePlace(ChangedBefore(rows, w, n), ChangedBefore(rows, w, n + 1), n, Changed(rows, w, n));
  }

  /** The changed count is the number of such items. */
  lemma {:induction false} ChangedCountIs(rows: Rows, w: World, n: nat)
    requires n <= |w.known| == |w.readings|
    ensures ChangedCount(rows, w, n) == |ChangedBefore(rows, w, n)|
  {
    if n > 0 {
      ChangedCountIs(rows, w, n - 1);
      ChangedNext(rows, w, n - 1);
    } else {
      assert ChangedBefore(rows, w, 0) == {};
    }
  }

  /** Symbol `i` is in one of the device lists, has a name, and no known item touches it. */
  ghost predicate NewSymbol(w: World, i: nat)
    requires i < |SymbolsOf(w)|
  {
    var s := SymbolsOf(w)[i];
    && s.gvl in {"gvlDALI", "gvlDALI_State", "gvlController", "gvlCurtain", "GVL",
                 "GVL_DALI", "GVL_Relay", "GVL_Bilding"}
    && s.fullName != ""
    && forall j :: 0 <= j < |w.known| ==> s.fullName !in w.known[j].vars
  }

  lemma {:induction false} VarsOfAre(known: seq<Item>, n: nat, v: string)
    requires n <= |known|
    ensures v in VarsOf(known, n) <==> exists j :: 0 <= j < n && v in known[j].vars
  {
    if n > 0 { VarsOfAre(known, n - 1, v); }
  }

  lemma {:induction false} ReportedIs(w: World, i: nat)
    requires i < |SymbolsOf(w)|
    ensures Reported(w, SymbolsOf(w)[i]) <==> NewSymbol(w, i)
  {
    VarsOfAre(w.known, |w.known|, SymbolsOf(w)[i].fullName);
  }

  ghost function NewSymbolsBefore(w: World, n: nat): set<nat>
    requires n <= |SymbolsOf(w)|
  {
    set i: nat | i < n && NewSymbol(w, i)
  }

  /** The unknown count is the number of new symbols. */
  lemma {:induction false} ReportedCountIs(w: World, n: nat)
    requires n <= |SymbolsOf(w)|
    ensures ReportedCount(w, n) == |NewSymbolsBefore(w, n)|
  {
    if n > 0 {
      ReportedCountIs(w, n - 1);
      ReportedIs(w, n - 1);
      OneMorePlace(NewSymbolsBefore(w, n - 1), NewSymbolsBefore(w, n), n - 1, NewSymbol(w, n - 1));
    } else {
      assert NewSymbolsBefore(w, 0) == {};
    }
  }

  /** The rows a deep scan reports: the new symbols, under the first hundred characters of
      their names. */
  lemma {:induction false} SymbolKeysAre(w: World, n: nat, k: Key)
    requires n <= |SymbolsOf(w)|
    ensures k in SymbolKeysTo(w, n) <==>
            exists i :: 0 <= i < n && NewSymbol(w, i) &&
              k == Key(UnknownSymbol, Text(if |SymbolsOf(w)[i].fullName| <= 100 then SymbolsOf(w)[i].fullName
                                           else SymbolsOf(w)[i].fullName[..100]))
  {
    if n > 0 {
      SymbolKeysAre(w, n - 1, k);
      ReportedIs(w, n - 1);
    }
  }

  lemma {:induction false} ApplyConcat(rows: Rows, run: RunId, a: seq<Op>, b: seq<Op>)
    ensures Apply(rows, run, a + b) == Apply(Apply(rows, run, a), run, b)
    decreases |b|
  {
    if b == [] {
      assert a + b == a;
    } else {
      var n := |b| - 1;
      ApplyConcat(rows, run, a, b[..n]);
      assert a + b == (a + b[..n]) + [b[n]];
      ApplyAppend(rows, run, a + b[..n], b[n]);
    }
  }

  /** The two operations on an item: its row is there, its status no longer "not tested". */
  lemma StatusAfterRead(rows: Rows, run: RunId, key: Key, reading: Option<string>, k: Key)
    ensures var rows' := Step(Step(rows, run, Touch(key, reading)), run, Observe(key));
            && (k != key ==> RowOr(rows', k) == RowOr(rows, k) && (k in rows' <==> k in rows))
            && key in rows' && rows'[key].effect == RowOr(rows, key).effect
            && rows'[key].status ==
               if RowOr(rows, key).status.NotTested? then Observed else RowOr(rows, key).status
  {
  }

  /** The read pass leaves a row never tested before as observed, and no other status changed. */
  lemma {:induction false} StatusAfterReads(rows: Rows, run: RunId, w: World, n: nat, k: Key)
    requires n <= |w.known| && |w.readings| == |w.known|
    ensures var row, row' := RowOr(rows, k), RowOr(Apply(rows, run, ReadOps(w, n)), k);
            && row'.effect == row.effect
            && row'.status == (if k in KeysTo(w, n) && row.status.NotTested? then Observed else row.status)
            && (k in KeysTo(w, n) ==> k in Apply(rows, run, ReadOps(w, n)))
  {
    if n > 0 {
      StatusAfterReads(rows, run, w, n - 1, k);
      ReadsNext(rows, run, w, n);
      StatusAfterRead(Apply(rows, run, ReadOps(w, n - 1)), run, w.known[n - 1].key, w.readings[n - 1], k);
    }
  }

  lemma ReadsNext(rows: Rows, run: RunId, w: World, n: nat)
    requires 0 < n <= |w.known| && |w.readings| == |w.known|
    ensures var before := Apply(rows, run, ReadOps(w, n - 1));
            var key := w.known[n - 1].key;
            Apply(rows, run, ReadOps(w, n)) == Step(Step(before, run, Touch(key, w.readings[n - 1])), run, Observe(key))
  {
    var a, b := Touch(w.known[n - 1].key, w.readings[n - 1]), Observe(w.known[n - 1].key);
    assert ReadOps(w, n) == (ReadOps(w, n - 1) + [a]) + [b];
    ApplyAppend(rows, run, ReadOps(w, n - 1), a);
    ApplyAppend(rows, run, ReadOps(w, n - 1) + [a], b);
  }

  /** What a row is once test `i` was made of it. */
  ghost predicate TestedAs(w: World, i: nat, row: Row, row': Row)
    requires i < |w.trials|
  {
    var t := w.trials[i];
    && (row'.status == Passed <==> t.before && t.success)
    && (row'.status == Failed <==> t.before && !t.success && t.after)
    && (row'.status == Unavailable <==> !t.before || (!t.success && !t.after))
    && (row'.effect <==> row.effect || (t.before && t.success))
  }

  lemma {:induction false} StatusAfterTests(rows: Rows, run: RunId, w: World, n: nat, i: nat)
    requires n <= |Tests(w)| && i < |Tests(w)| && |w.trials| == |w.known| && DistinctKeys(Tests(w))
    requires Tests(w)[i].key in rows
    ensures var k := Tests(w)[i].key;
            var rows' := Apply(rows, run, TestOps(w, n));
            && k in rows'
            && (n <= i ==> rows'[k] == rows[k])
            && (i < n ==> TestedAs(w, i, rows[k], rows'[k]))
  {
    if n > 0 {
      StatusAfterTests(rows, run, w, n - 1, i);
      ApplyAppend(rows, run, TestOps(w, n - 1), Tested(Tests(w)[n - 1].key, StatusOf(w.trials[n - 1])));
      assert n - 1 != i ==> Tests(w)[n - 1].key != Tests(w)[i].key;
    }
  }

  lemma {:induction false} StatusUntested(rows: Rows, run: RunId, w: World, n: nat, k: Key)
    requires n <= |Tests(w)| && |w.trials| == |w.known|
    requires forall i :: 0 <= i < n ==> Tests(w)[i].key != k
    ensures RowOr(Apply(rows, run, TestOps(w, n)), k) == RowOr(rows, k)
  {
    if n > 0 {
      StatusUntested(rows, run, w, n - 1, k);
      ApplyAppend(rows, run, TestOps(w, n - 1), Tested(Tests(w)[n - 1].key, StatusOf(w.trials[n - 1])));
    }
  }

  /** The deep pass does not touch the row of a known item. */
  lemma {:induction false} KnownKeptBySymbols(rows: Rows, run: RunId, w: World, n: nat, k: Key)
    requires n <= |SymbolsOf(w)| && !k.kind.UnknownSymbol?
    ensures RowOr(Apply(rows, run, SymbolOps(w, n)), k) == RowOr(rows, k)
  {
    if n > 0 {
      KnownKeptBySymbols(rows, run, w, n - 1, k);
      var s := SymbolsOf(w)[n - 1];
      if Reported(w, s) {
        ApplyAppend(rows, run, SymbolOps(w, n - 1), Unknown(SymbolKey(s)));
      } else {
        assert SymbolOps(w, n) == SymbolOps(w, n - 1);
      }
    }
  }

  lemma TestsDistinct(w: World)
    requires DistinctKeys(w.known)
    ensures DistinctKeys(Tests(w))
  {
    WritableDistinct(w.known);
  }

  /** Item `i` is among the first sixty outputs with a safe test, in a scan that tests. */
  ghost predicate GetsTested(w: World, i: nat)
    requires i < |w.known|
  {
    (w.mode.Full? || w.mode.Deep?) && i in TestableBefore(w.known, |w.known|) && |TestableBefore(w.known, i)| < 60
  }

  lemma GetsTestedAt(w: World, i: nat)
    requires i < |w.known|
    ensures GetsTested(w, i) <==> i in TestableBefore(w.known, |w.known|) && |TestableBefore(w.known, i)| < |Tests(w)|
  {
    TestsExactly(w);
    WritableAt(w.known, |w.known|);
    assert w.known[..|w.known|] == w.known;
  }

  /** The status a completed scan leaves on the row of item `i`: the verdict of its test if it
      was tested; else observed, or what an earlier scan left there. */
  lemma StatusAfterScan(rows: Rows, run: RunId, w: World, i: nat)
    requires GoodWorld(w) && i < |w.known|
    ensures var k := w.known[i].key;
            var row, rows' := RowOr(rows, k), Apply(rows, run, Plan(w));
            var place := |TestableBefore(w.known, i)|;
            && k in rows'
            && (GetsTested(w, i) ==> place < |Tests(w)| && TestedAs(w, place, row, rows'[k]))
            && (!GetsTested(w, i) ==>
                 && rows'[k].effect == row.effect
                 && rows'[k].status == if row.status.NotTested? then Observed else row.status)
  {
    var k := w.known[i].key;
    var rows1 := Apply(rows, run, ReadOps(w, |w.known|));
    var rows2 := Apply(rows1, run, TestOps(w, |Tests(w)|));
    var rows3 := Apply(rows2, run, SymbolOps(w, |SymbolsOf(w)|));
    KeysToAre(w, |w.known|, k);
    StatusAfterReads(rows, run, w, |w.known|, k);
    PlanInParts(rows, run, w);
    KnownKeptBySymbols(rows2, run, w, |SymbolsOf(w)|, k);
    GetsTestedAt(w, i);
    StatusOfTests(rows1, run, w, i);
    KeptInRows(rows1, run, w, k);
  }

  lemma PlanInParts(rows: Rows, run: RunId, w: World)
    requires GoodWorld(w)
    ensures var rows1 := Apply(rows, run, ReadOps(w, |w.known|));
            var rows2 := Apply(rows1, run, TestOps(w, |Tests(w)|));
            Apply(rows, run, Plan(w)) == Step(Apply(rows2, run, SymbolOps(w, |SymbolsOf(w)|)), run, Remove)
  {
    ApplyConcat(rows, run, ReadOps(w, |w.known|), TestOps(w, |Tests(w)|));
    ApplyConcat(rows, run, ReadOps(w, |w.known|) + TestOps(w, |Tests(w)|), SymbolOps(w, |SymbolsOf(w)|));
    ApplyAppend(rows, run, Body(w), Remove);
  }

  /** A row that is there stays there. */
  lemma KeptInRows(rows: Rows, run: RunId, w: World, k: Key)
    requires k in rows && |w.trials| == |w.known|
    ensures k in Apply(rows, run, TestOps(w, |Tests(w)|))
    ensures k in Apply(Apply(rows, run, TestOps(w, |Tests(w)|)), run, SymbolOps(w, |SymbolsOf(w)|))
  {
    OpsKeepRow(rows, run, TestOps(w, |Tests(w)|), k);
    OpsKeepRow(Apply(rows, run, TestOps(w, |Tests(w)|)), run, SymbolOps(w, |SymbolsOf(w)|), k);
  }

  lemma {:induction false} OpsKeepRow(rows: Rows, run: RunId, ops: seq<Op>, k: Key)
    requires k in rows
    ensures k in Apply(rows, run, ops)
    decreases |ops|
  {
    if ops != [] { OpsKeepRow(rows, run, ops[..|ops| - 1], k); }
  }

  lemma StatusOfTests(rows: Rows, run: RunId, w: World, i: nat)
    requires GoodWorld(w) && i < |w.known| && w.known[i].key in rows
    ensures var k := w.known[i].key;
            var rows' := Apply(rows, run, TestOps(w, |Tests(w)|));
            var place := |TestableBefore(w.known, i)|;
            && k in rows'
            && (i in TestableBefore(w.known, |w.known|) && place < |Tests(w)| ==> TestedAs(w, place, rows[k], rows'[k]))
            && (i !in TestableBefore(w.known, |w.known|) || place >= |Tests(w)| ==> rows'[k] == rows[k])
  {
    var k := w.known[i].key;
    var place := |TestableBefore(w.known, i)|;
    TestsExactly(w);
    TestsDistinct(w);
    OpsKeepRow(rows, run, TestOps(w, |Tests(w)|), k);
    if i in TestableBefore(w.known, |w.known|) && place < |Tests(w)| {
      StatusAfterTests(rows, run, w, |Tests(w)|, place);
    } else {
      NotAmongTests(w, i);
      StatusUntested(rows, run, w, |Tests(w)|, k);
    }
  }

  lemma NotAmongTests(w: World, i: nat)
    requires GoodWorld(w) && i < |w.known|
    requires i !in TestableBefore(w.known, |w.known|) || |TestableBefore(w.known, i)| >= |Tests(w)|
    ensures forall j :: 0 <= j < |Tests(w)| ==> Tests(w)[j].key != w.known[i].key
  {
    forall j | 0 <= j < |Tests(w)| ensures Tests(w)[j].key != w.known[i].key {
      TestsAreWritable(w, j);
      if Tests(w)[j].key == w.known[i].key {
        var m :| 0 <= m < |w.known| && w.known[m] == Tests(w)[j];
        assert m == i;
        WritableAt(w.known, |w.known|);
        assert w.known[..|w.known|] == w.known;
        WritableDistinct(w.known);
      }
    }
  }
}
