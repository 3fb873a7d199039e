/** The capability rows SuperScan keeps, and what a scan does to them.  A scan is a list of
    row operations; a run that is stopped or fails has carried out a prefix of its list. */
module ScanRows {
  import opened Common

  datatype DeviceType =
    | Dali | Relay | Curtain | Appliance | Toggle | Switch | NamedSwitch
    | DoorSensor | WindowSensor | MotionSensor | Custom | Security | UnknownSymbol

  /** A channel or index number, or a variable name. */
  datatype Ident = Num(n: nat) | Text(s: string)

  datatype Key = Key(kind: DeviceType, id: Ident)

  datatype Direction = Input | Output | Both

  /** A capability of the registry, with the PLC variables its object touches. */
  datatype Item = Item(key: Key, direction: Direction, vars: set<string>)

  datatype TestStatus = NotTested | Observed | Passed | Failed | Unavailable

  type RunId = nat

  datatype Row = Row(lastValue: string, lastSeen: Option<RunId>, present: bool, high: bool,
                     status: TestStatus, effect: bool)

  type Rows = map<Key, Row>

  const NEW_ROW := Row("", None, true, true, NotTested, false)

  // ---- The capabilities of a registry ----

  /** The registry's dictionaries as lists of their keys, type by type; the security
      controller, when there is one, is a single capability.  `readOnly` holds the toggles
      that cannot be written. */
  datatype Registry = Registry(ids: map<DeviceType, seq<Ident>>, readOnly: set<Ident>)

  /** A dictionary has each key once. */
  ghost predicate Dictionaries(reg: Registry) {
    forall t :: t in reg.ids ==> Distinct(reg.ids[t]) && !t.UnknownSymbol?
  }

  function Ids(reg: Registry, t: DeviceType): seq<Ident> {
    if t in reg.ids then reg.ids[t] else []
  }

  /** The order in which the types are enumerated. */
  const ORDER: seq<DeviceType> := [Dali, Relay, Curtain, Appliance, Toggle, Switch, NamedSwitch,
                                   DoorSensor, WindowSensor, MotionSensor, Custom, Security]

  function DirectionOf(key: Key, readOnly: set<Ident>): Direction {
    match key.kind
    case Dali | Relay | Curtain | Appliance | Custom => Output
    case Toggle => if key.id in readOnly then Input else Output
    case Security => Both
    case _ => Input
  }

  ghost predicate DistinctKeys(items: seq<Item>) {
    forall i, j :: 0 <= i < j < |items| ==> items[i].key != items[j].key
  }

  ghost predicate NoSymbols(items: seq<Item>) {
    forall i :: 0 <= i < |items| ==> !items[i].key.kind.UnknownSymbol?
  }

  ghost predicate Directed(items: seq<Item>, reg: Registry) {
    forall i :: 0 <= i < |items| ==> items[i].direction == DirectionOf(items[i].key, reg.readOnly)
  }

  /** The keys of the outputs that have a safe test: a toggle only if it can be written. */
  ghost function TestableKeys(reg: Registry): set<Key> {
    set t: DeviceType, id | t in {Dali, Relay, Curtain, Appliance, Toggle} && id in Ids(reg, t)
                            && !(t == Toggle && id in reg.readOnly) :: Key(t, id)
  }

  /** The items of one type, in order. */
  function IdsIn(items: seq<Item>, t: DeviceType): seq<Ident> {
    if items == [] then []
    else
      var last := items[|items| - 1];
      IdsIn(items[..|items| - 1], t) + (if last.key.kind == t then [last.key.id] else [])
  }

  lemma IdsInAppend(items: seq<Item>, i: Item, t: DeviceType)
    ensures IdsIn(items + [i], t) == IdsIn(items, t) + (if i.key.kind == t then [i.key.id] else [])
  {
  }

  lemma {:induction false} ListedKey(items: seq<Item>, i: nat)
    requires i < |items|
    ensures items[i].key.id in IdsIn(items, items[i].key.kind)
  {
    var n := |items| - 1;
    if i < n { ListedKey(items[..n], i); }
  }

  lemma {:induction false} ListedFrom(items: seq<Item>, t: DeviceType, id: Ident) returns (i: nat)
    requires id in IdsIn(items, t)
    ensures i < |items| && items[i].key == Key(t, id)
  {
    var n := |items| - 1;
    if items[n].key == Key(t, id) { i := n; } else { i := ListedFrom(items[..n], t, id); }
  }

  /** The first `n` keys of one type's dictionary are listed, those of the types in `done`
      completely, and nothing else. */
  ghost predicate Listed(items: seq<Item>, reg: Registry, done: set<DeviceType>, kind: DeviceType, n: nat) {
    && DistinctKeys(items) && NoSymbols(items) && Directed(items, reg)
    && forall t :: IdsIn(items, t) == IdsSoFar(reg, done, kind, n, t)
  }

  function IdsSoFar(reg: Registry, done: set<DeviceType>, kind: DeviceType, n: nat, t: DeviceType): seq<Ident> {
    if t in done then Ids(reg, t) else if t == kind && n <= |Ids(reg, kind)| then Ids(reg, kind)[..n] else []
  }

  lemma NewKey(items: seq<Item>, reg: Registry, done: set<DeviceType>, kind: DeviceType, n: nat)
    requires Listed(items, reg, done, kind, n) && kind !in done
    requires n < |Ids(reg, kind)| && Distinct(Ids(reg, kind))
    ensures forall i :: 0 <= i < |items| ==> items[i].key != Key(kind, Ids(reg, kind)[n])
  {
    assert IdsIn(items, kind) == IdsSoFar(reg, done, kind, n, kind) == Ids(reg, kind)[..n];
    forall i | 0 <= i < |items| ensures items[i].key != Key(kind, Ids(reg, kind)[n]) {
      ListedKey(items, i);
    }
  }

  lemma NextIds(items: seq<Item>, item: Item, reg: Registry, done: set<DeviceType>, kind: DeviceType, n: nat,
                t: DeviceType)
    requires IdsIn(items, t) == IdsSoFar(reg, done, kind, n, t) && kind !in done && n < |Ids(reg, kind)|
    requires item.key == Key(kind, Ids(reg, kind)[n])
    ensures IdsIn(items + [item], t) == IdsSoFar(reg, done, kind, n + 1, t)
  {
    IdsInAppend(items, item, t);
  }

  lemma ListedNext(items: seq<Item>, item: Item, reg: Registry, done: set<DeviceType>, kind: DeviceType, n: nat)
    requires Listed(items, reg, done, kind, n) && kind !in done && !kind.UnknownSymbol?
    requires n < |Ids(reg, kind)| && Distinct(Ids(reg, kind))
    requires item.key == Key(kind, Ids(reg, kind)[n]) && item.direction == DirectionOf(item.key, reg.readOnly)
    ensures Listed(items + [item], reg, done, kind, n + 1)
  {
    NewKey(items, reg, done, kind, n);
    forall t: DeviceType ensures IdsIn(items + [item], t) == IdsSoFar(reg, done, kind, n + 1, t) {
      NextIds(items, item, reg, done, kind, n, t);
    }
  }

  /** One of the enumeration's loops: an item for each key of a dictionary. */
  method AppendGroup(items: seq<Item>, reg: Registry, ghost done: set<DeviceType>, kind: DeviceType,
                     vars: map<Key, set<string>>)
    returns (r: seq<Item>)
    requires Listed(items, reg, done, kind, 0) && kind !in done && !kind.UnknownSymbol? && Distinct(Ids(reg, kind))
    ensures Listed(r, reg, done, kind, |Ids(reg, kind)|)
  {
    r := items;
    var ids := Ids(reg, kind);
    for n := 0 to |ids|
      invariant Listed(r, reg, done, kind, n)
    {
      var key := Key(kind, ids[n]);
      var item := Item(key, DirectionOf(key, reg.readOnly), if key in vars then vars[key] else {});
      ListedNext(r, item, reg, done, kind, n);
      r := r + [item];
    }
  }

  lemma ListedDone(items: seq<Item>, reg: Registry, done: set<DeviceType>, kind: DeviceType, next: DeviceType)
    requires Listed(items, reg, done, kind, |Ids(reg, kind)|) && next !in done + {kind}
    ensures Listed(items, reg, done + {kind}, next, 0)
  {
  }

  /** _known_capabilities: every key of every dictionary once, in a fixed order of types, so
      no capability is listed twice and none is an unknown symbol. */
  method KnownCapabilities(reg: Registry, vars: map<Key, set<string>>) returns (items: seq<Item>)
    requires Dictionaries(reg)
    ensures DistinctKeys(items) && NoSymbols(items) && Directed(items, reg)
    ensures forall t :: t in ORDER ==> IdsIn(items, t) == Ids(reg, t)
  {
    items := [];
    ghost var done: set<DeviceType> := {};
    for n := 0 to |ORDER|
      invariant done == Elems(ORDER[..n])
      invariant Listed(items, reg, done, if n < |ORDER| then ORDER[n] else UnknownSymbol, 0)
    {
      OrderOnce(n);
      items := AppendGroup(items, reg, done, ORDER[n], vars);
      ListedDone(items, reg, done, ORDER[n], if n + 1 < |ORDER| then ORDER[n + 1] else UnknownSymbol);
      done := done + {ORDER[n]};
    }
    assert ORDER[..|ORDER|] == ORDER;
    forall t | t in ORDER ensures IdsIn(items, t) == Ids(reg, t) {
      assert IdsIn(items, t) == IdsSoFar(reg, done, UnknownSymbol, 0, t);
    }
  }

  /** Each type comes up once in the order, and unknown symbols never do. */
  lemma OrderOnce(n: nat)
    requires n < |ORDER|
    ensures ORDER[n] !in Elems(ORDER[..n]) && !ORDER[n].UnknownSymbol?
    ensures Elems(ORDER[..n + 1]) == Elems(ORDER[..n]) + {ORDER[n]}
    ensures n + 1 < |ORDER| ==> ORDER[n + 1] !in Elems(ORDER[..n + 1])
    ensures UnknownSymbol !in Elems(ORDER[..n + 1])
  {
  }

  // ---- Row operations ----

  datatype Op =
    | Touch(key: Key, reading: Option<string>)
    | Observe(key: Key)
    | Tested(key: Key, status: TestStatus)
    | Unknown(key: Key)
    | Remove

  function RowOr(rows: Rows, k: Key): Row {
    if k in rows then rows[k] else NEW_ROW
  }

  /** A row not seen by the run stops being present. */
  function Swept(r: Row, run: RunId): Row {
    if r.lastSeen != Some(run) then r.(present := false) else r
  }

  /** The effect of one operation.  A failed reading touches the row but keeps its value. */
  function Step(rows: Rows, run: RunId, op: Op): Rows {
    match op
    case Touch(k, Some(v)) =>
      rows[k := RowOr(rows, k).(lastValue := v, lastSeen := Some(run), present := true, high := true)]
    case Touch(k, None) => rows[k := RowOr(rows, k).(lastSeen := Some(run), present := true, high := false)]
    case Observe(k) => if k in rows && rows[k].status.NotTested? then rows[k := rows[k].(status := Observed)] else rows
    case Tested(k, st) =>
      if k in rows then rows[k := rows[k].(status := st, effect := rows[k].effect || st.Passed?)] else rows
    case Unknown(k) =>
      rows[k := RowOr(rows, k).(lastValue := "", lastSeen := Some(run), present := true, high := false)]
    case Remove => map k | k in rows :: Swept(rows[k], run)
  }

  function Apply(rows: Rows, run: RunId, ops: seq<Op>): Rows {
    if ops == [] then rows else Step(Apply(rows, run, ops[..|ops| - 1]), run, ops[|ops| - 1])
  }

  lemma ApplyAppend(rows: Rows, run: RunId, ops: seq<Op>, op: Op)
    ensures Apply(rows, run, ops + [op]) == Step(Apply(rows, run, ops), run, op)
  {
  }

  function TouchedBy(op: Op): set<Key> {
    match op
    case Touch(k, _) => {k}
    case Unknown(k) => {k}
    case _ => {}
  }

  function Touched(ops: seq<Op>): set<Key> {
    if ops == [] then {} else Touched(ops[..|ops| - 1]) + TouchedBy(ops[|ops| - 1])
  }

  ghost predicate NoRemove(ops: seq<Op>) {
    forall i :: 0 <= i < |ops| ==> !ops[i].Remove?
  }

  function Present(rows: Rows): set<Key> {
    set k | k in rows && rows[k].present
  }

  /** The run is new: no row was seen by it yet. */
  ghost predicate Unseen(rows: Rows, run: RunId) {
    forall k :: k in rows ==> rows[k].lastSeen != Some(run)
  }

  /** Before the removal, exactly the touched rows carry the run's mark, and nothing that
      was present stops being so. */
  lemma {:induction false} MarksAreTouches(rows: Rows, run: RunId, ops: seq<Op>, k: Key)
    requires NoRemove(ops) && Unseen(rows, run)
    ensures var rows' := Apply(rows, run, ops);
            && (k in rows' && rows'[k].lastSeen == Some(run) <==> k in Touched(ops))
            && (k in Present(rows') <==> k in Present(rows) || k in Touched(ops))
    decreases |ops|
  {
    if ops != [] {
      var n := |ops| - 1;
      assert NoRemove(ops[..n]) by { forall i | 0 <= i < n ensures !ops[..n][i].Remove? { assert !ops[i].Remove?; } }
      MarksAreTouches(rows, run, ops[..n], k);
      assert !ops[n].Remove?;
    }
  }

  /** A scan carried out to the end leaves present exactly the rows it touched. */
  lemma PresentAfterScan(rows: Rows, run: RunId, ops: seq<Op>)
    requires NoRemove(ops) && Unseen(rows, run)
    ensures Present(Apply(rows, run, ops + [Remove])) == Touched(ops)
  {
    ApplyAppend(rows, run, ops, Remove);
    forall k ensures k in Present(Apply(rows, run, ops + [Remove])) <==> k in Touched(ops) {
      MarksAreTouches(rows, run, ops, k);
    }
  }

  /** The rows the removal pass counts: present, not seen by this run. */
  function Removable(rows: Rows, run: RunId): set<Key> {
    set k | k in rows && rows[k].present && rows[k].lastSeen != Some(run)
  }

  lemma RemovableIsUntouched(rows: Rows, run: RunId, ops: seq<Op>)
    requires NoRemove(ops) && Unseen(rows, run)
    ensures Removable(Apply(rows, run, ops), run) == Present(rows) - Touched(ops)
  {
    forall k ensures k in Removable(Apply(rows, run, ops), run) <==> k in Present(rows) - Touched(ops) {
      MarksAreTouches(rows, run, ops, k);
    }
  }

  // ---- The plan of a scan ----

  datatype Mode = Passive | Quick | Full | Deep

  /** How one active test goes: connected before it, its verdict, connected after it. */
  datatype Trial = Trial(before: bool, success: bool, after: bool)

  datatype Symbol = Symbol(gvl: string, fullName: string)

  /** Everything a scan meets: the registry's items, what each read gives (nothing when it
      raises), how each test goes, the symbol list of a deep scan (none when no controller
      or cache exists). */
  datatype World = World(mode: Mode, known: seq<Item>, readings: seq<Option<string>>, trials: seq<Trial>,
                         symbols: Option<seq<Symbol>>)

  const MAX_ACTIVE_TESTS := 60
  const DEEP_SCAN_GVLS := {"gvlDALI", "gvlDALI_State", "gvlController", "gvlCurtain", "GVL",
                           "GVL_DALI", "GVL_Relay", "GVL_Bilding"}

  predicate Active(m: Mode) {
    m.Full? || m.Deep?
  }

  predicate IsWritable(i: Item) {
    i.direction.Output? && i.key.kind in {Dali, Relay, Curtain, Appliance, Toggle}
  }

  function WritableOf(known: seq<Item>): (r: seq<Item>)
    ensures |r| <= |known|
  {
    if known == [] then []
    else
      var n := |known| - 1;
      var rest := WritableOf(known[..n]);
      if IsWritable(known[n]) then rest + [known[n]] else rest
  }

  lemma {:induction false} WritableFrom(known: seq<Item>, i: Item)
    ensures i in WritableOf(known) <==> i in known && IsWritable(i)
  {
    if known != [] {
      var n := |known| - 1;
      WritableFrom(known[..n], i);
      assert known == known[..n] + [known[n]];
    }
  }

  lemma {:induction false} WritableDistinct(known: seq<Item>)
    requires DistinctKeys(known)
    ensures DistinctKeys(WritableOf(known))
  {
    if known != [] {
      var n := |known| - 1;
      WritableDistinct(known[..n]);
      var rest := WritableOf(known[..n]);
      forall i | 0 <= i < |rest| ensures rest[i].key != known[n].key {
        WritableFrom(known[..n], rest[i]);
        var j :| 0 <= j < n && known[..n][j] == rest[i];
        assert known[j].key != known[n].key;
      }
    }
  }

  /** Exactly the outputs of a testable type are tested, and none of them twice. */
  lemma WritableItems(known: seq<Item>)
    ensures forall i :: i in WritableOf(known) <==> i in known && IsWritable(i)
    ensures DistinctKeys(known) ==> DistinctKeys(WritableOf(known))
  {
    forall i ensures i in WritableOf(known) <==> i in known && IsWritable(i) { WritableFrom(known, i); }
    if DistinctKeys(known) { WritableDistinct(known); }
  }

  /** The places, among the first `n`, of the outputs that have a safe test. */
  ghost function TestableBefore(known: seq<Item>, n: nat): set<nat>
    requires n <= |known|
  {
    set i: nat | i < n && known[i].direction == Output && known[i].key.kind in {Dali, Relay, Curtain, Appliance, Toggle}
  }

  lemma {:induction false} TestableNext(known: seq<Item>, n: nat)
    requires n < |known|
    ensures TestableBefore(known, n + 1) == TestableBefore(known, n) + if IsWritable(known[n]) then {n} else {}
    ensures |TestableBefore(known, n + 1)| == |TestableBefore(known, n)| + if IsWritable(known[n]) then 1 else 0
    ensures |TestableBefore(known, n)| <= n
  {
    assert TestableBefore(known, n + 1) == TestableBefore(known, n) + if IsWritable(known[n]) then {n} else {};
    if n > 0 { TestableNext(known, n - 1); } else { assert TestableBefore(known, 0) == {}; }
  }

  /** The filter keeps every output that has a safe test, in its place, and nothing else. */
  lemma {:induction false} WritableAt(known: seq<Item>, n: nat)
    requires n <= |known|
    ensures |WritableOf(known[..n])| == |TestableBefore(known, n)|
    ensures forall i :: i in TestableBefore(known, n) ==>
              var place := |TestableBefore(known, i)|;
              place < |WritableOf(known[..n])| && WritableOf(known[..n])[place] == known[i]
  {
    if n > 0 {
      WritableAt(known, n - 1);
      TestableNext(known, n - 1);
      assert known[..n][..n - 1] == known[..n - 1];
    } else {
      assert TestableBefore(known, 0) == {};
    }
  }

  /** A full or deep scan tests the outputs that have a safe test, up to sixty of them, from
      the first on; the other modes test nothing. */
  lemma {:induction false} TestsExactly(w: World)
    ensures w.mode.Passive? || w.mode.Quick? ==> Tests(w) == []
    ensures w.mode.Full? || w.mode.Deep? ==> |Tests(w)| == Min(60, |TestableBefore(w.known, |w.known|)|)
    ensures forall i :: i in TestableBefore(w.known, |w.known|) && |TestableBefore(w.known, i)| < |Tests(w)| ==>
              Tests(w)[|TestableBefore(w.known, i)|] == w.known[i]
  {
    WritableAt(w.known, |w.known|);
    assert w.known[..|w.known|] == w.known;
  }

  /** The items a full or deep scan tests: the first 60 writable ones. */
  function Tests(w: World): seq<Item> {
    var all := WritableOf(w.known);
    if !Active(w.mode) then [] else if |all| <= MAX_ACTIVE_TESTS then all else all[..MAX_ACTIVE_TESTS]
  }

  /** There are as many such outputs among the items as there are in the dictionaries. */
  lemma {:induction false} TestableAreKeys(items: seq<Item>, reg: Registry)
    requires DistinctKeys(items) && Directed(items, reg)
    requires forall t :: t in ORDER ==> IdsIn(items, t) == Ids(reg, t)
    ensures |TestableBefore(items, |items|)| == |TestableKeys(reg)|
  {
    var keys := KeysOfPlaces(items, |items|);
    forall k ensures k in keys <==> k in TestableKeys(reg) { TestableKey(items, reg, k); }
    assert keys == TestableKeys(reg);
  }

  lemma TestableInOrder(t: DeviceType)
    requires t in {Dali, Relay, Curtain, Appliance, Toggle}
    ensures t in ORDER
  {
    assert ORDER[0] == Dali && ORDER[1] == Relay && ORDER[2] == Curtain && ORDER[3] == Appliance && ORDER[4] == Toggle;
  }

  lemma {:induction false} TestableKey(items: seq<Item>, reg: Registry, k: Key)
    requires Directed(items, reg) && forall t :: t in ORDER ==> IdsIn(items, t) == Ids(reg, t)
    ensures k in TestableKeys(reg) <==> exists i :: i in TestableBefore(items, |items|) && items[i].key == k
  {
    if k in TestableKeys(reg) {
      TestableInOrder(k.kind);
      var i := ListedFrom(items, k.kind, k.id);
      assert items[i].direction == DirectionOf(k, reg.readOnly) == Output;
      assert items[i].key == k;
    }
    if i :| i in TestableBefore(items, |items|) && items[i].key == k {
      ListedKey(items, i);
      TestableInOrder(k.kind);
      assert items[i].direction == DirectionOf(k, reg.readOnly);
    }
  }

  lemma {:induction false} KeysOfPlaces(items: seq<Item>, n: nat) returns (keys: set<Key>)
    requires DistinctKeys(items) && n <= |items|
    ensures |keys| == |TestableBefore(items, n)|
    ensures forall k :: k in keys <==> exists i :: i in TestableBefore(items, n) && items[i].key == k
  {
    keys := {};
    if n > 0 {
      TestableNext(items, n - 1);
      keys := KeysOfPlaces(items, n - 1);
      if IsWritable(items[n - 1]) {
        assert items[n - 1].key !in keys;
        keys := keys + {items[n - 1].key};
      }
      forall k ensures k in keys <==> exists i :: i in TestableBefore(items, n) && items[i].key == k {
        if k in keys && k != items[n - 1].key {
          var i :| i in TestableBefore(items, n - 1) && items[i].key == k;
          assert i in TestableBefore(items, n);
        }
        if k in keys && k == items[n - 1].key && IsWritable(items[n - 1]) {
          assert n - 1 in TestableBefore(items, n);
        }
      }
    } else {
      assert TestableBefore(items, 0) == {};
    }
  }

  lemma TestsAreWritable(w: World, i: nat)
    requires i < |Tests(w)|
    ensures Tests(w)[i] in w.known && IsWritable(Tests(w)[i])
  {
    WritableFrom(w.known, WritableOf(w.known)[i]);
  }

  ghost predicate GoodWorld(w: World) {
    && DistinctKeys(w.known) && NoSymbols(w.known)
    && |w.readings| == |w.known| && |w.trials| == |w.known|
  }

  function StatusOf(t: Trial): TestStatus {
    if !t.before then Unavailable else if t.success then Passed else if !t.after then Unavailable else Failed
  }

  /** The variables of the first `n` items. */
  function VarsOf(known: seq<Item>, n: nat): set<string>
    requires n <= |known|
  {
    if n == 0 then {} else VarsOf(known, n - 1) + known[n - 1].vars
  }

  /** The symbols a deep scan goes through. */
  function SymbolsOf(w: World): seq<Symbol> {
    if w.mode.Deep? && w.symbols.Some? then w.symbols.value else []
  }

  /** A symbol of a device list that no modelled device touches. */
  predicate Reported(w: World, s: Symbol) {
    s.gvl in DEEP_SCAN_GVLS && s.fullName != "" && s.fullName !in VarsOf(w.known, |w.known|)
  }

  /** Its key: the name cut to the column's 100 characters. */
  function SymbolKey(s: Symbol): Key {
    Key(UnknownSymbol, Text(if |s.fullName| <= 100 then s.fullName else s.fullName[..100]))
  }

  function ReadOps(w: World, n: nat): seq<Op>
    requires n <= |w.known| && |w.readings| == |w.known|
  {
    if n == 0 then []
    else
      var k := w.known[n - 1].key;
      ReadOps(w, n - 1) + [Touch(k, w.readings[n - 1]), Observe(k)]
  }

  function TestOps(w: World, n: nat): seq<Op>
    requires n <= |Tests(w)| && |w.trials| == |w.known|
  {
    if n == 0 then [] else TestOps(w, n - 1) + [Tested(Tests(w)[n - 1].key, StatusOf(w.trials[n - 1]))]
  }

  function SymbolOps(w: World, n: nat): seq<Op>
    requires n <= |SymbolsOf(w)|
  {
    if n == 0 then []
    else
      var s := SymbolsOf(w)[n - 1];
      SymbolOps(w, n - 1) + (if Reported(w, s) then [Unknown(SymbolKey(s))] else [])
  }

  /** Everything before the removal pass. */
  function Body(w: World): seq<Op>
    requires |w.readings| == |w.known| && |w.trials| == |w.known|
  {
    ReadOps(w, |w.known|) + TestOps(w, |Tests(w)|) + SymbolOps(w, |SymbolsOf(w)|)
  }

  function Plan(w: World): seq<Op>
    requires |w.readings| == |w.known| && |w.trials| == |w.known|
  {
    Body(w) + [Remove]
  }
}
