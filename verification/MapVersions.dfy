/** The map editor: bulk replacement of canvas objects and layers, publishing numbered
    snapshots, and restoring one.  Rows are written one by one without a transaction, and a
    row that names a missing room or device is refused by the database. */
module MapVersions {
  import opened Common

  type Id = nat

  /** A canvas object's columns; `body` stands for those that refer to nothing. */
  datatype Item = Item(layer: Option<Id>, device: Option<Id>, room: Option<Id>, body: string, sortOrder: nat)

  datatype Row = Row(id: Id, item: Item)

  datatype Version = Version(number: nat, snapshot: seq<Item>, published: bool)

  /** `objects` holds the rows in the order they were inserted; ids come from counters. */
  datatype State = State(objects: seq<Row>, nextId: Id, layers: set<Id>, nextLayer: Id,
                         rooms: set<Id>, devices: set<Id>, nextRef: Id, versions: seq<Version>)

  // ---- Display order: by sort_order, then by id ----

  function Insert(s: seq<Row>, r: Row): seq<Row> {
    if s == [] || s[|s| - 1].item.sortOrder <= r.item.sortOrder then s + [r]
    else Insert(s[..|s| - 1], r) + [s[|s| - 1]]
  }

  function Display(rows: seq<Row>): seq<Row> {
    if rows == [] then [] else Insert(Display(rows[..|rows| - 1]), rows[|rows| - 1])
  }

  function Items(rows: seq<Row>): (r: seq<Item>)
    ensures |r| == |rows| && forall i :: 0 <= i < |r| ==> r[i] == rows[i].item
  {
    seq(|rows|, i requires 0 <= i < |rows| => rows[i].item)
  }

  predicate Before(a: Row, b: Row) {
    a.item.sortOrder < b.item.sortOrder || (a.item.sortOrder == b.item.sortOrder && a.id < b.id)
  }

  ghost predicate Ordered(rows: seq<Row>) {
    forall i, j :: 0 <= i < j < |rows| ==> Before(rows[i], rows[j])
  }

  ghost predicate IdsIncrease(rows: seq<Row>, next: Id) {
    && (forall i, j :: 0 <= i < j < |rows| ==> rows[i].id < rows[j].id)
    && (forall i :: 0 <= i < |rows| ==> rows[i].id < next)
  }

  lemma {:induction false} InsertPermutes(s: seq<Row>, r: Row)
    ensures multiset(Insert(s, r)) == multiset(s) + multiset{r}
    ensures |Insert(s, r)| == |s| + 1
    ensures forall i :: 0 <= i < |s| + 1 ==> Insert(s, r)[i] == r || Insert(s, r)[i] in s
  {
    if s != [] && s[|s| - 1].item.sortOrder > r.item.sortOrder {
      var n := |s| - 1;
      InsertPermutes(s[..n], r);
      assert s == s[..n] + [s[n]];
    }
  }

  lemma {:induction false} InsertOrdered(s: seq<Row>, r: Row)
    requires Ordered(s) && forall i :: 0 <= i < |s| ==> s[i].id < r.id
    ensures Ordered(Insert(s, r))
  {
    if s != [] && s[|s| - 1].item.sortOrder > r.item.sortOrder {
      var n := |s| - 1;
      InsertOrdered(s[..n], r);
      InsertPermutes(s[..n], r);
      var t := Insert(s[..n], r);
      forall i | 0 <= i < |t| ensures Before(t[i], s[n]) {
        if t[i] != r { var j :| 0 <= j < n && s[..n][j] == t[i]; }
      }
      assert Insert(s, r) == t + [s[n]];
    }
  }

  /** What the database query returns: the same rows, by sort_order and then id. */
  lemma {:induction false} DisplayOrdered(rows: seq<Row>, next: Id)
    requires IdsIncrease(rows, next)
    ensures Ordered(Display(rows)) && multiset(Display(rows)) == multiset(rows)
  {
    if rows != [] {
      var n := |rows| - 1;
      DisplayOrdered(rows[..n], next);
      assert rows == rows[..n] + [rows[n]];
      var d := Display(rows[..n]);
      forall i | 0 <= i < |d| ensures d[i].id < rows[n].id {
        assert d[i] in multiset(d);
        var j :| 0 <= j < n && rows[..n][j] == d[i];
      }
      InsertOrdered(d, rows[n]);
      InsertPermutes(d, rows[n]);
    }
  }

  /** Rows inserted in display order are displayed as inserted. */
  lemma {:induction false} DisplayInPlace(rows: seq<Row>)
    requires forall i, j :: 0 <= i < j < |rows| ==> rows[i].item.sortOrder <= rows[j].item.sortOrder
    ensures Display(rows) == rows
  {
    if rows != [] {
      var n := |rows| - 1;
      DisplayInPlace(rows[..n]);
      assert rows == rows[..n] + [rows[n]];
    }
  }

  // ---- Operations ----

  predicate Linkable(rooms: set<Id>, devices: set<Id>, it: Item) {
    (it.room.Some? ==> it.room.value in rooms) && (it.device.Some? ==> it.device.value in devices)
  }

  /** How many items the database takes, one by one, before it refuses one. */
  function Taken(rooms: set<Id>, devices: set<Id>, items: seq<Item>): (n: nat)
    ensures n <= |items|
    ensures forall i :: 0 <= i < n ==> Linkable(rooms, devices, items[i])
    ensures n < |items| ==> !Linkable(rooms, devices, items[n])
  {
    if items == [] || !Linkable(rooms, devices, items[0]) then 0 else 1 + Taken(rooms, devices, items[1..])
  }

  /** The layer is looked up among the layers there are now. */
  function Relayer(layers: set<Id>, it: Item): Item {
    if it.layer.Some? && it.layer.value !in layers then it.(layer := None) else it
  }

  /** The rows the items become, in order. */
  function Rows(from: Id, layers: set<Id>, items: seq<Item>): (r: seq<Row>)
    ensures |r| == |items| && forall i :: 0 <= i < |r| ==> r[i] == Row(from + i, Relayer(layers, items[i]))
  {
    seq(|items|, i requires 0 <= i < |items| => Row(from + i, Relayer(layers, items[i])))
  }

  /** Both the bulk save and the restore: every object is deleted, then the items are
      inserted until one is refused. */
  function Replace(s: State, items: seq<Item>): State {
    var n := Taken(s.rooms, s.devices, items);
    s.(objects := Rows(s.nextId, s.layers, items[..n]), nextId := s.nextId + n)
  }

  predicate Accepts(s: State, items: seq<Item>) {
    Taken(s.rooms, s.devices, items) == |items|
  }

  function Renumber(items: seq<Item>): (r: seq<Item>)
    ensures |r| == |items| && forall i :: 0 <= i < |r| ==> r[i] == items[i].(sortOrder := i)
  {
    seq(|items|, i requires 0 <= i < |items| => items[i].(sortOrder := i))
  }

  function Unlink(rows: seq<Row>, f: Item -> Item): (r: seq<Row>)
    ensures |r| == |rows| && forall i :: 0 <= i < |r| ==> r[i] == Row(rows[i].id, f(rows[i].item))
  {
    seq(|rows|, i requires 0 <= i < |rows| => Row(rows[i].id, f(rows[i].item)))
  }

  function Range(from: Id, count: nat): (r: set<Id>)
    ensures forall x :: x in r <==> from <= x < from + count
  {
    if count == 0 then {} else Range(from, count - 1) + {from + count - 1}
  }

  /** Existing layers not kept are deleted, and objects on them lose their layer. */
  function PutLayers(s: State, kept: set<Id>, created: nat): State {
    var layers := s.layers * kept + Range(s.nextLayer, created);
    s.(layers := layers, nextLayer := s.nextLayer + created,
       objects := Unlink(s.objects, it => Relayer(layers, it)))
  }

  /** The ids a layer save names. */
  function Named(wanted: seq<Option<Id>>): set<Id> {
    if wanted == [] then {}
    else Named(wanted[..|wanted| - 1]) + (match wanted[|wanted| - 1] case Some(id) => {id} case None => {})
  }

  /** How many entries of a layer save name no existing layer; each creates one. */
  function Unknown(layers: set<Id>, wanted: seq<Option<Id>>): nat {
    if wanted == [] then 0
    else
      var last := wanted[|wanted| - 1];
      Unknown(layers, wanted[..|wanted| - 1]) + if last.Some? && last.value in layers then 0 else 1
  }

  lemma {:induction false} NamedAre(wanted: seq<Option<Id>>, id: Id)
    ensures id in Named(wanted) <==> Some(id) in wanted
  {
    if wanted != [] {
      var n := |wanted| - 1;
      NamedAre(wanted[..n], id);
      assert wanted == wanted[..n] + [wanted[n]];
    }
  }

  /** The entries that name an existing layer. */
  ghost function KnownEntries(layers: set<Id>, wanted: seq<Option<Id>>): set<nat> {
    set i: nat | i < |wanted| && wanted[i].Some? && wanted[i].value in layers
  }

  /** Every entry updates the layer it names or creates one. */
  lemma {:induction false} EntriesCounted(layers: set<Id>, wanted: seq<Option<Id>>)
    ensures Unknown(layers, wanted) + |KnownEntries(layers, wanted)| == |wanted|
  {
    if wanted != [] {
      var n := |wanted| - 1;
      EntriesCounted(layers, wanted[..n]);
      OneMorePlace(KnownEntries(layers, wanted[..n]), KnownEntries(layers, wanted), n,
                   wanted[n].Some? && wanted[n].value in layers);
    } else {
      assert KnownEntries(layers, []) == {};
    }
  }

  function DropRoom(s: State, room: Id): State {
    s.(rooms := s.rooms - {room},
       objects := Unlink(s.objects, (it: Item) => if it.room == Some(room) then it.(room := None) else it))
  }

  function DropDevice(s: State, device: Id): State {
    s.(devices := s.devices - {device},
       objects := Unlink(s.objects, (it: Item) => if it.device == Some(device) then it.(device := None) else it))
  }

  function Highest(vs: seq<Version>): nat {
    if vs == [] then 0
    else
      var m := Highest(vs[..|vs| - 1]);
      if vs[|vs| - 1].number > m then vs[|vs| - 1].number else m
  }

  function Withdraw(vs: seq<Version>): (r: seq<Version>)
    ensures |r| == |vs| && forall i :: 0 <= i < |r| ==> r[i] == vs[i].(published := false)
  {
    seq(|vs|, i requires 0 <= i < |vs| => vs[i].(published := false))
  }

  function Publish(s: State): State {
    s.(versions := Withdraw(s.versions) + [Version(Highest(s.versions) + 1, Items(Display(s.objects)), true)])
  }

  /** A version that does not exist is refused without touching anything. */
  function Restore(s: State, v: nat): State {
    if v < |s.versions| then Replace(s, s.versions[v].snapshot) else s
  }

  datatype Op =
    | DoPutObjects(items: seq<Item>)
    | DoPutLayers(kept: set<Id>, created: nat)
    | DoPublish
    | DoRestore(v: nat)
    | DoDropRoom(room: Id)
    | DoDropDevice(device: Id)
    | DoAddRoom
    | DoAddDevice

  function Step(s: State, op: Op): State {
    match op
    case DoPutObjects(items) => Replace(s, Renumber(items))
    case DoPutLayers(kept, created) => PutLayers(s, kept, created)
    case DoPublish => Publish(s)
    case DoRestore(v) => Restore(s, v)
    case DoDropRoom(room) => DropRoom(s, room)
    case DoDropDevice(device) => DropDevice(s, device)
    case DoAddRoom => s.(rooms := s.rooms + {s.nextRef}, nextRef := s.nextRef + 1)
    case DoAddDevice => s.(devices := s.devices + {s.nextRef}, nextRef := s.nextRef + 1)
  }

  function Run(s: State, ops: seq<Op>): State
    decreases |ops|
  {
    if ops == [] then s else Run(Step(s, ops[0]), ops[1..])
  }

  const EMPTY := State([], 0, {}, 0, {}, {}, 0, [])

  // ---- What every run keeps ----

  /** Versions are numbered 1..k and only the newest is published. */
  ghost predicate Numbered(vs: seq<Version>) {
    forall i :: 0 <= i < |vs| ==> vs[i].number == i + 1 && (vs[i].published <==> i == |vs| - 1)
  }

  /** No object on the map names a room, device or layer that is not there. */
  ghost predicate NoneDangling(s: State) {
    forall i :: 0 <= i < |s.objects| ==>
      && (s.objects[i].item.room.Some? ==> s.objects[i].item.room.value in s.rooms)
      && (s.objects[i].item.device.Some? ==> s.objects[i].item.device.value in s.devices)
      && (s.objects[i].item.layer.Some? ==> s.objects[i].item.layer.value in s.layers)
  }

  ghost predicate Inv(s: State) {
    IdsIncrease(s.objects, s.nextId) && Numbered(s.versions) && NoneDangling(s)
  }

  /** What a later state may not take back. */
  ghost predicate Keeps(s: State, s': State) {
    && s.nextId <= s'.nextId
    && |s.versions| <= |s'.versions|
    && forall i :: 0 <= i < |s.versions| ==>
         s'.versions[i].number == s.versions[i].number && s'.versions[i].snapshot == s.versions[i].snapshot
  }

  lemma {:induction false} HighestIs(vs: seq<Version>)
    requires forall i :: 0 <= i < |vs| ==> vs[i].number == i + 1
    ensures Highest(vs) == |vs|
  {
    if vs != [] { HighestIs(vs[..|vs| - 1]); }
  }

  lemma StepKeeps(s: State, op: Op)
    requires Inv(s)
    ensures Inv(Step(s, op)) && Keeps(s, Step(s, op))
  {
    if op.DoPublish? { HighestIs(s.versions); }
    StepKeepsLinks(s, op);
  }

  lemma StepKeepsLinks(s: State, op: Op)
    requires NoneDangling(s)
    ensures NoneDangling(Step(s, op))
  {
  }

  /** Over every run: versions are numbered 1..k, at most one is published, namely the
      newest, no number or snapshot ever changes, and no object on the map names a room,
      device or layer that is not there. */
  lemma {:induction false} RunKeeps(s: State, ops: seq<Op>)
    requires Inv(s)
    ensures Inv(Run(s, ops)) && Keeps(s, Run(s, ops))
    decreases |ops|
  {
    if ops != [] {
      StepKeeps(s, ops[0]);
      RunKeeps(Step(s, ops[0]), ops[1..]);
    }
  }

  /** Deleting a room or a device takes it out of the objects that named it, deleting layers
      takes those away, and nothing else about any object changes. */
  lemma DeletionsAreLocal(s: State, id: Id, kept: set<Id>, created: nat, i: nat)
    requires i < |s.objects|
    ensures var was, now := s.objects[i], Step(s, DoDropRoom(id)).objects;
            && |now| == |s.objects| && now[i].id == was.id
            && now[i].item == was.item.(room := if was.item.room == Some(id) then None else was.item.room)
    ensures var was, now := s.objects[i], Step(s, DoDropDevice(id)).objects;
            && |now| == |s.objects| && now[i].id == was.id
            && now[i].item == was.item.(device := if was.item.device == Some(id) then None else was.item.device)
    ensures var was, s' := s.objects[i], Step(s, DoPutLayers(kept, created));
            && |s'.objects| == |s.objects| && s'.objects[i].id == was.id
            && s'.objects[i].item.(layer := None) == was.item.(layer := None)
            && s'.objects[i].item.layer ==
               (if was.item.layer.Some? && was.item.layer.value in s'.layers then was.item.layer else None)
            && forall x :: x in s'.layers <==> (x in s.layers && x in kept) || s.nextLayer <= x < s.nextLayer + created
  {
  }

  // ---- Restoring ----

  ghost predicate AllLinkable(s: State, items: seq<Item>) {
    forall i :: 0 <= i < |items| ==> Linkable(s.rooms, s.devices, items[i])
  }

  /** The items shown are the items given, column by column and in the same order; only a
      layer that is gone is replaced by none. */
  ghost predicate Rebuilt(shown: seq<Item>, items: seq<Item>, layers: set<Id>) {
    && |shown| == |items|
    && forall i :: 0 <= i < |items| ==>
         && shown[i].body == items[i].body && shown[i].device == items[i].device && shown[i].room == items[i].room
         && shown[i].sortOrder == items[i].sortOrder
         && shown[i].layer == if items[i].layer.Some? && items[i].layer.value in layers then items[i].layer else None
  }

  ghost predicate InOrder(items: seq<Item>) {
    forall i, j :: 0 <= i < j < |items| ==> items[i].sortOrder <= items[j].sortOrder
  }

  /** A replacement goes through exactly when every room and device named exists; then the
      items are shown in order under fresh ids. */
  lemma ReplaceShows(s: State, items: seq<Item>)
    requires InOrder(items)
    ensures Accepts(s, items) <==> AllLinkable(s, items)
    ensures Accepts(s, items) ==> Rebuilt(Items(Display(Replace(s, items).objects)), items, s.layers)
    ensures forall i :: 0 <= i < |Replace(s, items).objects| ==> Replace(s, items).objects[i].id == s.nextId + i
  {
    var rows := Rows(s.nextId, s.layers, items);
    DisplayInPlace(rows);
    assert items[..|items|] == items;
  }

  /** Publish, edit in any way, restore: the restore goes through exactly when the rooms and
      devices of the snapshot still exist, and then shows the published objects field by
      field and in the same order, under fresh ids: body, device, room and place are as they
      were, and so is the layer if it still exists, else there is none. */
  lemma RestoreRebuilds(s: State, ops: seq<Op>)
    requires Inv(s)
    ensures var published := Items(Display(s.objects));
            var s2 := Run(Publish(s), ops);
            var s3 := Restore(s2, |s.versions|);
            && |s.versions| < |s2.versions| && s2.versions[|s.versions|].snapshot == published
            && (Accepts(s2, published) <==> AllLinkable(s2, published))
            && (Accepts(s2, published) ==> Rebuilt(Items(Display(s3.objects)), published, s2.layers))
            && (forall i :: 0 <= i < |s3.objects| ==> s3.objects[i].id == s2.nextId + i)
            && s3.versions == s2.versions
  {
    var s1 := Publish(s);
    assert s1 == Step(s, DoPublish);
    StepKeeps(s, DoPublish);
    RunKeeps(s1, ops);
    var items := Items(Display(s.objects));
    assert s1.versions[|s.versions|].snapshot == items;
    DisplayOrdered(s.objects, s.nextId);
    assert InOrder(items) by {
      assert forall i, j :: 0 <= i < j < |items| ==> Before(Display(s.objects)[i], Display(s.objects)[j]);
    }
    ReplaceShows(Run(s1, ops), items);
  }

  /** A bulk save shows its objects in the order they were sent. */
  lemma PutObjectsShows(s: State, items: seq<Item>)
    ensures var s' := Step(s, DoPutObjects(items));
            && (Accepts(s, Renumber(items)) <==> AllLinkable(s, items))
            && (Accepts(s, Renumber(items)) ==>
                 Rebuilt(Items(Display(s'.objects)), seq(|items|, i requires 0 <= i < |items| =>
                           items[i].(sortOrder := i)), s.layers))
  {
    ReplaceShows(s, Renumber(items));
    assert forall i :: 0 <= i < |items| ==>
      (Linkable(s.rooms, s.devices, Renumber(items)[i]) <==> Linkable(s.rooms, s.devices, items[i]));
  }

  /** Without a transaction a refused restore loses what was there: the objects in front of
      the first dangling reference are all that is left. */
  lemma RefusedRestoreIsPartial(s: State, v: nat, n: nat)
    requires v < |s.versions| && n < |s.versions[v].snapshot|
    requires !Linkable(s.rooms, s.devices, s.versions[v].snapshot[n])
    requires forall i :: 0 <= i < n ==> Linkable(s.rooms, s.devices, s.versions[v].snapshot[i])
    ensures !Accepts(s, s.versions[v].snapshot)
    ensures Rebuilt(Items(Restore(s, v).objects), s.versions[v].snapshot[..n], s.layers)
  {
  }

  const PLAIN := Item(None, None, None, "bench", 0)
  const IN_ROOM := Item(None, None, Some(0), "lamp", 1)
  const TALE := [DoAddRoom, DoPutObjects([PLAIN, IN_ROOM]), DoPublish, DoDropRoom(0), DoRestore(0)]

  /** A concrete loss: two objects are published, the room of the second is deleted, and the
      refused restore leaves one object of the two. */
  lemma RestoreLosesObjects()
    ensures var before := Run(EMPTY, TALE[..4]);
            && |before.objects| == 2 && |before.versions| == 1 && |before.versions[0].snapshot| == 2
            && !Accepts(before, before.versions[0].snapshot)
            && Items(Run(EMPTY, TALE).objects) == [PLAIN]
  {
    RunFive(EMPTY, TALE);
    TalePublished();
    var s3 := Step(Step(Step(EMPTY, TALE[0]), TALE[1]), TALE[2]);
    TaleEnds(s3);
  }

  lemma TalePublished()
    ensures var s := Step(Step(Step(EMPTY, DoAddRoom), DoPutObjects([PLAIN, IN_ROOM])), DoPublish);
            && |s.objects| == 2 && s.layers == {} && s.devices == {}
            && |s.versions| == 1 && s.versions[0].snapshot == [PLAIN, IN_ROOM]
  {
    var s1 := Step(EMPTY, DoAddRoom);
    assert s1.rooms == {0} && AllLinkable(s1, [PLAIN, IN_ROOM]);
    assert Renumber([PLAIN, IN_ROOM]) == [PLAIN, IN_ROOM];
    ReplaceShows(s1, [PLAIN, IN_ROOM]);
  }

  lemma TaleEnds(s: State)
    requires s.layers == {} && s.devices == {}
    requires |s.versions| == 1 && s.versions[0].snapshot == [PLAIN, IN_ROOM]
    ensures var before := Step(s, DoDropRoom(0));
            && |before.objects| == |s.objects| && before.versions == s.versions
            && !Accepts(before, before.versions[0].snapshot)
            && Items(Step(before, DoRestore(0)).objects) == [PLAIN]
  {
    var before := Step(s, DoDropRoom(0));
    RefusedRestoreIsPartial(before, 0, 1);
    assert [PLAIN, IN_ROOM][..1] == [PLAIN];
  }

  lemma RunFive(s: State, ops: seq<Op>)
    requires |ops| == 5
    ensures Run(s, ops[..4]) == Step(Step(Step(Step(s, ops[0]), ops[1]), ops[2]), ops[3])
    ensures Run(s, ops) == Step(Run(s, ops[..4]), ops[4])
  {
    assert ops == [ops[0], ops[1], ops[2], ops[3], ops[4]];
    RunAppend(s, ops[..4], ops[4]);
    assert ops == ops[..4] + [ops[4]];
    RunAppend(s, ops[..3], ops[3]);
    assert ops[..4] == ops[..3] + [ops[3]];
    RunAppend(s, ops[..2], ops[2]);
    assert ops[..3] == ops[..2] + [ops[2]];
    RunAppend(s, ops[..1], ops[1]);
    assert ops[..2] == ops[..1] + [ops[1]];
    RunAppend(s, [], ops[0]);
    assert ops[..1] == [] + [ops[0]];
  }

  lemma {:induction false} RunAppend(s: State, ops: seq<Op>, op: Op)
    ensures Run(s, ops + [op]) == Step(Run(s, ops), op)
    decreases |ops|
  {
    if ops == [] {
      assert [] + [op] == [op] && [op][1..] == [];
    } else {
      assert (ops + [op])[1..] == ops[1..] + [op];
      RunAppend(Step(s, ops[0]), ops[1..], op);
    }
  }

  // ---- The object ----

  class MapLayout {
    var objects: seq<Row>
    var nextId: Id
    var layers: set<Id>
    var nextLayer: Id
    var rooms: set<Id>
    var devices: set<Id>
    var nextRef: Id
    var versions: seq<Version>

    ghost function Abs(): State
      reads this
    {
      State(objects, nextId, layers, nextLayer, rooms, devices, nextRef, versions)
    }

    constructor ()
      ensures Abs() == EMPTY && Inv(Abs())
    {
      objects, nextId, layers, nextLayer := [], 0, {}, 0;
      rooms, devices, nextRef, versions := {}, {}, 0, [];
    }

    /** The common loop of the bulk save and the restore. */
    method ReplaceObjects(items: seq<Item>) returns (ok: bool)
      modifies this`objects, this`nextId
      ensures Abs() == Replace(old(Abs()), items) && ok == Accepts(old(Abs()), items)
    {
      objects := [];
      var i := 0;
      while i < |items|
        invariant 0 <= i <= Taken(rooms, devices, items)
        invariant nextId == old(nextId) + i
        invariant objects == Rows(old(nextId), layers, items[..i])
      {
        var it := items[i];
        if (it.room.Some? && it.room.value !in rooms) || (it.device.Some? && it.device.value !in devices) {
          return false;
        }
        var layer := if it.layer.Some? && it.layer.value in layers then it.layer else None;
        objects := objects + [Row(nextId, it.(layer := layer))];
        nextId := nextId + 1;
        i := i + 1;
      }
      return true;
    }

    method PutObjects(items: seq<Item>) returns (ok: bool)
      modifies this
      ensures Abs() == Step(old(Abs()), DoPutObjects(items)) && ok == Accepts(old(Abs()), Renumber(items))
    {
      ok := ReplaceObjects(Renumber(items));
    }

    /** The loop over the layers sent: an entry with a known id updates that layer, any other
        entry creates one; both are seen. */
    method SeeLayers(wanted: seq<Option<Id>>) returns (seen: set<Id>)
      modifies this`layers, this`nextLayer
      ensures nextLayer == old(nextLayer) + Unknown(old(layers), wanted)
      ensures layers == old(layers) + Range(old(nextLayer), Unknown(old(layers), wanted))
      ensures seen == old(layers) * Named(wanted) + Range(old(nextLayer), Unknown(old(layers), wanted))
    {
      var existing := layers;
      seen := {};
      for i := 0 to |wanted|
        invariant nextLayer == old(nextLayer) + Unknown(existing, wanted[..i])
        invariant layers == existing + Range(old(nextLayer), Unknown(existing, wanted[..i]))
        invariant seen == existing * Named(wanted[..i]) + Range(old(nextLayer), Unknown(existing, wanted[..i]))
      {
        assert wanted[..i + 1][..i] == wanted[..i];
        if wanted[i].Some? && wanted[i].value in existing {
          seen := seen + {wanted[i].value};
        } else {
          layers, seen, nextLayer := layers + {nextLayer}, seen + {nextLayer}, nextLayer + 1;
        }
      }
      assert wanted[..|wanted|] == wanted;
    }

    /** The layer half of the bulk save: layers that were not seen are deleted. */
    method SaveLayers(wanted: seq<Option<Id>>)
      modifies this
      ensures Abs() == Step(old(Abs()), DoPutLayers(Named(wanted), Unknown(old(layers), wanted)))
      ensures forall x :: x in layers <==> (x in old(layers) && Some(x) in wanted) || old(nextLayer) <= x < nextLayer
      ensures nextLayer - old(nextLayer) == |wanted| - |KnownEntries(old(layers), wanted)|
    {
      EntriesCounted(layers, wanted);
      forall x ensures x in Named(wanted) <==> Some(x) in wanted { NamedAre(wanted, x); }
      var seen := SeeLayers(wanted);
      layers := layers * seen;
      assert layers == PutLayers(old(Abs()), Named(wanted), Unknown(old(layers), wanted)).layers;
      var kept := layers;
      objects := Unlink(objects, it => Relayer(kept, it));
      assert objects == PutLayers(old(Abs()), Named(wanted), Unknown(old(layers), wanted)).objects;
    }

    method PublishVersion() returns (number: nat)
      modifies this
      ensures Abs() == Step(old(Abs()), DoPublish) && number == Highest(old(versions)) + 1
    {
      number := Highest(versions) + 1;
      var withdrawn: seq<Version> := [];
      for i := 0 to |versions|
        invariant |withdrawn| == i && forall j :: 0 <= j < i ==> withdrawn[j] == versions[j].(published := false)
      {
        withdrawn := withdrawn + [versions[i].(published := false)];
      }
      versions := withdrawn + [Version(number, Items(Display(objects)), true)];
    }

    method RestoreVersion(v: nat) returns (ok: bool)
      modifies this
      ensures Abs() == Restore(old(Abs()), v)
      ensures v >= |old(versions)| ==> !ok && Abs() == old(Abs())
      ensures ok <==> v < |versions| && Accepts(old(Abs()), versions[v].snapshot)
    {
      if v >= |versions| { return false; }
      ok := ReplaceObjects(versions[v].snapshot);
    }
  }
}
