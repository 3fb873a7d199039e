/** Device rows in the database against the device dictionaries of a live registry: the
    reload from scratch, and the incremental update a relabel assignment makes. */
module Relabel {
  import opened Common

  type Pk = nat
  type RoomId = nat

  datatype Kind =
    | Dali | Relay | Switch | Curtain | Appliance | Toggle | NamedSwitch
    | DoorSensor | WindowSensor | MotionSensor | Custom

  /** A device row.  `scheme` says whether the row has an address scheme, and if so whether
      the scheme's templates render for this row. */
  datatype Row = Row(kind: Kind, channel: Option<nat>, gvlName: string, name: string,
                     room: Option<RoomId>, scheme: Option<bool>)

  /** The dictionary an object lives in, one per kind plus the scheme-driven one, and its
      key there. */
  datatype Dict = OfKind(kind: Kind) | Templated
  datatype Slot = Index(index: int) | Name(gvlName: string) | Device(pk: Pk) | NoIndex
  datatype Key = Key(dict: Dict, slot: Slot)

  /** A device object: display name, room name, the row id where the class keeps it, and
      whether it can be written. */
  datatype Entry = Entry(name: string, room: string, device: Option<Pk>, writable: bool)

  type Registry = map<Key, Entry>
  type Rows = map<Pk, Row>
  type Rooms = map<RoomId, string>

  const NAMED_RELAY_READONLY := "bventiliatorRelay"
  const APPLIANCE_NAMES := ["Fridge", "CoffeeMachine", "Microwave"]

  /** The index ranges the device classes accept. */
  predicate InRange(kind: Kind, i: int) {
    match kind
    case Dali => 1 <= i <= 31 && i != 29
    case Relay => 1 <= i <= 16
    case Switch => 1 <= i <= 48
    case Curtain => 1 <= i <= 2
    case DoorSensor => 1 <= i <= 16
    case WindowSensor => 1 <= i <= 16
    case MotionSensor => 1 <= i <= 8
    case _ => true
  }

  predicate Indexed(kind: Kind) {
    kind in {Dali, Relay, Switch, Curtain, DoorSensor, WindowSensor, MotionSensor}
  }

  /** Where the row's object goes; None: a custom row without a scheme is not loaded. */
  function KeyOf(pk: Pk, r: Row): Option<Key> {
    if r.scheme.Some? then Some(Key(Templated, Device(pk)))
    else if r.kind.Custom? then None
    else if Indexed(r.kind) then
      Some(Key(OfKind(r.kind), match r.channel case Some(i) => Index(i) case None => NoIndex))
    else Some(Key(OfKind(r.kind), Name(r.gvlName)))
  }

  /** Whether the object's constructor accepts the row. */
  predicate Buildable(r: Row) {
    if r.scheme.Some? then r.scheme.value
    else if r.kind.Appliance? then r.gvlName in APPLIANCE_NAMES
    else Indexed(r.kind) ==> r.channel.Some? && InRange(r.kind, r.channel.value)
  }

  function RoomName(rooms: Rooms, r: Row): string {
    if r.room.Some? && r.room.value in rooms then rooms[r.room.value] else "Unassigned"
  }

  function EntryOf(pk: Pk, r: Row, rooms: Rooms): Entry {
    Entry(r.name, RoomName(rooms, r),
          if r.scheme.Some? || r.kind.Dali? then Some(pk) else None,
          !(r.scheme.None? && r.kind.Toggle? && r.gvlName == NAMED_RELAY_READONLY))
  }

  // ---- Reload from scratch ----

  /** Loading the rows in the order `pks`; a row whose constructor raises ends the load.
      The result is the dictionaries as they are then, and whether the load came through. */
  function Load(reg: Registry, pks: seq<Pk>, rows: Rows, rooms: Rooms): (Registry, bool)
    requires forall pk :: pk in pks ==> pk in rows
    decreases |pks|
  {
    if pks == [] then (reg, true)
    else
      var r := rows[pks[0]];
      match KeyOf(pks[0], r)
      case None => Load(reg, pks[1..], rows, rooms)
      case Some(k) =>
        if Buildable(r) then Load(reg[k := EntryOf(pks[0], r, rooms)], pks[1..], rows, rooms) else (reg, false)
  }

  ghost predicate Lists(pks: seq<Pk>, rows: Rows) {
    Distinct(pks) && forall pk :: pk in pks <==> pk in rows
  }

  /** No two rows claim the same place in a dictionary, and no two rows of any kind share a
      kind and channel. */
  ghost predicate Unique(rows: Rows) {
    && (forall p, q :: p in rows && q in rows && p != q && KeyOf(p, rows[p]).Some? ==>
         KeyOf(p, rows[p]) != KeyOf(q, rows[q]))
    && (forall p, q :: p in rows && q in rows && p != q && rows[p].channel.Some? ==>
         !(rows[p].kind == rows[q].kind && rows[p].channel == rows[q].channel))
  }

  ghost predicate AllBuildable(rows: Rows) {
    forall p :: p in rows && KeyOf(p, rows[p]).Some? ==> Buildable(rows[p])
  }

  /** The dictionaries hold an object for each row that has a place, and nothing else. */
  ghost predicate Describes(reg: Registry, rows: Rows, rooms: Rooms) {
    && (forall p :: p in rows && KeyOf(p, rows[p]).Some? ==>
         KeyOf(p, rows[p]).value in reg && reg[KeyOf(p, rows[p]).value] == EntryOf(p, rows[p], rooms))
    && (forall k :: k in reg ==> exists p :: p in rows && KeyOf(p, rows[p]) == Some(k))
  }

  ghost predicate InSync(reg: Registry, rows: Rows, rooms: Rooms) {
    AllBuildable(rows) && Describes(reg, rows, rooms)
  }

  ghost function Part(pks: seq<Pk>, rows: Rows): Rows {
    map p | p in rows && p in pks :: rows[p]
  }

  /** The rows of the first `n` ids of a listing. */
  lemma PartNext(pks: seq<Pk>, rows: Rows, n: nat)
    requires Lists(pks, rows) && n < |pks|
    ensures Part(pks[..n + 1], rows) == Part(pks[..n], rows)[pks[n] := rows[pks[n]]] && pks[n] !in Part(pks[..n], rows)
  {
  }

  /** One more row on top of dictionaries that describe the rows before it. */
  lemma DescribesNext(reg: Registry, part: Rows, pk: Pk, r: Row, rows: Rows, rooms: Rooms)
    requires Describes(reg, part, rooms) && Unique(rows)
    requires part.Keys <= rows.Keys && (forall p :: p in part ==> part[p] == rows[p])
    requires pk in rows && rows[pk] == r && pk !in part
    ensures KeyOf(pk, r) == None ==> Describes(reg, part[pk := r], rooms)
    ensures KeyOf(pk, r).Some? ==> Describes(reg[KeyOf(pk, r).value := EntryOf(pk, r, rooms)], part[pk := r], rooms)
  {
    var part' := part[pk := r];
    var reg' := match KeyOf(pk, r) case None => reg case Some(k) => reg[k := EntryOf(pk, r, rooms)];
    forall p | p in part' && KeyOf(p, part'[p]).Some?
      ensures KeyOf(p, part'[p]).value in reg' && reg'[KeyOf(p, part'[p]).value] == EntryOf(p, part'[p], rooms)
    {
      if p != pk { OtherObject(reg, part, pk, r, rows, rooms, p); }
    }
    CoveredNext(reg, reg', part, part', pk, r);
  }

  /** The object of an earlier row is not where the next one goes. */
  lemma OtherObject(reg: Registry, part: Rows, pk: Pk, r: Row, rows: Rows, rooms: Rooms, p: Pk)
    requires Describes(reg, part, rooms) && Unique(rows)
    requires p in part && p in rows && part[p] == rows[p] && p != pk && KeyOf(p, part[p]).Some?
    requires pk in rows && rows[pk] == r
    ensures KeyOf(p, part[p]) != KeyOf(pk, r)
    ensures KeyOf(p, part[p]).value in reg && reg[KeyOf(p, part[p]).value] == EntryOf(p, part[p], rooms)
  {
  }

  lemma CoveredNext(reg: Registry, reg': Registry, part: Rows, part': Rows, pk: Pk, r: Row)
    requires forall k :: k in reg ==> exists p :: p in part && KeyOf(p, part[p]) == Some(k)
    requires forall k :: k in reg' ==> k in reg || KeyOf(pk, r) == Some(k)
    requires pk !in part && part' == part[pk := r]
    ensures forall k :: k in reg' ==> exists p :: p in part' && KeyOf(p, part'[p]) == Some(k)
  {
    forall k | k in reg' ensures exists p :: p in part' && KeyOf(p, part'[p]) == Some(k) {
      if KeyOf(pk, r) == Some(k) {
        assert pk in part' && KeyOf(pk, part'[pk]) == Some(k);
      } else {
        var p :| p in part && KeyOf(p, part[p]) == Some(k);
        assert p in part' && KeyOf(p, part'[p]) == Some(k);
      }
    }
  }

  lemma {:induction false} LoadDescribes(reg: Registry, pks: seq<Pk>, n: nat, rows: Rows, rooms: Rooms)
    requires Lists(pks, rows) && Unique(rows) && n <= |pks|
    requires Describes(reg, Part(pks[..n], rows), rooms)
    requires forall i :: 0 <= i < n ==> KeyOf(pks[i], rows[pks[i]]).Some? ==> Buildable(rows[pks[i]])
    ensures var (reg', ok) := Load(reg, pks[n..], rows, rooms);
            (ok <==> AllBuildable(rows)) && (ok ==> Describes(reg', rows, rooms))
    decreases |pks| - n
  {
    if n == |pks| {
      assert Part(pks[..n], rows) == rows by { assert pks[..n] == pks; }
      assert AllBuildable(rows) by {
        forall p | p in rows && KeyOf(p, rows[p]).Some? ensures Buildable(rows[p]) {
          assert p in pks;
        }
      }
    } else {
      var pk := pks[n];
      var r := rows[pk];
      assert pks[n..][1..] == pks[n + 1..] && pks[n..][0] == pk;
      PartNext(pks, rows, n);
      DescribesNext(reg, Part(pks[..n], rows), pk, r, rows, rooms);
      match KeyOf(pk, r) {
        case None => LoadDescribes(reg, pks, n + 1, rows, rooms);
        case Some(k) => if Buildable(r) { LoadDescribes(reg[k := EntryOf(pk, r, rooms)], pks, n + 1, rows, rooms); }
      }
    }
  }

  lemma SameDescription(a: Registry, b: Registry, rows: Rows, rooms: Rooms)
    requires Describes(a, rows, rooms) && Describes(b, rows, rooms)
    ensures a == b
  {
  }

  /** The live dictionaries equal a reload from scratch, whatever order the query returns
      the rows in, exactly when they describe the rows and every row can be built. */
  lemma ReloadEqualsLive(reg: Registry, pks: seq<Pk>, rows: Rows, rooms: Rooms)
    requires Lists(pks, rows) && Unique(rows)
    ensures Load(map[], pks, rows, rooms) == (reg, true) <==> InSync(reg, rows, rooms)
  {
    assert pks[0..] == pks && Part(pks[..0], rows) == map[];
    LoadDescribes(map[], pks, 0, rows, rooms);
    var (reg', ok) := Load(map[], pks, rows, rooms);
    if ok && Describes(reg, rows, rooms) { SameDescription(reg', reg, rows, rooms); }
  }

  /** What a successful reload holds for a row: an object under the row's own index, name or
      id, that carries the row's name and its room's, if it has one; only the ventilator toggle
      without an address scheme is read-only; and only lamps and scheme-driven objects know
      their row. */
  lemma LoadedObject(pks: seq<Pk>, rows: Rows, rooms: Rooms, p: Pk)
    requires Lists(pks, rows) && Unique(rows) && AllBuildable(rows) && p in rows
    ensures var (reg, ok) := Load(map[], pks, rows, rooms);
            var r := rows[p];
            var byIndex := r.kind in {Dali, Relay, Switch, Curtain, DoorSensor, WindowSensor, MotionSensor};
            && ok
            && (r.scheme.Some? ==> HoldsFor(reg, Key(Templated, Device(p)), r, rooms, Some(p), true))
            && (r.scheme.None? && byIndex ==>
                 && r.channel.Some?
                 && HoldsFor(reg, Key(OfKind(r.kind), Index(r.channel.value)), r, rooms,
                             if r.kind == Dali then Some(p) else None, true))
            && (r.scheme.None? && r.kind in {Appliance, Toggle, NamedSwitch} ==>
                 HoldsFor(reg, Key(OfKind(r.kind), Name(r.gvlName)), r, rooms, None,
                          r.kind != Toggle || r.gvlName != "bventiliatorRelay"))
            && (r.scheme.None? && r.kind == Custom ==> Key(Templated, Device(p)) !in reg)
  {
    assert pks[0..] == pks && Part(pks[..0], rows) == map[];
    LoadDescribes(map[], pks, 0, rows, rooms);
    DescribedObject(Load(map[], pks, rows, rooms).0, rows, rooms, p);
  }

  lemma DescribedObject(reg: Registry, rows: Rows, rooms: Rooms, p: Pk)
    requires Describes(reg, rows, rooms) && AllBuildable(rows) && p in rows
    ensures var r := rows[p];
            match KeyOf(p, r)
            case None => r.kind == Custom && r.scheme.None? && Key(Templated, Device(p)) !in reg
            case Some(k) => HoldsFor(reg, k, r, rooms, EntryOf(p, r, rooms).device, EntryOf(p, r, rooms).writable)
  {
    if Key(Templated, Device(p)) in reg {
      var q :| q in rows && KeyOf(q, rows[q]) == Some(Key(Templated, Device(p)));
    }
  }

  /** The object at `k` has the row's name, the name of its room, and the last two fields given. */
  ghost predicate HoldsFor(reg: Registry, k: Key, r: Row, rooms: Rooms, device: Option<Pk>, writable: bool) {
    && k in reg && reg[k].name == r.name && reg[k].device == device && reg[k].writable == writable
    && reg[k].room == if r.room.Some? && r.room.value in rooms then rooms[r.room.value] else "Unassigned"
  }

  function Placed(rows: Rows): set<Pk> {
    set p | p in rows && KeyOf(p, rows[p]).Some?
  }

  lemma {:induction false} KeysOfRows(ps: set<Pk>, rows: Rows) returns (keys: set<Key>)
    requires ps <= Placed(rows) && Unique(rows)
    ensures |keys| == |ps|
    ensures forall k :: k in keys <==> exists p :: p in ps && KeyOf(p, rows[p]) == Some(k)
    decreases |ps|
  {
    keys := {};
    if ps != {} {
      var p :| p in ps;
      var rest := KeysOfRows(ps - {p}, rows);
      var k := KeyOf(p, rows[p]).value;
      assert k !in rest;
      keys := rest + {k};
      forall k' | k' in keys ensures exists q :: q in ps && KeyOf(q, rows[q]) == Some(k') {
        if k' == k { assert p in ps && KeyOf(p, rows[p]) == Some(k'); }
        else { var q :| q in ps - {p} && KeyOf(q, rows[q]) == Some(k'); assert q in ps; }
      }
    }
  }

  /** A successful reload places each row that has a place exactly once, over all the
      dictionaries together: there are as many objects as such rows. */
  lemma OneObjectPerRow(pks: seq<Pk>, rows: Rows, rooms: Rooms)
    requires Lists(pks, rows) && Unique(rows) && AllBuildable(rows)
    ensures |Load(map[], pks, rows, rooms).0| == |Placed(rows)|
  {
    assert pks[0..] == pks && Part(pks[..0], rows) == map[];
    LoadDescribes(map[], pks, 0, rows, rooms);
    var keys := KeysOfRows(Placed(rows), rows);
    SameKeySets(Load(map[], pks, rows, rooms).0, rows, rooms, keys);
  }

  lemma SameKeySets(reg: Registry, rows: Rows, rooms: Rooms, keys: set<Key>)
    requires Describes(reg, rows, rooms)
    requires forall k :: k in keys <==> exists p :: p in Placed(rows) && KeyOf(p, rows[p]) == Some(k)
    ensures reg.Keys == keys
  {
    forall k ensures k in reg.Keys <==> k in keys {
      if k in keys { var p :| p in Placed(rows) && KeyOf(p, rows[p]) == Some(k); }
      if k in reg { var p :| p in rows && KeyOf(p, rows[p]) == Some(k); assert p in Placed(rows); }
    }
  }

  /** A row the constructors refuse ends every later reload, wherever the query lists it, so
      no dictionary content at all equals a successful reload. */
  lemma PoisonedReload(reg: Registry, pks: seq<Pk>, rows: Rows, rooms: Rooms, p: Pk)
    requires Lists(pks, rows) && Unique(rows)
    requires p in rows && KeyOf(p, rows[p]).Some? && !Buildable(rows[p])
    ensures !Load(map[], pks, rows, rooms).1 && !InSync(reg, rows, rooms)
  {
    assert pks[0..] == pks && Part(pks[..0], rows) == map[];
    LoadDescribes(map[], pks, 0, rows, rooms);
  }

  // ---- Relabel assignments ----

  datatype State = State(rows: Rows, rooms: Rooms, nextPk: Pk, nextRoom: RoomId, reg: Registry)

  datatype RoomChoice = ById(id: RoomId) | ByName(name: string) | NoRoom

  datatype Error = InvalidChannel | NameRequired | RoomRequired | RoomNotFound | Ambiguous

  datatype Result = Assigned(pk: Pk) | Refused(error: Error)

  datatype Request = Request(kind: Kind, channel: nat, name: string, room: RoomChoice)

  predicate IsOutput(kind: Kind) {
    kind.Dali? || kind.Relay? || kind.Curtain?
  }

  /** The kinds the two endpoints accept. */
  predicate Relabelable(kind: Kind) {
    IsOutput(kind) || kind.Switch? || kind.MotionSensor? || kind.DoorSensor? || kind.WindowSensor?
  }

  ghost predicate HasRow(rows: Rows, kind: Kind, channel: nat, p: Pk) {
    p in rows && rows[p].kind == kind && rows[p].channel == Some(channel)
  }

  /** Looking up or creating the room; a name that exists is reused. */
  ghost predicate RoomChosen(s: State, choice: RoomChoice, id: RoomId, rooms: Rooms, nextRoom: RoomId) {
    match choice
    case ById(r) => r in s.rooms && id == r && rooms == s.rooms && nextRoom == s.nextRoom
    case ByName(n) =>
      if exists r :: r in s.rooms && s.rooms[r] == n then
        id in s.rooms && s.rooms[id] == n && rooms == s.rooms && nextRoom == s.nextRoom
      else
        id == s.nextRoom && rooms == s.rooms[id := n] && nextRoom == s.nextRoom + 1
    case NoRoom => false
  }

  /** The row after get_or_create and the update of name and room. */
  function Relabelled(was: Option<Row>, q: Request, room: RoomId): Row {
    match was
    case Some(r) => r.(name := q.name, room := Some(room))
    case None => Row(q.kind, Some(q.channel), "", q.name, Some(room), None)
  }

  /** The key and object of the live update. */
  function LiveKey(q: Request): Key {
    Key(OfKind(q.kind), Index(q.channel))
  }

  function LiveEntry(q: Request, pk: Pk, roomName: string): Entry {
    Entry(q.name, roomName, if q.kind.Dali? then Some(pk) else None, true)
  }

  /** What an accepted assignment does: the row `pk` is updated or created, and the live
      dictionary gets an object if its constructor accepts the index. */
  ghost predicate AssignStep(s: State, q: Request, pk: Pk, room: RoomId, s': State) {
    && RoomChosen(s, q.room, room, s'.rooms, s'.nextRoom)
    && room in s'.rooms
    && (HasRow(s.rows, q.kind, q.channel, pk) ||
        (pk == s.nextPk && forall p :: !HasRow(s.rows, q.kind, q.channel, p)))
    && s'.rows == s.rows[pk := Relabelled(if pk in s.rows then Some(s.rows[pk]) else None, q, room)]
    && s'.nextPk == (if pk in s.rows then s.nextPk else s.nextPk + 1)
    && s'.reg == (if InRange(q.kind, q.channel) then s.reg[LiveKey(q) := LiveEntry(q, pk, s'.rooms[room])] else s.reg)
  }

  /** Ids are handed out upwards, and every row's room exists. */
  ghost predicate WellFormed(s: State) {
    && Unique(s.rows)
    && (forall p :: p in s.rows ==> p < s.nextPk && (s.rows[p].room.Some? ==> s.rows[p].room.value in s.rooms))
    && (forall r :: r in s.rooms ==> r < s.nextRoom)
  }

  /** No two rooms have one name. */
  ghost predicate NamesUnique(rooms: Rooms) {
    forall a, b :: a in rooms && b in rooms && rooms[a] == rooms[b] ==> a == b
  }

  /** The name of the room the request picks. */
  function ChosenName(s: State, choice: RoomChoice): string {
    match choice
    case ById(r) => if r in s.rooms then s.rooms[r] else ""
    case ByName(n) => n
    case NoRoom => ""
  }

  /** The condition of a harmless assignment, visible before the call.  An ordinary or new
      row needs an index its device class accepts.  A row with an address scheme is served
      by another dictionary than the one the update writes: there, only an update that
      changes nothing and whose live step is refused does no harm. */
  ghost predicate Harmless(s: State, q: Request) {
    && ((forall p :: !HasRow(s.rows, q.kind, q.channel, p)) ==> InRange(q.kind, q.channel))
    && (forall p :: HasRow(s.rows, q.kind, q.channel, p) ==> HarmlessFor(s, q, s.rows[p]))
  }

  predicate HarmlessFor(s: State, q: Request, r: Row) {
    if r.scheme == None then InRange(q.kind, q.channel)
    else !InRange(q.kind, q.channel) && r.name == q.name && RoomName(s.rooms, r) == ChosenName(s, q.room)
  }

  /** For a channel nobody has yet the condition is the index range of the device class. */
  lemma HarmlessNewRow(s: State, q: Request)
    requires Relabelable(q.kind) && forall p :: !HasRow(s.rows, q.kind, q.channel, p)
    ensures Harmless(s, q) <==>
            || (q.kind == Dali && 1 <= q.channel <= 31 && q.channel != 29)
            || (q.kind in {Relay, DoorSensor, WindowSensor} && 1 <= q.channel <= 16)
            || (q.kind == Switch && 1 <= q.channel <= 48)
            || (q.kind == Curtain && 1 <= q.channel <= 2)
            || (q.kind == MotionSensor && 1 <= q.channel <= 8)
  {
  }

  /** The row an assignment stores has the kind and channel asked for, and it is the only one. */
  lemma AssignedRow(s: State, q: Request, pk: Pk, room: RoomId, s': State)
    requires WellFormed(s) && AssignStep(s, q, pk, room, s')
    ensures HasRow(s'.rows, q.kind, q.channel, pk)
    ensures forall p :: p in s.rows && p != pk ==> !HasRow(s.rows, q.kind, q.channel, p)
    ensures pk in s.rows ==> s'.rows[pk] == s.rows[pk].(name := q.name, room := Some(room))
  {
    forall p | p in s.rows && p != pk ensures !HasRow(s.rows, q.kind, q.channel, p) {
      if HasRow(s.rows, q.kind, q.channel, pk) {
        assert !(s.rows[p].kind == s.rows[pk].kind && s.rows[p].channel == s.rows[pk].channel);
      }
    }
  }

  lemma AssignUnique(s: State, q: Request, pk: Pk, room: RoomId, s': State)
    requires WellFormed(s) && Relabelable(q.kind) && AssignStep(s, q, pk, room, s')
    ensures Unique(s'.rows)
  {
    AssignedRow(s, q, pk, room, s');
    var row := s'.rows[pk];
    forall p | p in s.rows && p != pk
      ensures KeyOf(p, s.rows[p]) != KeyOf(pk, row)
      ensures !(s.rows[p].kind == row.kind && s.rows[p].channel == row.channel)
    {
      assert !HasRow(s.rows, q.kind, q.channel, p);
    }
    UniqueWith(s.rows, s'.rows, pk);
  }

  /** One row replaced or added by one that nobody collides with. */
  lemma UniqueWith(rows: Rows, rows': Rows, pk: Pk)
    requires Unique(rows) && pk in rows' && rows' == rows[pk := rows'[pk]]
    requires forall p :: p in rows && p != pk ==> KeyOf(p, rows[p]) != KeyOf(pk, rows'[pk])
    requires forall p :: p in rows && p != pk ==>
               !(rows[p].kind == rows'[pk].kind && rows[p].channel == rows'[pk].channel)
    ensures Unique(rows')
  {
  }

  lemma AssignWellFormed(s: State, q: Request, pk: Pk, room: RoomId, s': State)
    requires WellFormed(s) && Relabelable(q.kind) && AssignStep(s, q, pk, room, s')
    ensures WellFormed(s') && s'.nextPk >= s.nextPk
    ensures s'.rooms[room] == ChosenName(s, q.room)
    ensures forall r :: r in s.rooms ==> r in s'.rooms && s'.rooms[r] == s.rooms[r]
    ensures NamesUnique(s.rooms) ==> NamesUnique(s'.rooms)
    ensures HasRow(s'.rows, q.kind, q.channel, pk)
  {
    AssignedRow(s, q, pk, room, s');
    AssignUnique(s, q, pk, room, s');
  }

  /** Rows the assignment does not touch keep their objects. */
  lemma OtherRowKept(s: State, q: Request, pk: Pk, room: RoomId, s': State, p: Pk)
    requires WellFormed(s) && Relabelable(q.kind) && AssignStep(s, q, pk, room, s')
    requires InSync(s.reg, s.rows, s.rooms)
    requires p in s'.rows && p != pk && KeyOf(p, s'.rows[p]).Some? && KeyOf(p, s'.rows[p]).value != LiveKey(q)
    ensures Buildable(s'.rows[p])
    ensures KeyOf(p, s'.rows[p]).value in s'.reg
    ensures s'.reg[KeyOf(p, s'.rows[p]).value] == EntryOf(p, s'.rows[p], s'.rooms)
  {
  }

  /** No other row claims the plain key of the request. */
  lemma LiveKeyIsFree(s: State, q: Request, pk: Pk, room: RoomId, s': State, p: Pk)
    requires WellFormed(s) && Relabelable(q.kind) && AssignStep(s, q, pk, room, s')
    requires p in s'.rows && p != pk
    ensures KeyOf(p, s'.rows[p]) != Some(LiveKey(q))
  {
    AssignWellFormed(s, q, pk, room, s');
    assert s'.rows[pk].channel == Some(q.channel);
  }

  /** When the row touched has the same key before and after, or had none, and its object is
      right, the registry is in sync: the other rows keep their places and objects. */
  lemma SyncFromRow(s: State, q: Request, pk: Pk, room: RoomId, s': State, k: Key)
    requires WellFormed(s) && Relabelable(q.kind) && AssignStep(s, q, pk, room, s')
    requires InSync(s.reg, s.rows, s.rooms)
    requires KeyOf(pk, s'.rows[pk]) == Some(k) && Buildable(s'.rows[pk])
    requires k in s'.reg && s'.reg[k] == EntryOf(pk, s'.rows[pk], s'.rooms)
    requires InRange(q.kind, q.channel) ==> k == LiveKey(q)
    requires pk in s.rows ==> KeyOf(pk, s.rows[pk]) == Some(k)
    ensures InSync(s'.reg, s'.rows, s'.rooms)
  {
    forall p | p in s'.rows && KeyOf(p, s'.rows[p]).Some?
      ensures Buildable(s'.rows[p])
      ensures KeyOf(p, s'.rows[p]).value in s'.reg
      ensures s'.reg[KeyOf(p, s'.rows[p]).value] == EntryOf(p, s'.rows[p], s'.rooms)
    {
      if p != pk {
        LiveKeyIsFree(s, q, pk, room, s', p);
        OtherRowKept(s, q, pk, room, s', p);
      }
    }
    KeysCovered(s, q, pk, room, s', k);
  }

  lemma KeysCovered(s: State, q: Request, pk: Pk, room: RoomId, s': State, k: Key)
    requires AssignStep(s, q, pk, room, s') && Describes(s.reg, s.rows, s.rooms)
    requires KeyOf(pk, s'.rows[pk]) == Some(k)
    requires InRange(q.kind, q.channel) ==> k == LiveKey(q)
    requires pk in s.rows ==> KeyOf(pk, s.rows[pk]) == Some(k)
    ensures forall k' :: k' in s'.reg ==> exists p :: p in s'.rows && KeyOf(p, s'.rows[p]) == Some(k')
  {
    forall k' | k' in s'.reg ensures exists p :: p in s'.rows && KeyOf(p, s'.rows[p]) == Some(k') {
      if k' == k {
        assert pk in s'.rows && KeyOf(pk, s'.rows[pk]) == Some(k');
      } else {
        var p :| p in s.rows && KeyOf(p, s.rows[p]) == Some(k');
        assert p in s'.rows && KeyOf(p, s'.rows[p]) == Some(k');
      }
    }
  }

  lemma PlainKeepsSync(s: State, q: Request, pk: Pk, room: RoomId, s': State)
    requires WellFormed(s) && Relabelable(q.kind) && AssignStep(s, q, pk, room, s')
    requires InSync(s.reg, s.rows, s.rooms) && s'.rows[pk].scheme == None && InRange(q.kind, q.channel)
    ensures InSync(s'.reg, s'.rows, s'.rooms)
  {
    AssignWellFormed(s, q, pk, room, s');
    SyncFromRow(s, q, pk, room, s', LiveKey(q));
  }

  lemma SchemeKeepsSync(s: State, q: Request, pk: Pk, room: RoomId, s': State)
    requires WellFormed(s) && Relabelable(q.kind) && AssignStep(s, q, pk, room, s')
    requires InSync(s.reg, s.rows, s.rooms) && HasRow(s.rows, q.kind, q.channel, pk)
    requires s.rows[pk].scheme.Some? && HarmlessFor(s, q, s.rows[pk])
    ensures InSync(s'.reg, s'.rows, s'.rooms)
  {
    AssignWellFormed(s, q, pk, room, s');
    assert KeyOf(pk, s.rows[pk]) == KeyOf(pk, s'.rows[pk]) == Some(Key(Templated, Device(pk)));
    SyncFromRow(s, q, pk, room, s', Key(Templated, Device(pk)));
  }

  lemma HarmlessKeepsSync(s: State, q: Request, pk: Pk, room: RoomId, s': State)
    requires WellFormed(s) && Relabelable(q.kind) && AssignStep(s, q, pk, room, s')
    requires InSync(s.reg, s.rows, s.rooms) && Harmless(s, q)
    ensures InSync(s'.reg, s'.rows, s'.rooms)
  {
    if HasRow(s.rows, q.kind, q.channel, pk) && s.rows[pk].scheme.Some? {
      SchemeKeepsSync(s, q, pk, room, s');
    } else {
      PlainKeepsSync(s, q, pk, room, s');
    }
  }

  /** The contrapositive, for an ordinary or new row and for a row with an address scheme. */
  lemma SyncMeansInRange(s: State, q: Request, pk: Pk, room: RoomId, s': State)
    requires WellFormed(s) && Relabelable(q.kind) && AssignStep(s, q, pk, room, s')
    requires InSync(s'.reg, s'.rows, s'.rooms) && s'.rows[pk].scheme == None
    ensures InRange(q.kind, q.channel)
  {
    AssignedRow(s, q, pk, room, s');
    assert KeyOf(pk, s'.rows[pk]).Some?;
  }

  lemma SyncMeansUnchanged(s: State, q: Request, pk: Pk, room: RoomId, s': State)
    requires WellFormed(s) && Relabelable(q.kind) && AssignStep(s, q, pk, room, s')
    requires InSync(s.reg, s.rows, s.rooms) && InSync(s'.reg, s'.rows, s'.rooms)
    requires pk in s.rows && s.rows[pk].scheme.Some?
    ensures HarmlessFor(s, q, s.rows[pk])
  {
    AssignedRow(s, q, pk, room, s');
    AssignWellFormed(s, q, pk, room, s');
    NoSecondObject(s, q, pk, room, s');
    var tk := Key(Templated, Device(pk));
    assert KeyOf(pk, s.rows[pk]) == Some(tk) && KeyOf(pk, s'.rows[pk]) == Some(tk);
    assert s'.reg[tk] == EntryOf(pk, s'.rows[pk], s'.rooms) && s.reg[tk] == EntryOf(pk, s.rows[pk], s.rooms);
  }

  lemma SyncMeansHarmless(s: State, q: Request, pk: Pk, room: RoomId, s': State)
    requires WellFormed(s) && Relabelable(q.kind) && AssignStep(s, q, pk, room, s')
    requires InSync(s.reg, s.rows, s.rooms) && InSync(s'.reg, s'.rows, s'.rooms)
    ensures Harmless(s, q)
  {
    AssignedRow(s, q, pk, room, s');
    if s'.rows[pk].scheme == None {
      SyncMeansInRange(s, q, pk, room, s');
    } else {
      assert pk in s.rows;
      SyncMeansUnchanged(s, q, pk, room, s');
      assert HasRow(s.rows, q.kind, q.channel, pk);
    }
    forall p | HasRow(s.rows, q.kind, q.channel, p) ensures HarmlessFor(s, q, s.rows[p]) {
      assert p == pk;
    }
  }

  /** In sync, no object sits at the plain key of a row that has an address scheme, so the
      live step cannot have run. */
  lemma NoSecondObject(s: State, q: Request, pk: Pk, room: RoomId, s': State)
    requires WellFormed(s) && Relabelable(q.kind) && AssignStep(s, q, pk, room, s')
    requires InSync(s'.reg, s'.rows, s'.rooms) && s'.rows[pk].scheme.Some?
    ensures !InRange(q.kind, q.channel)
  {
    forall p | p in s'.rows ensures KeyOf(p, s'.rows[p]) != Some(LiveKey(q)) {
      if p != pk { LiveKeyIsFree(s, q, pk, room, s', p); }
    }
  }

  /** An accepted assignment leaves the registry equal to a reload from scratch exactly when
      it was harmless. */
  lemma AssignKeepsSync(s: State, q: Request, pk: Pk, room: RoomId, s': State, pks: seq<Pk>)
    requires WellFormed(s) && Relabelable(q.kind) && AssignStep(s, q, pk, room, s')
    requires InSync(s.reg, s.rows, s.rooms) && Lists(pks, s'.rows)
    ensures Load(map[], pks, s'.rows, s'.rooms) == (s'.reg, true) <==> Harmless(s, q)
  {
    AssignWellFormed(s, q, pk, room, s');
    ReloadEqualsLive(s'.reg, pks, s'.rows, s'.rooms);
    if Harmless(s, q) {
      HarmlessKeepsSync(s, q, pk, room, s');
    }
    if InSync(s'.reg, s'.rows, s'.rooms) {
      SyncMeansHarmless(s, q, pk, room, s');
    }
  }

  /** An input index out of range is accepted, on a synced registry, and from then on no
      reload comes through. */
  lemma OutOfRangeInputPoisons()
    ensures var s := State(map[], HALL, 0, 1, map[]);
            var q := Request(Switch, 49, "Spare", ById(0));
            var s' := s.(rows := map[0 := Row(Switch, Some(49), "", "Spare", Some(0), None)], nextPk := 1);
            && WellFormed(s) && InSync(s.reg, s.rows, s.rooms) && CallStep(s, Call(q, Assigned(0), 0), s')
            && Load(map[], [0], s'.rows, s'.rooms) == (map[], false)
  {
    var s := State(map[], HALL, 0, 1, map[]);
    var q := Request(Switch, 49, "Spare", ById(0));
    assert forall p :: !HasRow(s.rows, q.kind, q.channel, p);
  }

  const HALL: Rooms := map[0 := "Hall"]
  const SCHEME_ROW := Row(Dali, Some(5), "", "Lamp", Some(0), Some(true))
  const SCHEME_STATE := State(map[0 := SCHEME_ROW], HALL, 1, 1,
                              map[Key(Templated, Device(0)) := EntryOf(0, SCHEME_ROW, HALL)])

  /** A row with an address scheme gets a second object next to its own, which a reload does
      not build. */
  lemma SchemeRowDoubled()
    ensures var q := Request(Dali, 5, "Lamp", ById(0));
            var s' := SCHEME_STATE.(reg := SCHEME_STATE.reg[LiveKey(q) := LiveEntry(q, 0, "Hall")]);
            && InSync(SCHEME_STATE.reg, SCHEME_STATE.rows, HALL)
            && CallStep(SCHEME_STATE, Call(q, Assigned(0), 0), s')
            && Load(map[], [0], s'.rows, HALL) == (SCHEME_STATE.reg, true) && s'.reg != SCHEME_STATE.reg
  {
    var s, q := SCHEME_STATE, Request(Dali, 5, "Lamp", ById(0));
    assert HasRow(s.rows, Dali, 5, 0);
    assert s.rows[0 := SCHEME_ROW] == s.rows;
    assert InSync(s.reg, s.rows, HALL) by {
      assert 0 in s.rows && KeyOf(0, s.rows[0]) == Some(Key(Templated, Device(0)));
    }
    assert LiveKey(q) !in s.reg;
    assert Load(map[], [0], s.rows, HALL) == (s.reg, true) by { assert [0][1..] == []; }
  }

  // ---- Runs of assignments ----

  /** Why a call is refused before it touches the database, in the order of the checks.
      Only the output endpoint looks at the channel number. */
  function Refusal(q: Request, rooms: Rooms): Option<Error> {
    if IsOutput(q.kind) && !InRange(q.kind, q.channel) then Some(InvalidChannel)
    else if q.name == "" then Some(NameRequired)
    else if q.room.NoRoom? then Some(RoomRequired)
    else if q.room.ById? && q.room.id !in rooms then Some(RoomNotFound)
    else None
  }

  /** Two rows answer the lookup: it raises, after the room was looked up or created. */
  ghost predicate AmbiguousStep(s: State, q: Request, room: RoomId, s': State) {
    && RoomChosen(s, q.room, room, s'.rooms, s'.nextRoom)
    && s' == s.(rooms := s'.rooms, nextRoom := s'.nextRoom)
    && exists a, b :: a != b && HasRow(s.rows, q.kind, q.channel, a) && HasRow(s.rows, q.kind, q.channel, b)
  }

  /** One call of an assignment endpoint as the database and the registry see it. */
  datatype Call = Call(q: Request, result: Result, room: RoomId)

  ghost predicate CallStep(s: State, c: Call, s': State) {
    && Relabelable(c.q.kind)
    && match c.result
       case Refused(Ambiguous) => Refusal(c.q, s.rooms) == None && AmbiguousStep(s, c.q, c.room, s')
       case Refused(e) => Refusal(c.q, s.rooms) == Some(e) && s' == s
       case Assigned(pk) => Refusal(c.q, s.rooms) == None && AssignStep(s, c.q, pk, c.room, s')
  }

  ghost predicate IsRun(states: seq<State>, calls: seq<Call>) {
    && |states| == |calls| + 1
    && forall i :: 0 <= i < |calls| ==> CallStep(states[i], calls[i], states[i + 1])
  }

  /** After any number of calls whose accepted assignments were harmless, the registry is
      what a reload from scratch would build, in whatever order it lists the rows. */
  lemma {:induction false} RunsKeepSync(states: seq<State>, calls: seq<Call>, pks: seq<Pk>)
    requires IsRun(states, calls) && WellFormed(states[0])
    requires InSync(states[0].reg, states[0].rows, states[0].rooms)
    requires forall i :: 0 <= i < |calls| && calls[i].result.Assigned? ==> Harmless(states[i], calls[i].q)
    requires Lists(pks, states[|calls|].rows)
    ensures Load(map[], pks, states[|calls|].rows, states[|calls|].rooms) == (states[|calls|].reg, true)
  {
    RunInvariant(states, calls, |calls|);
    var s := states[|calls|];
    ReloadEqualsLive(s.reg, pks, s.rows, s.rooms);
  }

  lemma {:induction false} RunInvariant(states: seq<State>, calls: seq<Call>, n: nat)
    requires IsRun(states, calls) && WellFormed(states[0]) && n <= |calls|
    requires InSync(states[0].reg, states[0].rows, states[0].rooms)
    requires forall i :: 0 <= i < |calls| && calls[i].result.Assigned? ==> Harmless(states[i], calls[i].q)
    ensures WellFormed(states[n]) && InSync(states[n].reg, states[n].rows, states[n].rooms)
  {
    if n > 0 {
      RunInvariant(states, calls, n - 1);
      var s, s', c := states[n - 1], states[n], calls[n - 1];
      assert CallStep(s, c, s');
      if c.result.Assigned? {
        AssignWellFormed(s, c.q, c.result.pk, c.room, s');
        HarmlessKeepsSync(s, c.q, c.result.pk, c.room, s');
      }
    }
  }

  /** An apartment's device and room tables beside its live registry. */
  class Site {
    var rows: Rows
    var rooms: Rooms
    var nextPk: Pk
    var nextRoom: RoomId
    var reg: Registry

    ghost function Now(): State
      reads this
    {
      State(rows, rooms, nextPk, nextRoom, reg)
    }

    /** refresh_devices: clear the dictionaries and add the rows in the order of the query.
        A constructor that raises leaves the dictionaries as they are by then. */
    method RefreshDevices(pks: seq<Pk>) returns (ok: bool)
      requires forall pk :: pk in pks ==> pk in rows
      modifies this`reg
      ensures (reg, ok) == Load(map[], pks, rows, rooms)
    {
      reg := map[];
      var i := 0;
      while i < |pks|
        invariant i <= |pks|
        invariant Load(map[], pks, rows, rooms) == Load(reg, pks[i..], rows, rooms)
      {
        var pk := pks[i];
        assert pks[i..][0] == pk && pks[i..][1..] == pks[i + 1..];
        var key := KeyOf(pk, rows[pk]);
        if key.Some? {
          if !Buildable(rows[pk]) {
            return false;
          }
          reg := reg[key.value := EntryOf(pk, rows[pk], rooms)];
        }
        i := i + 1;
      }
      return true;
    }

    method ChooseRoom(choice: RoomChoice) returns (room: RoomId)
      requires choice.ById? ==> choice.id in rooms
      requires !choice.NoRoom? && forall r :: r in rooms ==> r < nextRoom
      modifies this`rooms, this`nextRoom
      ensures RoomChosen(old(Now()), choice, room, rooms, nextRoom) && room in rooms
    {
      match choice {
        case ById(id) => room := id;
        case ByName(n) =>
          if r :| r in rooms && rooms[r] == n {
            room := r;
          } else {
            room := nextRoom;
            rooms, nextRoom := rooms[room := n], nextRoom + 1;
          }
      }
    }

    /** get_or_create of the device row, then the update of name and room. */
    method StoreRow(q: Request, room: RoomId) returns (r: Result)
      requires forall p :: p in rows ==> p < nextPk
      modifies this`rows, this`nextPk
      ensures r.Refused? ==> rows == old(rows) && nextPk == old(nextPk) && r.error == Ambiguous
      ensures r.Refused? ==>
                exists a, b :: a != b && HasRow(rows, q.kind, q.channel, a) && HasRow(rows, q.kind, q.channel, b)
      ensures r.Assigned? ==> HasRow(old(rows), q.kind, q.channel, r.pk) ||
                              (r.pk == old(nextPk) && forall p :: !HasRow(old(rows), q.kind, q.channel, p))
      ensures r.Assigned? ==>
                var was := if r.pk in old(rows) then Some(old(rows)[r.pk]) else None;
                rows == old(rows)[r.pk := Relabelled(was, q, room)]
      ensures r.Assigned? ==> nextPk == (if r.pk in old(rows) then old(nextPk) else old(nextPk) + 1)
    {
      if p :| p in rows && rows[p].kind == q.kind && rows[p].channel == Some(q.channel) {
        if p2 :| p2 in rows && p2 != p && rows[p2].kind == q.kind && rows[p2].channel == Some(q.channel) {
          assert HasRow(rows, q.kind, q.channel, p) && HasRow(rows, q.kind, q.channel, p2);
          return Refused(Ambiguous);
        }
        rows := rows[p := rows[p].(name := q.name, room := Some(room))];
        return Assigned(p);
      }
      rows, nextPk := rows[nextPk := Row(q.kind, Some(q.channel), "", q.name, Some(room), None)], nextPk + 1;
      return Assigned(nextPk - 1);
    }

    /** assign_output_channel and assign_input: the checks, the room, the row, then the live
        update, whose exception is caught. */
    method Assign(q: Request) returns (r: Result, room: RoomId)
      requires Relabelable(q.kind)
      requires forall p :: p in rows ==> p < nextPk
      requires forall x :: x in rooms ==> x < nextRoom
      modifies this
      ensures CallStep(old(Now()), Call(q, r, room), Now())
      ensures r == Refused(InvalidChannel) <==>
                || (q.kind == Dali && !(1 <= q.channel <= 31 && q.channel != 29))
                || (q.kind == Relay && !(1 <= q.channel <= 16))
                || (q.kind == Curtain && !(1 <= q.channel <= 2))
      ensures r == Refused(NameRequired) <==> q.name == "" && r != Refused(InvalidChannel)
      ensures r == Refused(RoomRequired) <==> q.room.NoRoom? && q.name != "" && r != Refused(InvalidChannel)
      ensures r == Refused(RoomNotFound) <==>
                q.room.ById? && q.room.id !in old(rooms) && q.name != "" && r != Refused(InvalidChannel)
      ensures r.Assigned? ==> rows[r.pk].name == q.name && rows[r.pk].kind == q.kind && rows[r.pk].room == Some(room)
      ensures r.Assigned? && q.room.ById? ==> room == q.room.id
      ensures r.Assigned? && q.room.ByName? ==> room in rooms && rooms[room] == q.room.name
    {
      room := 0;
      if IsOutput(q.kind) && !InRange(q.kind, q.channel) { return Refused(InvalidChannel), room; }
      if q.name == "" { return Refused(NameRequired), room; }
      if q.room.NoRoom? { return Refused(RoomRequired), room; }
      if q.room.ById? && q.room.id !in rooms { return Refused(RoomNotFound), room; }
      room := ChooseRoom(q.room);
      r := StoreRow(q, room);
      if r.Assigned? && InRange(q.kind, q.channel) {
        reg := reg[LiveKey(q) := LiveEntry(q, r.pk, rooms[room])];
      }
    }
  }
}
