/** The event bus that feeds SSE clients: one bounded queue per client, the oldest event
    dropped when it is full.  The broadcast runs under the bus lock, but a consumer takes
    from its queue without that lock, at any moment in between. */
module EventBus {
  import opened Common

  type Id = string

  /** Data events carry the bus-wide sequence number; heartbeats carry none. */
  datatype Event = Data(number: nat, payload: string) | Heartbeat

  const MAX_QUEUE_SIZE := 500

  /** An event that left a queue: taken by the consumer, or dropped by the bus. */
  datatype Removed = Removed(event: Event, received: bool)

  /** A client's queue with its history: what left it, in order, what was put into it since
      registration, and at registration the event count and the length of the broadcast log. */
  datatype Client = Client(queue: seq<Event>, removed: seq<Removed>, sent: seq<Event>, joined: nat, since: nat)

  datatype Phase = Checking | Dropping | Putting

  /** The broadcast in progress: the clients left to serve, and how far the first one is. */
  datatype Busy = Free | Serving(event: Event, todo: seq<Id>, phase: Phase)

  /** `log` holds every event a broadcast was begun with, heartbeats included. */
  datatype State = State(clients: map<Id, Client>, count: nat, busy: Busy, log: seq<Event>)

  /** `order` is the order in which the broadcast visits the clients. */
  datatype Step =
    | Publish(payload: string, order: seq<Id>)
    | Beat(order: seq<Id>)
    | Register(id: Id)
    | Unregister(id: Id)
    | Advance
    | Get(id: Id)

  ghost predicate Visits(s: State, order: seq<Id>) {
    Distinct(order) && forall id :: id in order <==> id in s.clients
  }

  function Take(c: Client, received: bool): Client {
    if c.queue == [] then c else c.(queue := c.queue[1..], removed := c.removed + [Removed(c.queue[0], received)])
  }

  function Put(c: Client, e: Event): Client {
    c.(queue := c.queue + [e], sent := c.sent + [e])
  }

  function AdvanceStep(s: State): State
    requires s.busy.Serving? && forall id :: id in s.busy.todo ==> id in s.clients
  {
    var Serving(e, todo, phase) := s.busy;
    if todo == [] then s.(busy := Free)
    else
      var id := todo[0];
      var c := s.clients[id];
      match phase
      case Checking => s.(busy := s.busy.(phase := if |c.queue| >= MAX_QUEUE_SIZE then Dropping else Putting))
      case Dropping => s.(clients := s.clients[id := Take(c, false)], busy := s.busy.(phase := Putting))
      case Putting => s.(clients := s.clients[id := Put(c, e)], busy := Serving(e, todo[1..], Checking))
  }

  /** Steps that are not enabled change nothing; publishing and (un)registering need the
      lock, a consumer does not. */
  ghost function Next(s: State, x: Step): State {
    match x
    case Get(id) => if id in s.clients then s.(clients := s.clients[id := Take(s.clients[id], true)]) else s
    case Advance =>
      if s.busy.Serving? && forall id :: id in s.busy.todo ==> id in s.clients then AdvanceStep(s) else s
    case Publish(payload, order) =>
      if s.busy.Free? && Visits(s, order) then Begin(s.(count := s.count + 1), Data(s.count + 1, payload), order) else s
    case Beat(order) =>
      if s.busy.Free? && Visits(s, order) then Begin(s, Heartbeat, order) else s
    case Register(id) =>
      if s.busy.Free? && id !in s.clients
      then s.(clients := s.clients[id := Client([], [], [], s.count, |s.log|)])
      else s
    case Unregister(id) => if s.busy.Free? then s.(clients := s.clients - {id}) else s
  }

  function Begin(s: State, e: Event, order: seq<Id>): State {
    s.(busy := Serving(e, order, Checking), log := s.log + [e])
  }

  ghost function Run(s: State, xs: seq<Step>): State
    decreases |xs|
  {
    if xs == [] then s else Run(Next(s, xs[0]), xs[1..])
  }

  const START := State(map[], 0, Free, [])

  // ---- Counting ----

  ghost function DataCount(es: seq<Event>): nat {
    if es == [] then 0 else DataCount(es[..|es| - 1]) + if es[|es| - 1].Data? then 1 else 0
  }

  ghost function Events(r: seq<Removed>): (es: seq<Event>)
    ensures |es| == |r| && forall i :: 0 <= i < |r| ==> es[i] == r[i].event
  {
    seq(|r|, i requires 0 <= i < |r| => r[i].event)
  }

  ghost function Tally(r: seq<Removed>, received: bool): nat {
    if r == [] then 0 else Tally(r[..|r| - 1], received) + if r[|r| - 1].received == received then 1 else 0
  }

  /** Data events that the bus dropped. */
  ghost function DroppedData(r: seq<Removed>): nat {
    if r == [] then 0
    else DroppedData(r[..|r| - 1]) + if r[|r| - 1].event.Data? && !r[|r| - 1].received then 1 else 0
  }

  /** The numbers of the data events in `es`, which began after number `joined`, have no
      gaps. */
  ghost predicate Numbered(es: seq<Event>, joined: nat) {
    es == [] ||
    var n := |es| - 1;
    Numbered(es[..n], joined) && (es[n].Data? ==> es[n].number == joined + DataCount(es[..n]) + 1)
  }

  // ---- What every step keeps ----

  ghost predicate Consistent(c: Client) {
    && |c.queue| <= MAX_QUEUE_SIZE
    && c.sent == Events(c.removed) + c.queue
    && Numbered(c.sent, c.joined)
  }

  /** The broadcast still owes this client the data event it is distributing. */
  ghost predicate Owed(s: State, id: Id) {
    s.busy.Serving? && s.busy.event.Data? && id in s.busy.todo
  }

  ghost predicate UpToDate(s: State, id: Id, c: Client) {
    c.joined + DataCount(c.sent) + (if Owed(s, id) then 1 else 0) == s.count
  }

  ghost predicate Inv(s: State) {
    && (forall id :: id in s.clients ==> Consistent(s.clients[id]) && UpToDate(s, id, s.clients[id]))
    && (s.busy.Serving? ==>
         && Distinct(s.busy.todo) && (forall id :: id in s.busy.todo ==> id in s.clients)
         && (s.busy.event.Data? ==> s.busy.event.number == s.count)
         && (s.busy.phase == Putting && s.busy.todo != [] ==> |s.clients[s.busy.todo[0]].queue| < MAX_QUEUE_SIZE))
  }

  lemma TakeConsistent(c: Client, received: bool)
    requires Consistent(c)
    ensures Consistent(Take(c, received))
    ensures Take(c, received) == c.(queue := Take(c, received).queue, removed := Take(c, received).removed)
    ensures c.queue != [] ==> |Take(c, received).queue| == |c.queue| - 1
  {
    if c.queue != [] {
      var r := c.removed + [Removed(c.queue[0], received)];
      assert Events(r) == Events(c.removed) + [c.queue[0]];
      assert Events(r) + c.queue[1..] == Events(c.removed) + c.queue;
    }
  }

  lemma PutConsistent(c: Client, e: Event)
    requires Consistent(c) && |c.queue| < MAX_QUEUE_SIZE
    requires e.Data? ==> e.number == c.joined + DataCount(c.sent) + 1
    ensures Consistent(Put(c, e))
    ensures DataCount(Put(c, e).sent) == DataCount(c.sent) + if e.Data? then 1 else 0
  {
    var es := c.sent + [e];
    assert es[..|es| - 1] == c.sent;
    assert Events(c.removed) + (c.queue + [e]) == es;
  }

  /** A step that replaces one client's record and keeps what is owed to whom. */
  lemma OneClientChanged(s: State, s': State, id: Id)
    requires Inv(s) && id in s.clients && id in s'.clients && s'.clients == s.clients[id := s'.clients[id]]
    requires s'.count == s.count && forall k :: k != id ==> (Owed(s', k) <==> Owed(s, k))
    requires Consistent(s'.clients[id]) && UpToDate(s', id, s'.clients[id])
    ensures forall k :: k in s'.clients ==> Consistent(s'.clients[k]) && UpToDate(s', k, s'.clients[k])
  {
    forall k | k in s'.clients && k != id ensures Consistent(s'.clients[k]) && UpToDate(s', k, s'.clients[k]) {
      assert Consistent(s.clients[k]) && UpToDate(s, k, s.clients[k]);
    }
  }

  lemma GetKeepsInv(s: State, id: Id)
    requires Inv(s) && id in s.clients
    ensures Inv(Next(s, Get(id)))
  {
    TakeConsistent(s.clients[id], true);
    OneClientChanged(s, Next(s, Get(id)), id);
  }

  lemma CheckKeepsInv(s: State)
    requires Inv(s) && s.busy.Serving? && (s.busy.todo == [] || s.busy.phase == Checking)
    ensures Inv(AdvanceStep(s))
  {
    var s' := AdvanceStep(s);
    assert forall k :: Owed(s', k) <==> Owed(s, k);
    assert forall k :: k in s.clients ==> UpToDate(s, k, s.clients[k]) && UpToDate(s', k, s.clients[k]);
  }

  lemma DropKeepsInv(s: State)
    requires Inv(s) && s.busy.Serving? && s.busy.todo != [] && s.busy.phase == Dropping
    ensures Inv(AdvanceStep(s))
  {
    var id := s.busy.todo[0];
    assert Consistent(s.clients[id]) && UpToDate(s, id, s.clients[id]);
    TakeConsistent(s.clients[id], false);
    assert forall k :: Owed(AdvanceStep(s), k) <==> Owed(s, k);
    OneClientChanged(s, AdvanceStep(s), id);
  }

  lemma PutKeepsInv(s: State)
    requires Inv(s) && s.busy.Serving? && s.busy.todo != [] && s.busy.phase == Putting
    ensures Inv(AdvanceStep(s))
  {
    var s', id := AdvanceStep(s), s.busy.todo[0];
    assert Consistent(s.clients[id]) && UpToDate(s, id, s.clients[id]);
    PutConsistent(s.clients[id], s.busy.event);
    TailOf(s.busy.todo);
    OneClientChanged(s, s', id);
  }

  lemma TailOf(ids: seq<Id>)
    requires Distinct(ids) && ids != []
    ensures Distinct(ids[1..]) && ids[0] !in ids[1..]
    ensures forall k :: k != ids[0] ==> (k in ids <==> k in ids[1..])
  {
    assert forall i :: 0 <= i < |ids[1..]| ==> ids[1..][i] == ids[i + 1] && ids[i + 1] != ids[0];
    assert ids == [ids[0]] + ids[1..];
  }

  lemma AdvanceKeepsInv(s: State)
    requires Inv(s) && s.busy.Serving?
    ensures Inv(AdvanceStep(s))
  {
    if s.busy.todo == [] || s.busy.phase == Checking { CheckKeepsInv(s); }
    else if s.busy.phase == Dropping { DropKeepsInv(s); }
    else { PutKeepsInv(s); }
  }

  lemma BeginKeepsInv(s: State, e: Event, order: seq<Id>)
    requires Inv(s) && s.busy.Free? && Visits(s, order)
    requires e.Data? ==> e.number == s.count + 1
    ensures Inv(Begin(if e.Data? then s.(count := s.count + 1) else s, e, order))
  {
    var s' := Begin(if e.Data? then s.(count := s.count + 1) else s, e, order);
    forall k | k in s'.clients ensures Consistent(s'.clients[k]) && UpToDate(s', k, s'.clients[k]) {
      assert Consistent(s.clients[k]) && UpToDate(s, k, s.clients[k]);
    }
  }

  lemma RegisterKeepsInv(s: State, id: Id)
    requires Inv(s) && s.busy.Free?
    ensures Inv(Next(s, Register(id))) && Inv(Next(s, Unregister(id)))
  {
    var s', s'' := Next(s, Register(id)), Next(s, Unregister(id));
    assert Events([]) + [] == [];
    forall k | k in s.clients
      ensures Consistent(s.clients[k]) && UpToDate(s', k, s.clients[k]) && UpToDate(s'', k, s.clients[k])
    {
      assert UpToDate(s, k, s.clients[k]);
    }
  }

  lemma StepKeepsInv(s: State, x: Step)
    requires Inv(s)
    ensures Inv(Next(s, x))
  {
    match x {
      case Get(id) => if id in s.clients { GetKeepsInv(s, id); }
      case Advance => if s.busy.Serving? { AdvanceKeepsInv(s); }
      case Unregister(id) => if s.busy.Free? { RegisterKeepsInv(s, id); }
      case Register(id) => if s.busy.Free? { RegisterKeepsInv(s, id); }
      case Publish(payload, order) =>
        if s.busy.Free? && Visits(s, order) { BeginKeepsInv(s, Data(s.count + 1, payload), order); }
      case Beat(order) =>
        if s.busy.Free? && Visits(s, order) { BeginKeepsInv(s, Heartbeat, order); }
    }
  }

  lemma {:induction false} RunKeepsInv(s: State, xs: seq<Step>)
    requires Inv(s)
    ensures Inv(Run(s, xs))
    decreases |xs|
  {
    if xs != [] {
      StepKeepsInv(s, xs[0]);
      RunKeepsInv(Next(s, xs[0]), xs[1..]);
    }
  }

  // ---- What a client is put, against what is broadcast ----

  /** The event of the broadcast in progress, if this client is still to be served. */
  ghost function Due(s: State, id: Id): seq<Event> {
    if s.busy.Serving? && id in s.busy.todo then [s.busy.event] else []
  }

  /** The client was put everything broadcast since it registered, in order, but for what is
      due. */
  ghost predicate Logged(s: State, id: Id, c: Client) {
    && c.since + |c.sent| + |Due(s, id)| == |s.log|
    && forall i :: 0 <= i < |c.sent| ==> c.sent[i] == s.log[c.since + i]
  }

  ghost predicate LogInv(s: State) {
    && (s.busy.Serving? ==>
         && s.log != [] && s.log[|s.log| - 1] == s.busy.event
         && Distinct(s.busy.todo) && (forall id :: id in s.busy.todo ==> id in s.clients))
    && forall id :: id in s.clients ==> Logged(s, id, s.clients[id])
  }

  /** A client other than the one served is due what it was due. */
  lemma OtherStaysLogged(s: State, s': State, k: Id)
    requires k in s.clients && k in s'.clients && Logged(s, k, s.clients[k])
    requires s'.log == s.log && s'.clients[k].sent == s.clients[k].sent && s'.clients[k].since == s.clients[k].since
    requires |Due(s', k)| == |Due(s, k)|
    ensures Logged(s', k, s'.clients[k])
  {
  }

  lemma PutIsLogged(s: State)
    requires LogInv(s) && s.busy.Serving? && s.busy.todo != [] && s.busy.phase == Putting
    ensures var id := s.busy.todo[0];
            Logged(AdvanceStep(s), id, AdvanceStep(s).clients[id])
  {
    var id := s.busy.todo[0];
    assert Logged(s, id, s.clients[id]);
    TailOf(s.busy.todo);
  }

  lemma PutKeepsLog(s: State)
    requires LogInv(s) && s.busy.Serving? && s.busy.todo != [] && s.busy.phase == Putting
    ensures LogInv(AdvanceStep(s))
  {
    var s' := AdvanceStep(s);
    TailOf(s.busy.todo);
    PutIsLogged(s);
    forall k | k in s'.clients && k != s.busy.todo[0] ensures Logged(s', k, s'.clients[k]) {
      assert |Due(s', k)| == |Due(s, k)|;
      OtherStaysLogged(s, s', k);
    }
  }

  lemma OtherAdvanceKeepsLog(s: State)
    requires LogInv(s) && s.busy.Serving? && (s.busy.todo == [] || s.busy.phase != Putting)
    ensures LogInv(AdvanceStep(s))
  {
    var s' := AdvanceStep(s);
    forall k | k in s'.clients ensures Logged(s', k, s'.clients[k]) {
      assert |Due(s', k)| == |Due(s, k)|;
      OtherStaysLogged(s, s', k);
    }
  }

  lemma BeginKeepsLog(s: State, x: Step)
    requires LogInv(s) && (x.Publish? || x.Beat?)
    ensures LogInv(Next(s, x))
  {
    var s' := Next(s, x);
    if s' != s {
      forall k | k in s'.clients ensures Logged(s', k, s'.clients[k]) {
        assert Logged(s, k, s.clients[k]) && |Due(s, k)| == 0 && |Due(s', k)| == 1;
      }
    }
  }

  lemma LockedStepKeepsLog(s: State, x: Step)
    requires LogInv(s) && (x.Register? || x.Unregister? || x.Get?)
    ensures LogInv(Next(s, x))
  {
    var s' := Next(s, x);
    forall k | k in s'.clients ensures Logged(s', k, s'.clients[k]) {
      assert |Due(s', k)| == |Due(s, k)|;
      if k in s.clients { assert Logged(s, k, s.clients[k]) && s'.clients[k].sent == s.clients[k].sent; }
    }
  }

  lemma {:induction false} RunKeepsLog(s: State, xs: seq<Step>)
    requires LogInv(s)
    ensures LogInv(Run(s, xs))
    decreases |xs|
  {
    if xs != [] {
      var x := xs[0];
      if x.Publish? || x.Beat? {
        BeginKeepsLog(s, x);
      } else if !x.Advance? {
        LockedStepKeepsLog(s, x);
      } else if s.busy.Serving? {
        if s.busy.todo != [] && s.busy.phase == Putting { PutKeepsLog(s); } else { OtherAdvanceKeepsLog(s); }
      }
      RunKeepsLog(Next(s, x), xs[1..]);
    }
  }

  lemma {:induction false} TallySplit(r: seq<Removed>)
    ensures Tally(r, true) + Tally(r, false) == |r|
  {
    if r != [] { TallySplit(r[..|r| - 1]); }
  }

  lemma LogTail(s: State, id: Id)
    requires LogInv(s) && id in s.clients
    ensures s.clients[id].since <= |s.log| && s.log[s.clients[id].since..] == s.clients[id].sent + Due(s, id)
  {
    var c := s.clients[id];
    assert Logged(s, id, c);
    var tail, all := s.log[c.since..], c.sent + Due(s, id);
    forall i | 0 <= i < |tail| ensures tail[i] == all[i] {
      if i < |c.sent| { assert c.sent[i] == s.log[c.since + i]; }
    }
  }

  lemma QueueTail(c: Client)
    requires Consistent(c)
    ensures |c.queue| <= |c.sent| && c.queue == c.sent[|c.sent| - |c.queue|..]
    ensures |c.sent| == Tally(c.removed, true) + Tally(c.removed, false) + |c.queue|
  {
    TallySplit(c.removed);
  }

  /** At every step of every interleaving, for every registered client: the queue holds at
      most 500 events; what was put into it is the broadcast log since its registration but
      for the event due to it, so the queue is a contiguous end of that; and every event
      broadcast since then was received, dropped, is pending or is due. */
  lemma EveryStep(xs: seq<Step>, id: Id)
    requires id in Run(START, xs).clients
    ensures var s := Run(START, xs);
            var c := s.clients[id];
            && |c.queue| <= 500
            && c.since <= |s.log| && s.log[c.since..] == c.sent + Due(s, id)
            && |c.queue| <= |c.sent| && c.queue == c.sent[|c.sent| - |c.queue|..]
            && |s.log| - c.since == Tally(c.removed, true) + Tally(c.removed, false) + |c.queue| + |Due(s, id)|
  {
    RunKeepsInv(START, xs);
    RunKeepsLog(START, xs);
    LogTail(Run(START, xs), id);
    QueueTail(Run(START, xs).clients[id]);
  }

  /** A step that does not unregister the client keeps its place in the log, and the log
      only grows. */
  lemma StepKeepsPlace(s: State, x: Step, id: Id)
    requires id in s.clients && x != Unregister(id)
    ensures id in Next(s, x).clients && Next(s, x).clients[id].since == s.clients[id].since
    ensures s.log <= Next(s, x).log
  {
  }

  lemma {:induction false} RunKeepsPlace(s: State, xs: seq<Step>, id: Id)
    requires id in s.clients && forall i :: 0 <= i < |xs| ==> xs[i] != Unregister(id)
    ensures id in Run(s, xs).clients && Run(s, xs).clients[id].since == s.clients[id].since
    ensures s.log <= Run(s, xs).log
    decreases |xs|
  {
    if xs != [] {
      StepKeepsPlace(s, xs[0], id);
      RunKeepsPlace(Next(s, xs[0]), xs[1..], id);
    }
  }

  lemma {:induction false} RunConcat(s: State, xs: seq<Step>, ys: seq<Step>)
    ensures Run(s, xs + ys) == Run(Run(s, xs), ys)
    decreases |xs|
  {
    if xs == [] {
      assert xs + ys == ys;
    } else {
      assert (xs + ys)[1..] == xs[1..] + ys;
      RunConcat(Next(s, xs[0]), xs[1..], ys);
    }
  }

  lemma SinceState(s: State, id: Id, ys: seq<Step>)
    requires LogInv(s) && s.busy.Free? && id !in s.clients
    requires forall i :: 0 <= i < |ys| ==> ys[i] != Unregister(id)
    ensures var s' := Run(Next(s, Register(id)), ys);
            id in s'.clients && s'.log == s.log + (s'.clients[id].sent + Due(s', id))
  {
    var s1 := Next(s, Register(id));
    LockedStepKeepsLog(s, Register(id));
    RunKeepsLog(s1, ys);
    RunKeepsPlace(s1, ys, id);
    LogTail(Run(s1, ys), id);
    assert s1.clients[id].since == |s.log| && s1.log == s.log;
    LogSplit(s.log, Run(s1, ys).log, |s.log|);
  }

  /** From its registration on, as long as it stays registered, a client is put exactly what
      is broadcast, data events and heartbeats, each once and in order. */
  lemma SinceRegistration(xs: seq<Step>, id: Id, ys: seq<Step>)
    requires Run(START, xs).busy.Free? && id !in Run(START, xs).clients
    requires forall i :: 0 <= i < |ys| ==> ys[i] != Unregister(id)
    ensures var s := Run(START, xs);
            var s' := Run(START, xs + ([Register(id)] + ys));
            id in s'.clients && s'.log == s.log + (s'.clients[id].sent + Due(s', id))
  {
    RunKeepsLog(START, xs);
    RunConcat(START, xs, [Register(id)] + ys);
    assert ([Register(id)] + ys)[1..] == ys;
    SinceState(Run(START, xs), id, ys);
  }

  lemma LogSplit(a: seq<Event>, b: seq<Event>, n: nat)
    requires a <= b && n == |a|
    ensures b == a + b[n..]
  {
  }

  // ---- Sequence numbers as the client sees them ----

  lemma {:induction false} NumberedAt(es: seq<Event>, joined: nat, i: nat)
    requires Numbered(es, joined) && i < |es| && es[i].Data?
    ensures es[i].number == joined + DataCount(es[..i]) + 1
    decreases |es|
  {
    var n := |es| - 1;
    if i < n {
      NumberedAt(es[..n], joined, i);
      assert es[..n][..i] == es[..i];
    }
  }

  lemma {:induction false} DataCountSplit(es: seq<Event>, i: nat)
    requires i <= |es|
    ensures DataCount(es) == DataCount(es[..i]) + DataCount(es[i..])
    decreases |es|
  {
    if i < |es| {
      var n := |es| - 1;
      DataCountSplit(es[..n], i);
      assert es[..n][..i] == es[..i] && es[..n][i..] == es[i..][..n - i];
      assert es[i..][..|es[i..]| - 1] == es[i..][..n - i];
    } else {
      assert es[..i] == es;
    }
  }

  lemma {:induction false} AllDropped(r: seq<Removed>)
    requires forall k :: 0 <= k < |r| && r[k].received ==> !r[k].event.Data?
    ensures DroppedData(r) == DataCount(Events(r))
  {
    if r != [] {
      AllDropped(r[..|r| - 1]);
      assert Events(r)[..|r| - 1] == Events(r[..|r| - 1]);
    }
  }

  /** Between two data events of a numbered sequence lie as many data events as their
      numbers say. */
  lemma NumberGap(es: seq<Event>, joined: nat, i: nat, j: nat)
    requires Numbered(es, joined) && i < j < |es| && es[i].Data? && es[j].Data?
    ensures es[j].number - es[i].number - 1 == DataCount(es[i + 1..j])
  {
    NumberedAt(es, joined, i);
    NumberedAt(es, joined, j);
    DataCountSplit(es[..j], i + 1);
    assert es[..j][..i + 1] == es[..i + 1] && es[..i + 1][..i] == es[..i];
    assert es[..j][i + 1..] == es[i + 1..j];
  }

  /** A client that receives data event `a` and then, as its next data event, data event
      `b` missed exactly b - a - 1 data events, all of them dropped by the bus; heartbeats
      in between do not disturb the count. */
  lemma GapCountsDrops(xs: seq<Step>, id: Id, i: nat, j: nat)
    requires id in Run(START, xs).clients
    requires var r := Run(START, xs).clients[id].removed;
             && i < j < |r|
             && r[i].received && r[i].event.Data? && r[j].received && r[j].event.Data?
             && forall k :: i < k < j && r[k].received ==> !r[k].event.Data?
    ensures var r := Run(START, xs).clients[id].removed;
            r[j].event.number - r[i].event.number - 1 == DroppedData(r[i + 1..j])
  {
    RunKeepsInv(START, xs);
    var c := Run(START, xs).clients[id];
    var r, es := c.removed, c.sent;
    assert es[i] == r[i].event && es[j] == r[j].event;
    NumberGap(es, c.joined, i, j);
    assert es[i + 1..j] == Events(r[i + 1..j]);
    AllDropped(r[i + 1..j]);
  }

  // ---- The bus object, between consumer gets ----

  /** What serving a client does to its queue when its consumer stays out of the way. */
  function Offer(q: seq<Event>, e: Event): seq<Event> {
    (if |q| >= MAX_QUEUE_SIZE then q[1..] else q) + [e]
  }

  lemma RunFirst(s: State, x: Step, xs: seq<Step>)
    ensures Run(s, [x] + xs) == Run(Next(s, x), xs)
  {
    assert ([x] + xs)[1..] == xs;
  }

  /** The steps of the protocol amount to that. */
  lemma ServeUninterrupted(s: State)
    requires s.busy.Serving? && s.busy.phase == Checking && s.busy.todo != []
    requires forall k :: k in s.busy.todo ==> k in s.clients
    ensures var id := s.busy.todo[0];
            var c := s.clients[id];
            var full := |c.queue| >= MAX_QUEUE_SIZE;
            var s' := Run(s, if full then [Advance] + [Advance] + [Advance] else [Advance] + [Advance]);
            && id in s'.clients
            && s' == s.(clients := s.clients[id := s'.clients[id]],
                        busy := Serving(s.busy.event, s.busy.todo[1..], Checking))
            && s'.clients[id].queue == Offer(c.queue, s.busy.event)
            && s'.clients[id].sent == c.sent + [s.busy.event]
  {
    var id := s.busy.todo[0];
    var s1 := Next(s, Advance);
    var s2 := Next(s1, Advance);
    if |s.clients[id].queue| >= MAX_QUEUE_SIZE {
      RunFirst(s, Advance, [Advance] + [Advance]);
      RunFirst(s1, Advance, [Advance]);
      RunFirst(s2, Advance, []);
      assert s1 == s.(busy := s.busy.(phase := Dropping));
      assert s2 == s.(clients := s.clients[id := Take(s.clients[id], false)], busy := s.busy.(phase := Putting));
      assert [Advance] + [Advance] + [Advance] == [Advance] + ([Advance] + [Advance]);
      assert [Advance] + [] == [Advance];
    } else {
      RunFirst(s, Advance, [Advance]);
      RunFirst(s1, Advance, []);
      assert s1 == s.(busy := s.busy.(phase := Putting));
      assert [Advance] + [] == [Advance];
    }
  }

  ghost function Advances(n: nat): seq<Step> {
    if n == 0 then [] else [Advance] + Advances(n - 1)
  }

  lemma AdvanceMore(s: State, n: nat)
    requires n > 0
    ensures Run(s, Advances(n)) == Run(Next(s, Advance), Advances(n - 1))
  {
    RunFirst(s, Advance, Advances(n - 1));
  }

  lemma {:induction false} FreeStaysFree(s: State, n: nat)
    requires s.busy.Free?
    ensures Run(s, Advances(n)) == s
  {
    if n > 0 {
      AdvanceMore(s, n);
      FreeStaysFree(s, n - 1);
    }
  }

  /** Serving the first client takes at most three of the steps at hand. */
  lemma ServeFirst(s: State, n: nat) returns (s': State, m: nat)
    requires s.busy.Serving? && s.busy.phase == Checking && s.busy.todo != [] && n >= 3
    requires forall k :: k in s.busy.todo ==> k in s.clients
    ensures n - 3 <= m < n && Run(s, Advances(n)) == Run(s', Advances(m))
    ensures var id := s.busy.todo[0];
            && id in s'.clients
            && s' == s.(clients := s.clients[id := s'.clients[id]],
                        busy := Serving(s.busy.event, s.busy.todo[1..], Checking))
            && s'.clients[id].queue == Offer(s.clients[id].queue, s.busy.event)
  {
    assert Advances(n) == [Advance] + ([Advance] + Advances(n - 2));
    assert Advances(n - 2) == [Advance] + Advances(n - 3);
    var xs;
    if |s.clients[s.busy.todo[0]].queue| >= MAX_QUEUE_SIZE {
      xs, m := [Advance] + [Advance] + [Advance], n - 3;
    } else {
      xs, m := [Advance] + [Advance], n - 2;
    }
    assert Advances(n) == xs + Advances(m);
    s' := Run(s, xs);
    RunConcat(s, xs, Advances(m));
    ServeUninterrupted(s);
  }

  /** A broadcast that no consumer disturbs: with enough steps it is over, each client it had
      to serve was offered the event once, and nothing else moved. */
  lemma {:induction false} ServeAll(s: State, n: nat)
    requires s.busy.Serving? && s.busy.phase == Checking && n > 3 * |s.busy.todo|
    requires Distinct(s.busy.todo) && forall k :: k in s.busy.todo ==> k in s.clients
    ensures var s' := Run(s, Advances(n));
            && s'.busy.Free? && s'.count == s.count && s'.log == s.log && s'.clients.Keys == s.clients.Keys
            && forall id :: id in s.clients ==>
                 var q := s.clients[id].queue;
                 s'.clients[id].queue == if id in s.busy.todo then Offer(q, s.busy.event) else q
    decreases |s.busy.todo|
  {
    if s.busy.todo == [] {
      AdvanceMore(s, n);
      FreeStaysFree(Next(s, Advance), n - 1);
    } else {
      var s1, m := ServeFirst(s, n);
      TailOf(s.busy.todo);
      ServeAll(s1, m);
    }
  }

  /** What the consumer and the registration steps do: a consumer gets the oldest event of its
      own queue, at any moment; a new client starts empty and one that leaves is gone, and both
      wait for a broadcast in progress. */
  lemma OwnQueueOnly(s: State, id: Id, k: Id)
    ensures var t := Next(s, Get(id));
            && t.(clients := s.clients) == s && t.clients.Keys == s.clients.Keys
            && (k in s.clients && k != id ==> t.clients[k] == s.clients[k])
            && (id in s.clients && s.clients[id].queue != [] ==>
                 var was, now := s.clients[id], t.clients[id];
                 now.removed == was.removed + [Removed(was.queue[0], true)] && was.queue == [was.queue[0]] + now.queue)
            && (id in s.clients && s.clients[id].queue == [] ==> t == s)
    ensures var t, u := Next(s, Register(id)), Next(s, Unregister(id));
            && t.clients.Keys == s.clients.Keys + (if s.busy.Free? then {id} else {})
            && u.clients.Keys == s.clients.Keys - (if s.busy.Free? then {id} else {})
            && (id in t.clients && id !in s.clients ==> t.clients[id].queue == [])
            && (k in s.clients ==> t.clients[k] == s.clients[k] && (k in u.clients ==> u.clients[k] == s.clients[k]))
            && t.busy == u.busy == s.busy && t.log == u.log == s.log && t.count == u.count == s.count
  {
  }

  ghost function Queues(s: State): map<Id, seq<Event>> {
    map id | id in s.clients :: s.clients[id].queue
  }

  /** A broadcast begun over all clients and left alone. */
  lemma BeginUninterrupted(s: State, e: Event, order: seq<Id>, n: nat)
    requires Visits(s, order) && n > 3 * |order|
    ensures var s' := Run(Begin(s, e, order), Advances(n));
            && s'.busy.Free? && s'.count == s.count && s'.log == s.log + [e]
            && Queues(s') == map id | id in Queues(s) :: Offer(Queues(s)[id], e)
  {
    ServeAll(Begin(s, e, order), n);
  }

  /** Publishing, and then enough steps without a consumer in between, is what the bus object
      does in one call of PublishEvent. */
  lemma PublishUninterrupted(s: State, payload: string, order: seq<Id>, n: nat)
    requires s.busy.Free? && Visits(s, order) && n > 3 * |order|
    ensures var s' := Run(s, [Publish(payload, order)] + Advances(n));
            && s'.busy.Free? && s'.count == s.count + 1 && s'.log == s.log + [Data(s.count + 1, payload)]
            && Queues(s') == map id | id in Queues(s) :: Offer(Queues(s)[id], Data(s.count + 1, payload))
  {
    var s1 := s.(count := s.count + 1);
    RunFirst(s, Publish(payload, order), Advances(n));
    BeginUninterrupted(s1, Data(s.count + 1, payload), order, n);
    assert Queues(s1) == Queues(s);
  }

  /** The same for a heartbeat and HeartbeatAll. */
  lemma BeatUninterrupted(s: State, order: seq<Id>, n: nat)
    requires s.busy.Free? && Visits(s, order) && n > 3 * |order|
    ensures var s' := Run(s, [Beat(order)] + Advances(n));
            && s'.busy.Free? && s'.count == s.count && s'.log == s.log + [Heartbeat]
            && Queues(s') == map id | id in Queues(s) :: Offer(Queues(s)[id], Heartbeat)
  {
    RunFirst(s, Beat(order), Advances(n));
    BeginUninterrupted(s, Heartbeat, order, n);
  }

  class Bus {
    var clientQueues: map<Id, seq<Event>>
    var eventCount: nat

    constructor ()
      ensures clientQueues == map[] && eventCount == 0
    {
      clientQueues, eventCount := map[], 0;
    }

    method Broadcast(e: Event)
      modifies this`clientQueues
      ensures clientQueues == map id | id in old(clientQueues) :: Offer(old(clientQueues)[id], e)
    {
      var todo := clientQueues.Keys;
      while todo != {}
        invariant todo <= clientQueues.Keys == old(clientQueues).Keys
        invariant forall id :: id in clientQueues ==>
          clientQueues[id] == if id in todo then old(clientQueues)[id] else Offer(old(clientQueues)[id], e)
        decreases todo
      {
        var id :| id in todo;
        var q := clientQueues[id];
        if |q| >= MAX_QUEUE_SIZE { q := q[1..]; }
        clientQueues := clientQueues[id := q + [e]];
        todo := todo - {id};
      }
    }

    method PublishEvent(payload: string)
      modifies this
      ensures eventCount == old(eventCount) + 1
      ensures clientQueues == map id | id in old(clientQueues) ::
                                Offer(old(clientQueues)[id], Data(old(eventCount) + 1, payload))
    {
      eventCount := eventCount + 1;
      Broadcast(Data(eventCount, payload));
    }

    method HeartbeatAll()
      modifies this
      ensures eventCount == old(eventCount)
      ensures clientQueues == map id | id in old(clientQueues) :: Offer(old(clientQueues)[id], Heartbeat)
    {
      Broadcast(Heartbeat);
    }

    method RegisterClient(id: Id) returns (q: seq<Event>)
      modifies this`clientQueues
      ensures id in clientQueues && q == clientQueues[id]
      ensures clientQueues == if id in old(clientQueues) then old(clientQueues) else old(clientQueues)[id := []]
    {
      if id !in clientQueues { clientQueues := clientQueues[id := []]; }
      q := clientQueues[id];
    }

    /** What a consumer does with its queue; None: the queue was empty. */
    method TakeNext(id: Id) returns (e: Option<Event>)
      requires id in clientQueues
      modifies this`clientQueues
      ensures id in clientQueues && clientQueues == old(clientQueues)[id := clientQueues[id]]
      ensures old(clientQueues)[id] == (if e.Some? then [e.value] else []) + clientQueues[id]
      ensures e == None ==> clientQueues[id] == []
    {
      if clientQueues[id] == [] { return None; }
      e := Some(clientQueues[id][0]);
      clientQueues := clientQueues[id := clientQueues[id][1..]];
    }

    method UnregisterClient(id: Id)
      modifies this`clientQueues
      ensures clientQueues == old(clientQueues) - {id}
    {
      if id in clientQueues { clientQueues := clientQueues - {id}; }
    }
  }
}
