/** The ADS connection protocol: request threads and one background reconnect thread that
    interleave at lock granularity.  One step is one critical section, or one unlocked
    action of a reconnect thread; `epoch` numbers the connections in the order published.
    What the PLC answers is part of the step. */
module AdsClient {
  import opened Common

  type Epoch = nat
  type Tid = nat
  type Handle = nat

  /** How a pyads call ends: a value, error 1808/1809, or any other exception. */
  datatype Outcome = Fine | SymbolError | TransportError

  /** Where a reconnect thread stands; `attempt` counts its failed attempts, `until` is the
      time its wait ends. */
  datatype Pc =
    | LoopTop(attempt: nat)
    | Waiting(attempt: nat, until: real)
    | Woken(attempt: nat)
    | Testing(attempt: nat)
    | Clearing(attempt: nat)
    | Connecting(attempt: nat)
    | Opening(attempt: nat)
    | Deciding(attempt: nat, plausible: bool)
    | Reopening(attempt: nat)
    | GivingUp(attempt: nat)
    | Exiting

  /** What the target answers a reconnect thread: does open-and-verify succeed, if not does
      the failure look like a missing route, are the route credentials configured, does
      the target accept the route. */
  datatype Answer = Answer(opens: bool, plausible: bool, configured: bool, accepted: bool)

  /** The connection and the symbol handles obtained over it. */
  datatype Link = Link(conn: Option<Epoch>, connected: bool, handles: map<string, (Handle, Epoch)>, nextEpoch: Epoch)

  /** The reconnect thread field, the stop event and the threads the system runs. */
  datatype Threads = Threads(stop: bool, current: Option<Tid>, alive: map<Tid, Pc>, nextTid: Tid)

  datatype Health = Health(readCount: nat, writeCount: nat, errorCount: nat, reconnectCount: nat)

  /** The clock, the last time the repair cooldown was started, the route additions made. */
  datatype Repair = Repair(clock: real, last: real, made: seq<real>)

  datatype Client = Client(mock: bool, link: Link, threads: Threads, health: Health, repair: Repair)

  const REPAIR_COOLDOWN := 600.0
  const RECONNECT_MAX_DELAY := 20.0

  datatype Step =
    | Read(count: nat, outcome: Outcome)
    | Write(count: nat, outcome: Outcome)
    | GetHandle(variable: string, answer: Option<Handle>)
    | StopReconnect
    | Act(tid: Tid, reply: Answer)
    | Tick(now: real)

  // ---- The critical sections ----

  function Launch(h: Threads): Threads {
    if h.current.Some? && h.current.value in h.alive then h
    else Threads(false, Some(h.nextTid), h.alive[h.nextTid := LoopTop(0)], h.nextTid + 1)
  }

  /** A read, single or batched, by name or by handle. */
  function ReadStep(c: Client, count: nat, outcome: Outcome): Client {
    if Performed(c, outcome) then c.(health := c.health.(readCount := c.health.readCount + count))
    else RefusedStep(c, outcome)
  }

  /** A write; in mock mode it does nothing. */
  function WriteStep(c: Client, count: nat, outcome: Outcome): Client {
    if Performed(c, outcome) then c.(health := c.health.(writeCount := c.health.writeCount + count))
    else RefusedStep(c, outcome)
  }

  predicate Performed(c: Client, outcome: Outcome) {
    !c.mock && c.link.connected && outcome.Fine?
  }

  /** What a call that does not go through leaves behind, be it a read or a write. */
  function RefusedStep(c: Client, outcome: Outcome): Client {
    if c.mock then c
    else if !c.link.connected then c.(threads := Launch(c.threads))
    else if outcome.TransportError? then
      c.(link := c.link.(connected := false), health := Failed(c.health), threads := Launch(c.threads))
    else c
  }

  function Failed(h: Health): Health {
    h.(errorCount := h.errorCount + 1)
  }

  function HandleStep(c: Client, v: string, answer: Option<Handle>): Client {
    if c.mock || v in c.link.handles then c
    else if !c.link.connected then c.(threads := Launch(c.threads))
    else if answer.Some? && c.link.conn.Some? then
      c.(link := c.link.(handles := c.link.handles[v := (answer.value, c.link.conn.value)]))
    else c
  }

  /** What get_handle returns, with the connection that issued it. */
  function HandleResult(c: Client, v: string, answer: Option<Handle>): Option<(Handle, Epoch)> {
    if c.mock then None
    else if v in c.link.handles then Some(c.link.handles[v])
    else if c.link.connected && answer.Some? && c.link.conn.Some? then Some((answer.value, c.link.conn.value))
    else None
  }

  function Publish(l: Link): Link {
    l.(conn := Some(l.nextEpoch), connected := true, nextEpoch := l.nextEpoch + 1)
  }

  function Pow2(n: nat): (r: nat)
    ensures r >= 1
  {
    if n == 0 then 1 else 2 * Pow2(n - 1)
  }

  /** The wait before attempt `attempt + 1`, in seconds. */
  function Delay(attempt: nat): real {
    var d := 1.0 * Pow2(attempt) as real;
    if d <= RECONNECT_MAX_DELAY then d else RECONNECT_MAX_DELAY
  }

  // ---- The reconnect thread, one aspect at a time ----

  predicate CooldownOver(r: Repair) {
    r.clock - r.last >= REPAIR_COOLDOWN
  }

  function NextPc(c: Client, pc: Pc, reply: Answer): Pc {
    match pc
    case LoopTop(a) => if c.threads.stop then Exiting else Waiting(a, c.repair.clock + Delay(a))
    case Waiting(a, until) => if c.threads.stop || c.repair.clock >= until then Woken(a) else pc
    case Woken(a) => if c.threads.stop then Exiting else Testing(a)
    case Testing(a) => if c.link.connected then Exiting else Clearing(a)
    case Clearing(a) => Connecting(a)
    case Connecting(a) => if c.link.connected then Exiting else Opening(a)
    case Opening(a) => if reply.opens then Exiting else Deciding(a, reply.plausible)
    case Deciding(a, plausible) =>
      if plausible && CooldownOver(c.repair) && reply.configured && reply.accepted then Reopening(a) else GivingUp(a)
    case Reopening(a) => if reply.opens then Exiting else GivingUp(a)
    case GivingUp(a) => LoopTop(a + 1)
    case Exiting => Exiting
  }

  function LinkAfter(l: Link, pc: Pc, reply: Answer): Link {
    match pc
    case Clearing(_) => Link(None, false, map[], l.nextEpoch)
    case Opening(_) => if reply.opens then Publish(l) else l
    case Reopening(_) => if reply.opens then Publish(l) else l
    case GivingUp(_) => l.(conn := None, connected := false)
    case _ => l
  }

  function HealthAfter(h: Health, l: Link, pc: Pc, reply: Answer): Health {
    if (pc.Opening? || pc.Reopening?) && !reply.opens then Failed(h)
    else if pc.Opening? || pc.Reopening? || (pc.Connecting? && l.connected) then
      h.(reconnectCount := h.reconnectCount + 1)
    else h
  }

  /** The cooldown starts before the credentials are looked at. */
  function RepairAfter(r: Repair, pc: Pc, reply: Answer): Repair {
    if pc.Deciding? && pc.plausible && CooldownOver(r) then
      Repair(r.clock, r.clock, if reply.configured then r.made + [r.clock] else r.made)
    else r
  }

  function ThreadsAfter(h: Threads, t: Tid, pc: Pc, next: Pc): Threads {
    h.(alive := if pc == Exiting then h.alive - {t} else h.alive[t := next])
  }

  function ActStep(c: Client, t: Tid, reply: Answer): Client
    requires t in c.threads.alive
  {
    var pc := c.threads.alive[t];
    Client(c.mock,
           LinkAfter(c.link, pc, reply),
           ThreadsAfter(c.threads, t, pc, NextPc(c, pc, reply)),
           HealthAfter(c.health, c.link, pc, reply),
           RepairAfter(c.repair, pc, reply))
  }

  /** A step that is not enabled changes nothing. */
  function Next(c: Client, s: Step): Client {
    match s
    case Read(count, outcome) => ReadStep(c, count, outcome)
    case Write(count, outcome) => WriteStep(c, count, outcome)
    case GetHandle(v, answer) => HandleStep(c, v, answer)
    case StopReconnect => c.(threads := c.threads.(stop := true))
    case Act(t, reply) => if t in c.threads.alive then ActStep(c, t, reply) else c
    case Tick(now) => if now >= c.repair.clock then c.(repair := c.repair.(clock := now)) else c
  }

  function Run(c: Client, steps: seq<Step>): Client
    decreases |steps|
  {
    if steps == [] then c else Run(Next(c, steps[0]), steps[1..])
  }

  // ---- What every interleaving keeps ----

  /** The thread is past its disconnect and has not published a connection. */
  predicate Between(pc: Pc) {
    pc.Connecting? || pc.Opening? || pc.Deciding? || pc.Reopening? || pc.GivingUp?
  }

  /** No two reconnect threads; the field points at the one there is. */
  ghost predicate OneThread(c: Client) {
    && (forall t :: t in c.threads.alive ==> c.threads.current == Some(t))
    && (c.threads.current.Some? ==> c.threads.current.value < c.threads.nextTid)
    && (c.mock ==> c.threads.alive == map[])
  }

  predicate Torn(l: Link) {
    !l.connected && l.conn == None && l.handles == map[]
  }

  /** A connected real client has a connection, and every cached handle was issued by the
      connection there is. */
  ghost predicate Linked(mock: bool, l: Link) {
    && (mock ==> l.handles == map[])
    && (!mock && l.connected ==> l.conn.Some?)
    && (forall v :: v in l.handles ==> l.conn == Some(l.handles[v].1))
    && (l.conn.Some? ==> l.conn.value < l.nextEpoch)
  }

  /** Between its disconnect and its publication a reconnect thread owns a client with no
      connection and no handles. */
  ghost predicate Owned(c: Client) {
    forall t :: t in c.threads.alive && Between(c.threads.alive[t]) ==> Torn(c.link)
  }

  /** Route additions are at least the cooldown apart. */
  ghost predicate Spaced(r: Repair) {
    && (forall i, j :: 0 <= i < j < |r.made| ==> r.made[j] - r.made[i] >= REPAIR_COOLDOWN)
    && (forall i :: 0 <= i < |r.made| ==> r.made[i] <= r.last)
    && r.last <= r.clock
  }

  ghost predicate Inv(c: Client) {
    OneThread(c) && Linked(c.mock, c.link) && Owned(c) && Spaced(c.repair)
  }

  /** A client just after the start-up connect, before it is shared between threads. */
  ghost predicate Init(c: Client) {
    && c.threads.alive == map[] && c.threads.current == None
    && c.link.handles == map[]
    && (if c.mock then c.link.connected && c.link.conn == None else c.link.connected <==> c.link.conn.Some?)
    && (c.link.conn.Some? ==> c.link.conn.value < c.link.nextEpoch)
    && c.repair.last <= c.repair.clock && (c.repair.made == [] || c.repair.made == [c.repair.last])
  }

  lemma ActKeepsInv(c: Client, t: Tid, reply: Answer)
    requires Inv(c) && t in c.threads.alive
    ensures Inv(ActStep(c, t, reply))
  {
    var d, pc := ActStep(c, t, reply), c.threads.alive[t];
    assert Linked(d.mock, d.link);
    assert Between(NextPc(c, pc, reply)) ==> Torn(d.link);
    assert Spaced(d.repair);
  }

  lemma StepKeepsInv(c: Client, s: Step)
    requires Inv(c)
    ensures Inv(Next(c, s))
  {
    match s {
      case Act(t, reply) => if t in c.threads.alive { ActKeepsInv(c, t, reply); }
      case _ =>
    }
  }

  /** In every interleaving: at most one reconnect thread lives; a connected real client
      has a connection; every cached handle was issued by the connection there is; route
      repairs are at least the cooldown apart. */
  lemma {:induction false} EveryInterleaving(c: Client, steps: seq<Step>)
    requires Inv(c)
    ensures Inv(Run(c, steps))
    ensures |Run(c, steps).threads.alive| <= 1
    decreases |steps|
  {
    if steps != [] {
      StepKeepsInv(c, steps[0]);
      EveryInterleaving(Next(c, steps[0]), steps[1..]);
    } else {
      AtMostOne(c);
    }
  }

  lemma AtMostOne(c: Client)
    requires OneThread(c)
    ensures |c.threads.alive| <= 1
  {
    var tids := c.threads.alive.Keys;
    assert |c.threads.alive| == |tids|;
    if tids != {} {
      var t :| t in tids;
      assert tids == {t};
    }
  }

  // ---- Consequences ----

  /** In any reachable state the handle a caller obtains was issued by the connection there
      is, never by an earlier one. */
  lemma HandleIsCurrent(c0: Client, steps: seq<Step>, v: string, answer: Option<Handle>)
    requires Init(c0)
    ensures var c := Run(c0, steps);
            var r := HandleResult(c, v, answer);
            r.Some? ==> c.link.conn == Some(r.value.1) && r.value.1 < c.link.nextEpoch
  {
    EveryInterleaving(c0, steps);
  }

  /** While connected a caller gets the handle the PLC answers, whichever connection that is,
      and from then on that handle without asking, until the cache is cleared; a variable the
      PLC refuses gives none and is asked for again. */
  lemma HandleServed(c: Client, v: string, h: Handle, later: Option<Handle>)
    requires !c.mock && c.link.connected && c.link.conn.Some? && v !in c.link.handles
    ensures HandleResult(c, v, Some(h)) == Some((h, c.link.conn.value))
    ensures HandleResult(Next(c, GetHandle(v, Some(h))), v, later) == Some((h, c.link.conn.value))
    ensures HandleResult(c, v, None) == None && Next(c, GetHandle(v, None)) == c
    ensures var handles := Next(c, GetHandle(v, Some(h))).link.handles;
            Next(c, GetHandle(v, Some(h))) == c.(link := c.link.(handles := handles))
  {
  }

  const STARTED := Client(false, Link(Some(0), true, map[], 1), Threads(false, None, map[], 0),
                          Health(0, 0, 0, 0), Repair(0.0, 0.0, []))

  /** That connection may be known to be lost: until the reconnect thread closes it, a
      disconnected client still hands out its handles. */
  lemma HandleOfLostConnection()
    ensures var c := Run(STARTED, [GetHandle("v", Some(5)), Read(1, TransportError)]);
            && Init(STARTED) && !c.link.connected && c.link.conn == Some(0)
            && HandleResult(c, "v", None) == Some((5, 0))
  {
    var steps := [GetHandle("v", Some(5)), Read(1, TransportError)];
    assert steps[1..] == [Read(1, TransportError)] && steps[1..][1..] == [];
  }

  /** A call that goes through is counted and changes nothing else.  A symbol error leaves
      the whole client as it was.  A transport error disconnects it
      and leaves exactly one reconnect thread alive, the running one if there was one; it
      touches neither the connection object nor the cache, and is counted as one error. */
  lemma ErrorKinds(c: Client, count: nat)
    requires Inv(c) && !c.mock && c.link.connected
    ensures Next(c, Read(count, Fine)) == c.(health := c.health.(readCount := c.health.readCount + count))
    ensures Next(c, Write(count, Fine)) == c.(health := c.health.(writeCount := c.health.writeCount + count))
    ensures Next(c, Read(count, SymbolError)) == c && Next(c, Write(count, SymbolError)) == c
    ensures Next(c, Write(count, TransportError)) == Next(c, Read(count, TransportError))
    ensures var d := Next(c, Read(count, TransportError));
            && d.link == c.link.(connected := false) && d.repair == c.repair
            && d.health == c.health.(errorCount := c.health.errorCount + 1)
            && d.threads.current.Some? && d.threads.alive.Keys == {d.threads.current.value}
            && (c.threads.alive != map[] ==> d.threads == c.threads)
  {
  }

  /** Connections never come back: a connection published later is newer than every
      connection there was before. */
  lemma {:induction false} EpochsIncrease(c: Client, steps: seq<Step>)
    ensures var d := Run(c, steps);
            && c.link.nextEpoch <= d.link.nextEpoch
            && (d.link.conn.Some? && d.link.conn != c.link.conn ==> c.link.nextEpoch <= d.link.conn.value)
    decreases |steps|
  {
    if steps != [] {
      EpochsIncrease(Next(c, steps[0]), steps[1..]);
    }
  }

  // ---- Reconnecting ----

  const OPENS := Answer(true, false, false, false)

  /** Thread `t` stands at one of its two openings and the target answers. */
  predicate Reopens(c: Client, s: Step) {
    && s.Act? && s.tid in c.threads.alive
    && (c.threads.alive[s.tid].Opening? || c.threads.alive[s.tid].Reopening?)
    && s.reply.opens
  }

  /** An opening the target answers connects the client: over a connection newer than every
      one before, with nothing cached; the reconnect is counted once, the thread is done, and
      the next read or write goes through. */
  lemma ReopeningConnects(c: Client, s: Step, n: nat)
    requires Inv(c) && Reopens(c, s)
    ensures var d := Next(c, s);
            && !d.mock && d.link == Link(Some(c.link.nextEpoch), true, map[], c.link.nextEpoch + 1)
            && d.threads == c.threads.(alive := c.threads.alive[s.tid := Exiting])
            && d.health == c.health.(reconnectCount := c.health.reconnectCount + 1) && d.repair == c.repair
            && Next(d, Read(n, Fine)) == d.(health := d.health.(readCount := d.health.readCount + n))
            && Next(d, Write(n, Fine)) == d.(health := d.health.(writeCount := d.health.writeCount + n))
  {
    assert Between(c.threads.alive[s.tid]);
  }

  /** No other step connects a client that is down. */
  lemma OnlyReopeningConnects(c: Client, s: Step)
    requires !c.mock && !c.link.connected
    ensures Next(c, s).link.connected <==> Reopens(c, s)
  {
  }

  /** Over every run: a client that was down and is up again was reconnected by an opening
      the target answered, at some step before which it was still down. */
  lemma {:induction false} UpAgain(c: Client, steps: seq<Step>) returns (i: nat)
    requires !c.mock && !c.link.connected && Run(c, steps).link.connected
    ensures i < |steps|
    ensures var b := Run(c, steps[..i]);
            !b.link.connected && Reopens(b, steps[i]) && Next(b, steps[i]).link.connected
    decreases |steps|
  {
    OnlyReopeningConnects(c, steps[0]);
    if Reopens(c, steps[0]) {
      i := 0;
    } else {
      var j := UpAgain(Next(c, steps[0]), steps[1..]);
      i := j + 1;
      assert steps[..i][1..] == steps[1..][..j];
    }
  }

  lemma RunFirst(c: Client, s: Step, steps: seq<Step>)
    ensures Run(c, [s] + steps) == Run(Next(c, s), steps)
  {
    assert ([s] + steps)[1..] == steps;
  }

  /** `n` actions of thread `t` in a row, with the target up. */
  ghost function Acts(t: Tid, n: nat): seq<Step> {
    if n == 0 then [] else [Act(t, OPENS)] + Acts(t, n - 1)
  }

  lemma ActsMore(c: Client, t: Tid, n: nat)
    requires n > 0
    ensures Run(c, Acts(t, n)) == Run(Next(c, Act(t, OPENS)), Acts(t, n - 1))
  {
    RunFirst(c, Act(t, OPENS), Acts(t, n - 1));
  }

  /** The wait is over: awake, tested, about to disconnect. */
  lemma FirstThree(c: Client, t: Tid, n: nat)
    requires t in c.threads.alive && !c.threads.stop && !c.link.connected
    requires c.threads.alive[t].Waiting? && c.repair.clock >= c.threads.alive[t].until
    ensures var d := c.(threads := c.threads.(alive := c.threads.alive[t := Clearing(c.threads.alive[t].attempt)]));
            Run(c, Acts(t, n + 3)) == Run(d, Acts(t, n))
  {
    var x := Act(t, OPENS);
    var c1 := Next(c, x);
    var c2 := Next(c1, x);
    ActsMore(c, t, n + 3);
    ActsMore(c1, t, n + 2);
    assert c1 == c.(threads := c.threads.(alive := c.threads.alive[t := Woken(c.threads.alive[t].attempt)]));
    assert c2 == c.(threads := c.threads.(alive := c.threads.alive[t := Testing(c.threads.alive[t].attempt)]));
    ActsMore(c2, t, n + 1);
    var alive := c.threads.alive[t := Clearing(c.threads.alive[t].attempt)];
    assert Next(c2, x) == c.(threads := c.threads.(alive := alive));
  }

  /** Disconnect, connect, open. */
  lemma LastThree(c: Client, t: Tid)
    requires t in c.threads.alive && c.threads.alive[t].Clearing?
    ensures var d := Run(c, Acts(t, 3));
            && d.link == Link(Some(c.link.nextEpoch), true, map[], c.link.nextEpoch + 1)
            && d.threads == c.threads.(alive := c.threads.alive[t := Exiting])
            && d.health == c.health.(reconnectCount := c.health.reconnectCount + 1)
  {
    var x := Act(t, OPENS);
    var c1 := Next(c, x);
    var c2 := Next(c1, x);
    ActsMore(c, t, 3);
    ActsMore(c1, t, 2);
    ActsMore(c2, t, 1);
    assert c1.link == c2.link == Link(None, false, map[], c.link.nextEpoch);
    assert c2.threads.alive == c.threads.alive[t := Opening(c.threads.alive[t].attempt)];
    assert Acts(t, 0) == [];
  }

  /** A thread that came to life just now, one second later. */
  lemma FirstWait(c: Client, t: Tid, steps: seq<Step>)
    requires c.threads == Threads(false, Some(t), map[t := LoopTop(0)], t + 1)
    ensures var now := c.repair.clock + 1.0;
            var d := c.(threads := c.threads.(alive := map[t := Waiting(0, now)]), repair := c.repair.(clock := now));
            Run(c, [Act(t, OPENS)] + ([Tick(now)] + steps)) == Run(d, steps)
  {
    var now := c.repair.clock + 1.0;
    RunFirst(c, Act(t, OPENS), [Tick(now)] + steps);
    RunFirst(Next(c, Act(t, OPENS)), Tick(now), steps);
    assert Next(c, Act(t, OPENS)).threads.alive == map[t := Waiting(0, now)];
  }

  /** The client after the read that meets the outage: it started a thread. */
  ghost function Struck(c: Client): Client {
    var t := c.threads.nextTid;
    Client(false, c.link.(connected := false), Threads(false, Some(t), map[t := LoopTop(0)], t + 1),
           c.health.(errorCount := c.health.errorCount + if c.link.connected then 1 else 0), c.repair)
  }

  lemma FailingRead(c: Client, n: nat)
    requires !c.mock && c.threads.alive == map[]
    ensures Next(c, Read(n, TransportError)) == Struck(c)
  {
    assert c.threads.alive[c.threads.nextTid := LoopTop(0)] == map[c.threads.nextTid := LoopTop(0)];
  }

  /** The client once the thread an outage started has waited its second. */
  ghost function Waited(c: Client): Client {
    var t, now := c.threads.nextTid, c.repair.clock + 1.0;
    Client(false, c.link.(connected := false), Threads(false, Some(t), map[t := Waiting(0, now)], t + 1),
           c.health.(errorCount := c.health.errorCount + if c.link.connected then 1 else 0), c.repair.(clock := now))
  }

  lemma OutageWaits(c: Client, n: nat, steps: seq<Step>)
    requires !c.mock && c.threads.alive == map[]
    ensures var t := c.threads.nextTid;
            Run(c, [Read(n, TransportError)] + ([Act(t, OPENS)] + ([Tick(c.repair.clock + 1.0)] + steps)))
            == Run(Waited(c), steps)
  {
    var t, now := c.threads.nextTid, c.repair.clock + 1.0;
    RunFirst(c, Read(n, TransportError), [Act(t, OPENS)] + ([Tick(now)] + steps));
    FailingRead(c, n);
    FirstWait(Struck(c), t, steps);
  }

  lemma WaitedReconnects(c: Client)
    ensures var t, d := c.threads.nextTid, Run(Waited(c), Acts(c.threads.nextTid, 6));
            && d.link == Link(Some(c.link.nextEpoch), true, map[], c.link.nextEpoch + 1)
            && d.threads == Threads(false, Some(t), map[t := Exiting], t + 1)
            && d.health == Waited(c).health.(reconnectCount := c.health.reconnectCount + 1)
  {
    var t := c.threads.nextTid;
    FirstThree(Waited(c), t, 3);
    LastThree(Waited(c).(threads := Threads(false, Some(t), Waited(c).threads.alive[t := Clearing(0)], t + 1)), t);
  }

  /** An outage from beginning to end, when no thread is at work: the read that fails, or is
      refused, starts a thread that waits one second, and with the target up by then the
      client is connected again, even if the thread before had been stopped. */
  lemma OutageEnds(c: Client, n: nat)
    requires !c.mock && c.threads.alive == map[]
    ensures var t := c.threads.nextTid;
            var d := Run(c, [Read(n, TransportError)] +
                            ([Act(t, OPENS)] + ([Tick(c.repair.clock + 1.0)] + Acts(t, 6))));
            && d.link == Link(Some(c.link.nextEpoch), true, map[], c.link.nextEpoch + 1)
            && d.threads == Threads(false, Some(t), map[t := Exiting], t + 1)
            && d.health == c.health.(errorCount := c.health.errorCount + if c.link.connected then 1 else 0,
                                     reconnectCount := c.health.reconnectCount + 1)
  {
    OutageWaits(c, n, Acts(c.threads.nextTid, 6));
    WaitedReconnects(c);
  }

  /** The target refuses the opening of thread `t`, and the one after a repair if there is one. */
  ghost predicate Refuses(c: Client, t: Tid, no: Answer) {
    t in c.threads.alive && c.threads.alive[t].Opening? && !no.opens && Torn(c.link)
  }

  /** The failure looks like a missing route and the last repair is long enough ago. */
  ghost predicate RepairDue(c: Client, no: Answer) {
    no.plausible && c.repair.clock - c.repair.last >= 600.0
  }

  lemma OpeningRefused(c: Client, t: Tid, no: Answer, steps: seq<Step>)
    requires Refuses(c, t, no)
    ensures var d := c.(threads := c.threads.(alive :=
                          c.threads.alive[t := Deciding(c.threads.alive[t].attempt, no.plausible)]),
                        health := c.health.(errorCount := c.health.errorCount + 1));
            Run(c, [Act(t, no)] + steps) == Run(d, steps)
  {
    RunFirst(c, Act(t, no), steps);
    var alive := c.threads.alive[t := Deciding(c.threads.alive[t].attempt, no.plausible)];
    assert Next(c, Act(t, no)) ==
           c.(threads := c.threads.(alive := alive), health := c.health.(errorCount := c.health.errorCount + 1));
  }

  /** An attempt the target refuses, when no route is added or the target does not accept it:
      the thread is at the top of its loop with one more failure.  The repair is tried only
      when it is due, and costs the cooldown even without credentials. */
  lemma AttemptFails(c: Client, t: Tid, no: Answer)
    requires Refuses(c, t, no) && !(RepairDue(c, no) && no.configured && no.accepted)
    ensures Run(c, [Act(t, no)] + ([Act(t, no)] + [Act(t, no)])) ==
            c.(threads := c.threads.(alive := c.threads.alive[t := LoopTop(c.threads.alive[t].attempt + 1)]),
               health := c.health.(errorCount := c.health.errorCount + 1),
               repair := Repair(c.repair.clock, if RepairDue(c, no) then c.repair.clock else c.repair.last,
                                c.repair.made + if RepairDue(c, no) && no.configured then [c.repair.clock] else []))
  {
    var x := Act(t, no);
    OpeningRefused(c, t, no, [x] + [x]);
    var c1 := Next(c, x);
    var c2 := Next(c1, x);
    RunFirst(c1, x, [x]);
    RunFirst(c2, x, []);
    assert c2.threads.alive == c.threads.alive[t := GivingUp(c.threads.alive[t].attempt)];
    assert [x] + [] == [x];
  }

  /** An attempt the target refuses although it accepts the route: the opening is tried once
      more, and its failure counted as well. */
  lemma RepairedAttemptFails(c: Client, t: Tid, no: Answer)
    requires Refuses(c, t, no) && RepairDue(c, no) && no.configured && no.accepted
    ensures Run(c, [Act(t, no)] + ([Act(t, no)] + ([Act(t, no)] + [Act(t, no)]))) ==
            c.(threads := c.threads.(alive := c.threads.alive[t := LoopTop(c.threads.alive[t].attempt + 1)]),
               health := c.health.(errorCount := c.health.errorCount + 2),
               repair := Repair(c.repair.clock, c.repair.clock, c.repair.made + [c.repair.clock]))
  {
    var x := Act(t, no);
    OpeningRefused(c, t, no, [x] + ([x] + [x]));
    var c1 := Next(c, x);
    var c2 := Next(c1, x);
    var c3 := Next(c2, x);
    RunFirst(c1, x, [x] + [x]);
    assert c2.threads.alive == c.threads.alive[t := Reopening(c.threads.alive[t].attempt)];
    RunFirst(c2, x, [x]);
    assert c3.threads.alive == c.threads.alive[t := GivingUp(c.threads.alive[t].attempt)];
    RunFirst(c3, x, []);
    assert [x] + [] == [x];
  }

  /** Once stopped, a thread that has not begun an attempt never begins one: it is gone after
      three actions, and the connection is as it was. */
  lemma StoppedThreadEnds(c: Client, t: Tid, a: Answer, b: Answer, e: Answer)
    requires t in c.threads.alive
    requires c.threads.alive[t].LoopTop? || c.threads.alive[t].Waiting? || c.threads.alive[t].Woken?
    ensures var d := Run(c, [StopReconnect] + ([Act(t, a)] + ([Act(t, b)] + [Act(t, e)])));
            d == c.(threads := c.threads.(stop := true, alive := c.threads.alive - {t}))
  {
    var c0 := Next(c, StopReconnect);
    var c1 := Next(c0, Act(t, a));
    var c2 := Next(c1, Act(t, b));
    RunFirst(c, StopReconnect, [Act(t, a)] + ([Act(t, b)] + [Act(t, e)]));
    RunFirst(c0, Act(t, a), [Act(t, b)] + [Act(t, e)]);
    RunFirst(c1, Act(t, b), [Act(t, e)]);
    RunFirst(c2, Act(t, e), []);
    assert [Act(t, e)] + [] == [Act(t, e)];
    assert c.threads.alive[t := Exiting] - {t} == c.threads.alive - {t};
    assert c.threads.alive[t := Woken(c.threads.alive[t].attempt)][t := Exiting] - {t} == c.threads.alive - {t};
  }

  // ---- Backoff ----

  lemma {:induction false} Pow2Grows(a: nat, b: nat)
    requires a <= b
    ensures Pow2(a) <= Pow2(b)
    decreases b
  {
    if a < b { Pow2Grows(a, b - 1); }
  }

  /** Waits double from one second until the cap and then stay there; they never shrink
      within one thread's life. */
  lemma BackoffSchedule(a: nat, b: nat)
    requires a <= b
    ensures Delay(0) == 1.0
    ensures a < 4 ==> Delay(a + 1) == 2.0 * Delay(a)
    ensures a >= 5 ==> Delay(a) == 20.0
    ensures Delay(a) <= Delay(b) <= 20.0
  {
    Pow2Grows(a, b);
    assert Pow2(1) == 2 && Pow2(2) == 4;
    assert Pow2(3) == 2 * Pow2(2) && Pow2(4) == 2 * Pow2(3) && Pow2(5) == 2 * Pow2(4);
    if a >= 5 { Pow2Grows(5, a); }
  }

  /** A reconnect thread that nobody stops sits out its wait: before the time is up it makes
      no attempt, whatever else happens. */
  lemma {:induction false} WaitIsKept(c: Client, steps: seq<Step>, t: Tid)
    requires OneThread(c) && !c.threads.stop && t in c.threads.alive
    requires c.threads.alive[t].Waiting? && c.repair.clock < c.threads.alive[t].until
    requires forall i :: 0 <= i < |steps| ==> steps[i] != StopReconnect
    requires forall i :: 0 <= i < |steps| && steps[i].Tick? ==> steps[i].now < c.threads.alive[t].until
    ensures t in Run(c, steps).threads.alive && Run(c, steps).threads.alive[t] == c.threads.alive[t]
    decreases |steps|
  {
    if steps != [] {
      assert steps[0] != StopReconnect;
      assert OneThread(Next(c, steps[0])) && Next(c, steps[0]).threads.alive[t] == c.threads.alive[t];
      WaitIsKept(Next(c, steps[0]), steps[1..], t);
    }
  }

  /** A thread that came to the top of its loop with `attempt` failures has not got past the
      wait they call for before `due`. */
  ghost predicate HeldBack(c: Client, t: Tid, attempt: nat, due: real) {
    && t < c.threads.nextTid && !c.threads.stop
    && (t in c.threads.alive ==>
         || c.repair.clock >= due
         || (c.threads.alive[t] == LoopTop(attempt) && c.repair.clock + Delay(attempt) >= due)
         || (c.threads.alive[t].Waiting? && c.threads.alive[t].attempt == attempt && c.threads.alive[t].until >= due))
  }

  lemma StepHeldBack(c: Client, s: Step, t: Tid, attempt: nat, due: real)
    requires HeldBack(c, t, attempt, due) && s != StopReconnect
    ensures HeldBack(Next(c, s), t, attempt, due)
  {
  }

  lemma {:induction false} RunHeldBack(c: Client, steps: seq<Step>, t: Tid, attempt: nat, due: real)
    requires HeldBack(c, t, attempt, due)
    requires forall i :: 0 <= i < |steps| ==> steps[i] != StopReconnect
    ensures HeldBack(Run(c, steps), t, attempt, due)
    decreases |steps|
  {
    if steps != [] {
      StepHeldBack(c, steps[0], t, attempt, due);
      RunHeldBack(Next(c, steps[0]), steps[1..], t, attempt, due);
    }
  }

  /** Over every run in which nobody stops it: a reconnect thread that is at the top of its
      loop after `attempt` failures makes its next attempt no sooner than the backoff for that
      many failures later.  Until then it is still there, or waiting, or gone. */
  lemma BackoffKept(c: Client, steps: seq<Step>, t: Tid)
    requires OneThread(c) && !c.threads.stop && t in c.threads.alive && c.threads.alive[t].LoopTop?
    requires forall i :: 0 <= i < |steps| ==> steps[i] != StopReconnect
    ensures var attempt := c.threads.alive[t].attempt;
            var due, d := c.repair.clock + Delay(attempt), Run(c, steps);
            || t !in d.threads.alive
            || d.threads.alive[t] == LoopTop(attempt)
            || (d.threads.alive[t].Waiting? && d.threads.alive[t].attempt == attempt && d.threads.alive[t].until >= due)
            || d.repair.clock >= due
  {
    RunHeldBack(c, steps, t, c.threads.alive[t].attempt, c.repair.clock + Delay(c.threads.alive[t].attempt));
  }

  // ---- The object ----

  class ADSClient {
    const mock: bool
    var conn: Option<Epoch>
    var connected: bool
    var handleCache: map<string, (Handle, Epoch)>
    var stopReconnect: bool
    var reconnectThread: Option<Tid>
    var alive: map<Tid, Pc>
    var nextTid: Tid
    var nextEpoch: Epoch
    var readCount: nat
    var writeCount: nat
    var errorCount: nat
    var reconnectCount: nat
    var clock: real
    var lastRouteRepair: real
    var repairs: seq<real>

    ghost function AbsLink(): Link
      reads this
    {
      Link(conn, connected, handleCache, nextEpoch)
    }

    ghost function AbsThreads(): Threads
      reads this
    {
      Threads(stopReconnect, reconnectThread, alive, nextTid)
    }

    ghost function Abs(): Client
      reads this
    {
      Client(mock, AbsLink(), AbsThreads(), Health(readCount, writeCount, errorCount, reconnectCount),
             Repair(clock, lastRouteRepair, repairs))
    }

    /** The start-up connect; `reached` says whether the target answered. */
    constructor (mock: bool, reached: bool, now: real)
      requires now >= 0.0
      ensures this.mock == mock && Init(Abs()) && (!mock ==> connected == reached)
    {
      this.mock := mock;
      conn := if !mock && reached then Some(0) else None;
      connected := mock || reached;
      handleCache, stopReconnect, reconnectThread, alive := map[], false, None, map[];
      nextTid, nextEpoch, readCount, writeCount, errorCount, reconnectCount := 0, 1, 0, 0, 0, 0;
      clock, lastRouteRepair, repairs := now, 0.0, [];
    }

    method LaunchReconnectThread()
      modifies this`stopReconnect, this`reconnectThread, this`alive, this`nextTid
      ensures AbsThreads() == Launch(old(AbsThreads()))
    {
      if reconnectThread.Some? && reconnectThread.value in alive { return; }
      stopReconnect := false;
      reconnectThread := Some(nextTid);
      alive := alive[nextTid := LoopTop(0)];
      nextTid := nextTid + 1;
    }

    /** Returns whether the caller got a value rather than an exception. */
    method ReadVariable(count: nat, outcome: Outcome) returns (ok: bool)
      modifies this
      ensures Abs() == ReadStep(old(Abs()), count, outcome)
      ensures ok <==> Performed(old(Abs()), outcome)
    {
      if mock { return false; }
      ok := Guarded(outcome);
      if ok { readCount := readCount + count; }
    }

    /** Returns whether the call came back without an exception; in mock mode it does, with
        nothing written. */
    method WriteVariable(count: nat, outcome: Outcome) returns (ok: bool)
      modifies this
      ensures Abs() == WriteStep(old(Abs()), count, outcome)
      ensures ok <==> mock || Performed(old(Abs()), outcome)
    {
      if mock { return true; }
      ok := Guarded(outcome);
      if ok { writeCount := writeCount + count; }
    }

    /** The connection check and the error handling that reads and writes share. */
    method Guarded(outcome: Outcome) returns (ok: bool)
      requires !mock
      modifies this
      ensures ok <==> Performed(old(Abs()), outcome)
      ensures Abs() == if ok then old(Abs()) else RefusedStep(old(Abs()), outcome)
    {
      if !connected {
        LaunchReconnectThread();
        return false;
      }
      match outcome {
        case Fine =>
          return true;
        case SymbolError =>
          return false;
        case TransportError =>
          connected := false;
          errorCount := errorCount + 1;
          LaunchReconnectThread();
          return false;
      }
    }

    method FetchHandle(v: string, answer: Option<Handle>) returns (r: Option<(Handle, Epoch)>)
      modifies this
      ensures Abs() == HandleStep(old(Abs()), v, answer)
      ensures r == HandleResult(old(Abs()), v, answer)
    {
      if mock { return None; }
      if v in handleCache { return Some(handleCache[v]); }
      if !connected {
        LaunchReconnectThread();
        return None;
      }
      if answer.Some? && conn.Some? {
        handleCache := handleCache[v := (answer.value, conn.value)];
        return Some((answer.value, conn.value));
      }
      return None;
    }

    method CloseConnection()
      modifies this`conn, this`connected, this`handleCache
      ensures AbsLink() == Link(None, false, map[], nextEpoch)
    {
      handleCache, conn, connected := map[], None, false;
    }

    method OpenAndVerify(opens: bool) returns (ok: bool)
      modifies this`conn, this`connected, this`nextEpoch, this`errorCount
      ensures ok == opens
      ensures AbsLink() ==
                if opens then Link(Some(old(nextEpoch)), true, old(handleCache), old(nextEpoch) + 1) else old(AbsLink())
      ensures errorCount == old(errorCount) + if opens then 0 else 1
    {
      if opens {
        conn, connected, nextEpoch := Some(nextEpoch), true, nextEpoch + 1;
      } else {
        errorCount := errorCount + 1;
      }
      return opens;
    }

    /** An opening by the reconnect thread, which counts its successes. */
    method OpenCounted(opens: bool) returns (ok: bool)
      modifies this`conn, this`connected, this`nextEpoch, this`errorCount, this`reconnectCount
      ensures ok == opens
      ensures AbsLink() == if opens then Publish(old(AbsLink())) else old(AbsLink())
      ensures errorCount == old(errorCount) + if opens then 0 else 1
      ensures reconnectCount == old(reconnectCount) + if opens then 1 else 0
    {
      ok := OpenAndVerify(opens);
      if ok { reconnectCount := reconnectCount + 1; }
    }

    /** The route repair of connect(): whether to try opening once more. */
    method TryRouteRepair(plausible: bool, reply: Answer) returns (again: bool)
      modifies this`lastRouteRepair, this`repairs
      ensures Abs().repair == RepairAfter(old(Abs().repair), Deciding(0, plausible), reply)
      ensures again <==> plausible && CooldownOver(old(Abs().repair)) && reply.configured && reply.accepted
    {
      if !plausible || clock - lastRouteRepair < REPAIR_COOLDOWN { return false; }
      lastRouteRepair := clock;
      if !reply.configured { return false; }
      repairs := repairs + [clock];
      return reply.accepted;
    }

    /** The two openings of connect(). */
    method Open(pc: Pc, reply: Answer) returns (next: Pc)
      requires pc.Opening? || pc.Reopening?
      modifies this`conn, this`connected, this`nextEpoch, this`errorCount, this`reconnectCount
      ensures next == NextPc(old(Abs()), pc, reply)
      ensures AbsLink() == LinkAfter(old(AbsLink()), pc, reply)
      ensures Abs().health == HealthAfter(old(Abs().health), old(AbsLink()), pc, reply)
    {
      var ok := OpenCounted(reply.opens);
      next := if ok then Exiting
              else if pc.Opening? then Deciding(pc.attempt, reply.plausible)
              else GivingUp(pc.attempt);
    }

    /** The other steps of connect(): the check, the repair, the failure. */
    method Connect(pc: Pc, reply: Answer) returns (next: Pc)
      requires pc.Connecting? || pc.Deciding? || pc.GivingUp?
      modifies this`conn, this`connected, this`reconnectCount, this`lastRouteRepair, this`repairs
      ensures next == NextPc(old(Abs()), pc, reply)
      ensures AbsLink() == LinkAfter(old(AbsLink()), pc, reply)
      ensures Abs().health == HealthAfter(old(Abs().health), old(AbsLink()), pc, reply)
      ensures Abs().repair == RepairAfter(old(Abs().repair), pc, reply)
    {
      if pc.Connecting? {
        if connected { reconnectCount := reconnectCount + 1; }
        next := if connected then Exiting else Opening(pc.attempt);
      } else if pc.Deciding? {
        var again := TryRouteRepair(pc.plausible, reply);
        next := if again then Reopening(pc.attempt) else GivingUp(pc.attempt);
      } else {
        conn, connected := None, false;
        next := LoopTop(pc.attempt + 1);
      }
    }

    /** What the thread does to the client at `pc`, and where it goes next. */
    method Perform(pc: Pc, reply: Answer) returns (next: Pc)
      modifies this`conn, this`connected, this`handleCache, this`nextEpoch, this`errorCount, this`reconnectCount,
               this`lastRouteRepair, this`repairs
      ensures next == NextPc(old(Abs()), pc, reply)
      ensures AbsLink() == LinkAfter(old(AbsLink()), pc, reply)
      ensures Abs().health == HealthAfter(old(Abs().health), old(AbsLink()), pc, reply)
      ensures Abs().repair == RepairAfter(old(Abs().repair), pc, reply)
    {
      match pc {
        case LoopTop(a) => next := if stopReconnect then Exiting else Waiting(a, clock + Delay(a));
        case Waiting(a, until) => next := if stopReconnect || clock >= until then Woken(a) else pc;
        case Woken(a) => next := if stopReconnect then Exiting else Testing(a);
        case Testing(a) => next := if connected then Exiting else Clearing(a);
        case Clearing(a) =>
          CloseConnection();
          next := Connecting(a);
        case Exiting => next := Exiting;
        case Opening(_) => next := Open(pc, reply);
        case Reopening(_) => next := Open(pc, reply);
        case _ => next := Connect(pc, reply);
      }
    }

    /** One action of the reconnect loop of thread `t`. */
    method Advance(t: Tid, reply: Answer)
      requires t in alive
      modifies this
      ensures Abs() == ActStep(old(Abs()), t, reply)
    {
      var pc := alive[t];
      var next := Perform(pc, reply);
      alive := if pc == Exiting then alive - {t} else alive[t := next];
    }

    /** Any interleaving, executed: the scheduler picks the next critical section. */
    method Interleave(steps: seq<Step>)
      modifies this
      ensures Abs() == Run(old(Abs()), steps)
    {
      var i := 0;
      while i < |steps|
        invariant 0 <= i <= |steps|
        invariant Run(Abs(), steps[i..]) == Run(old(Abs()), steps)
      {
        assert steps[i..][1..] == steps[i + 1..];
        match steps[i] {
          case Read(count, outcome) => var _ := ReadVariable(count, outcome);
          case Write(count, outcome) => var _ := WriteVariable(count, outcome);
          case GetHandle(v, answer) => var _ := FetchHandle(v, answer);
          case StopReconnect => stopReconnect := true;
          case Act(t, reply) => if t in alive { Advance(t, reply); }
          case Tick(now) => if now >= clock { clock := now; }
        }
        i := i + 1;
      }
    }
  }
}
