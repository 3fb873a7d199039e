/** The ADS change-notification manager: who listens to which PLC variable, which
    variables hold a live ADS registration, and the queue the dispatch thread drains.

    `Table` is the bookkeeping as a value; `NotificationManager` is the object that
    updates it in place.  Every ADS registration may be refused: `grant` is what the PLC
    answered (`None`: the call raised). */
module Notifications {
  import opened Common

  type Handle = nat
  type PlcType = string

  datatype Table<C> = Table(
    subs: map<string, seq<C>>,
    handles: map<string, Handle>,
    types: map<string, PlcType>)

  datatype Event = Event(variable: string, value: bool)

  const EMPTY: Table<nat> := Table(map[], map[], map[])

  function Listeners<C>(t: Table<C>, v: string): seq<C> {
    if v in t.subs then t.subs[v] else []
  }

  /** Python's list.remove: the first occurrence goes, if there is one. */
  function RemoveFirst<C(==)>(s: seq<C>, c: C): seq<C> {
    if s == [] then [] else if s[0] == c then s[1..] else [s[0]] + RemoveFirst(s[1..], c)
  }

  function WithListeners<C>(t: Table<C>, v: string, cs: seq<C>): Table<C> {
    if cs == [] then t.(subs := t.subs - {v}) else t.(subs := t.subs[v := cs])
  }

  // ---- What each operation does to the table ----

  function Subscribe<C(==)>(t: Table<C>, v: string, ty: PlcType, c: C, grant: Option<Handle>)
    : (Table<C>, bool)
  {
    var was := Listeners(t, v);
    var now := if c in was then was else was + [c];
    var typed := t.(types := t.types[v := ty]);
    if v in t.handles then
      (WithListeners(typed, v, now), true)
    else
      match grant
      case Some(h) => (WithListeners(typed, v, now).(handles := t.handles[v := h]), true)
      case None => (WithListeners(typed, v, RemoveFirst(now, c)), false)
  }

  /** `c == None` drops every callback of the variable. */
  function Unsubscribe<C(==)>(t: Table<C>, v: string, c: Option<C>): Table<C> {
    if v !in t.subs then t
    else
      var rest := match c case None => [] case Some(x) => RemoveFirst(t.subs[v], x);
      if rest == [] then Table(t.subs - {v}, t.handles - {v}, t.types - {v})
      else t.(subs := t.subs[v := rest])
  }

  function UnsubscribeAll<C>(t: Table<C>): Table<C> {
    Table(map[], map[], map[])
  }

  /** Re-registration after a reconnect; `grants` holds the variables the PLC accepts. */
  function Restore<C>(t: Table<C>, grants: map<string, Handle>): Table<C> {
    t.(handles := map v | v in t.types && v in t.subs && t.subs[v] != [] && v in grants :: grants[v])
  }

  datatype Op<C> =
    | DoSubscribe(v: string, ty: PlcType, c: C, grant: Option<Handle>)
    | DoUnsubscribe(v: string, target: Option<C>)
    | DoUnsubscribeAll
    | DoRestore(grants: map<string, Handle>)

  function Step<C(==)>(t: Table<C>, op: Op<C>): Table<C> {
    match op
    case DoSubscribe(v, ty, c, grant) => Subscribe(t, v, ty, c, grant).0
    case DoUnsubscribe(v, c) => Unsubscribe(t, v, c)
    case DoUnsubscribeAll => UnsubscribeAll(t)
    case DoRestore(grants) => Restore(t, grants)
  }

  function Run<C(==)>(t: Table<C>, ops: seq<Op<C>>): Table<C>
    decreases |ops|
  {
    if ops == [] then t else Run(Step(t, ops[0]), ops[1..])
  }

  // ---- What every operation keeps ----

  ghost predicate WellFormed<C(!new)>(t: Table<C>) {
    && (forall v :: v in t.subs ==> t.subs[v] != [] && Distinct(t.subs[v]))
    && t.handles.Keys <= t.subs.Keys <= t.types.Keys
  }

  /** Every variable somebody listens to has a handle entry. */
  ghost predicate Covered<C>(t: Table<C>) {
    t.handles.Keys == t.subs.Keys
  }

  lemma {:induction false} RemoveFirstDistinct<C>(s: seq<C>, c: C)
    requires Distinct(s)
    ensures Distinct(RemoveFirst(s, c))
    ensures forall x :: x in RemoveFirst(s, c) <==> x in s && x != c
    ensures c !in s ==> RemoveFirst(s, c) == s
  {
    if s != [] {
      assert s == [s[0]] + s[1..];
      assert s[0] !in s[1..] by {
        assert forall i :: 0 <= i < |s[1..]| ==> s[1..][i] == s[i + 1] && s[0] != s[i + 1];
      }
      RemoveFirstDistinct(s[1..], c);
      var rest := RemoveFirst(s[1..], c);
      assert s[0] !in rest;
      assert Distinct([s[0]] + rest);
    }
  }

  /** Adding a new callback at the end and removing it again changes nothing. */
  lemma {:induction false} RemoveFirstLast<C>(s: seq<C>, c: C)
    requires c !in s
    ensures RemoveFirst(s + [c], c) == s
  {
    if s != [] {
      assert (s + [c])[1..] == s[1..] + [c];
      RemoveFirstLast(s[1..], c);
    }
  }

  lemma StepKeepsWellFormed<C(!new)>(t: Table<C>, op: Op<C>)
    requires WellFormed(t)
    ensures WellFormed(Step(t, op))
  {
    match op {
      case DoSubscribe(v, ty, c, grant) =>
        var was := Listeners(t, v);
        var now := if c in was then was else was + [c];
        assert Distinct(now);
        RemoveFirstDistinct(now, c);
      case DoUnsubscribe(v, Some(c)) =>
        if v in t.subs { RemoveFirstDistinct(t.subs[v], c); }
      case _ =>
    }
  }

  /** Over every run, however registrations fail: callback lists are non-empty and free of
      repeats, every handle has listeners and every listened variable has a type. */
  lemma {:induction false} RunKeepsWellFormed<C(!new)>(t: Table<C>, ops: seq<Op<C>>)
    requires WellFormed(t)
    ensures WellFormed(Run(t, ops))
    decreases |ops|
  {
    if ops != [] {
      StepKeepsWellFormed(t, ops[0]);
      RunKeepsWellFormed(Step(t, ops[0]), ops[1..]);
    }
  }

  /** Coverage survives every operation except a re-registration the PLC refuses. */
  lemma StepKeepsCovered<C(!new)>(t: Table<C>, op: Op<C>)
    requires WellFormed(t) && Covered(t)
    ensures Covered(Step(t, op)) <==> (op.DoRestore? ==> t.subs.Keys <= op.grants.Keys)
  {
  }

  lemma {:induction false} RunKeepsCovered<C(!new)>(t: Table<C>, ops: seq<Op<C>>)
    requires WellFormed(t) && Covered(t)
    requires forall i :: 0 <= i < |ops| ==> !ops[i].DoRestore?
    ensures Covered(Run(t, ops))
    decreases |ops|
  {
    if ops != [] {
      assert !ops[0].DoRestore?;
      StepKeepsCovered(t, ops[0]);
      StepKeepsWellFormed(t, ops[0]);
      RunKeepsCovered(Step(t, ops[0]), ops[1..]);
    }
  }

  // ---- What one call achieves ----

  /** A subscription that succeeds: the callback is listed once, after the callbacks that
      were there; the variable has a handle; other variables are untouched. */
  lemma SubscribeAccepted<C(!new)>(t: Table<C>, v: string, ty: PlcType, c: C, grant: Option<Handle>)
    requires WellFormed(t)
    ensures var (t', ok) := Subscribe(t, v, ty, c, grant);
            && (ok <==> v in t.handles || grant.Some?)
            && (ok ==> Listeners(t', v) == (if c in Listeners(t, v) then Listeners(t, v) else Listeners(t, v) + [c]))
            && (ok ==> v in t'.handles && t'.types[v] == ty)
            && (v in t.handles ==> t'.handles == t.handles)
            && (forall w :: w != v ==> Listeners(t', w) == Listeners(t, w))
            && (forall w :: w != v ==> (w in t'.handles <==> w in t.handles))
  {
  }

  /** A refused subscription leaves the handles alone, the listeners exactly when the callback
      was not listed before (a listed one is dropped by the failed retry), and always stores
      the type.  So all three tables are as before exactly when the callback was new and the
      variable had that type already. */
  lemma RefusedSubscribe<C(!new)>(t: Table<C>, v: string, ty: PlcType, c: C)
    requires WellFormed(t) && v !in t.handles
    ensures var (t', ok) := Subscribe(t, v, ty, c, None);
            && !ok
            && t'.handles == t.handles
            && t'.types == t.types[v := ty]
            && (t'.subs == t.subs <==> c !in Listeners(t, v))
            && c !in Listeners(t', v)
            && (t' == t <==> c !in Listeners(t, v) && v in t.types && t.types[v] == ty)
  {
    var was := Listeners(t, v);
    var now := if c in was then was else was + [c];
    assert Distinct(now);
    RemoveFirstDistinct(now, c);
    if c !in was { RemoveFirstLast(was, c); }
    var t' := Subscribe(t, v, ty, c, None).0;
    assert c !in was && was != [] ==> t'.subs == t.subs[v := was];
    assert c in was ==> Listeners(t', v) == RemoveFirst(now, c);
    assert t'.types == t.types <==> v in t.types && t.types[v] == ty;
  }

  /** A variable nobody ever listened to keeps the type of a refused subscription, and no
      unsubscribe takes it out again. */
  lemma RefusedSubscribeLeavesType()
    ensures var t := Step(EMPTY, DoSubscribe("gvlDALI.bSwitchOn1", "BOOL", 7, None));
            && t == Table(map[], map[], map["gvlDALI.bSwitchOn1" := "BOOL"])
            && Step(t, DoUnsubscribe("gvlDALI.bSwitchOn1", Some(7))) == t
            && Step(t, DoUnsubscribe("gvlDALI.bSwitchOn1", None)) == t
  {
    RefusedSubscribe(EMPTY, "gvlDALI.bSwitchOn1", "BOOL", 7);
  }

  /** A concrete loss: the registration vanished in a failed restore, the same callback
      subscribes again, the PLC still refuses, and the listener is gone. */
  lemma RefusedResubscribeDropsListener()
    ensures var t := Run(EMPTY, [DoSubscribe("gvlDALI.bSwitchOn1", "BOOL", 7, Some(1)), DoRestore(map[])]);
            && WellFormed(t)
            && Listeners(t, "gvlDALI.bSwitchOn1") == [7]
            && Listeners(Step(t, DoSubscribe("gvlDALI.bSwitchOn1", "BOOL", 7, None)), "gvlDALI.bSwitchOn1") == []
  {
  }

  /** Unsubscribing undoes a successful subscription of a new callback, handles included
      when the variable had been free. */
  lemma UnsubscribeUndoesSubscribe<C(!new)>(t: Table<C>, v: string, ty: PlcType, c: C, grant: Option<Handle>)
    requires WellFormed(t) && Covered(t) && c !in Listeners(t, v)
    requires Subscribe(t, v, ty, c, grant).1
    ensures var t' := Unsubscribe(Subscribe(t, v, ty, c, grant).0, v, Some(c));
            t'.subs == t.subs && t'.handles == t.handles
  {
    var was := Listeners(t, v);
    RemoveFirstLast(was, c);
    var t1 := Subscribe(t, v, ty, c, grant).0;
    assert t1.subs[v] == was + [c];
    if was == [] { assert v !in t.subs && v !in t.handles; }
  }

  /** Removing one callback removes that callback from that variable and nothing else; the
      registration is cancelled exactly when nobody is left. */
  lemma UnsubscribeExact<C(!new)>(t: Table<C>, v: string, c: C)
    requires WellFormed(t)
    ensures var t' := Unsubscribe(t, v, Some(c));
            && (forall w, x :: x in Listeners(t', w) <==> x in Listeners(t, w) && !(w == v && x == c))
            && (v in t'.handles <==> v in t.handles && Listeners(t', v) != [])
            && (forall w :: w != v ==> (w in t'.handles <==> w in t.handles))
  {
    if v in t.subs { RemoveFirstDistinct(t.subs[v], c); }
  }

  /** After a restore exactly the subscribed variables the PLC accepted are registered,
      each with the handle of this session; listeners are untouched. */
  lemma RestoreExact<C(!new)>(t: Table<C>, grants: map<string, Handle>)
    requires WellFormed(t)
    ensures var t' := Restore(t, grants);
            && t'.subs == t.subs
            && t'.handles.Keys == t.subs.Keys * grants.Keys
            && (forall v :: v in t'.handles ==> t'.handles[v] == grants[v])
            && (t.subs.Keys <= grants.Keys ==> Covered(t'))
  {
  }

  // ---- Dispatch ----

  /** The callback invocations one event causes, in the order they are made. */
  function Calls<C>(e: Event, cs: seq<C>): (r: seq<(C, Event)>)
    ensures |r| == |cs| && forall i :: 0 <= i < |r| ==> r[i] == (cs[i], e)
  {
    seq(|cs|, i requires 0 <= i < |cs| => (cs[i], e))
  }

  /** The callback invocations of draining the queue `q`, first event first. */
  function Deliveries<C>(t: Table<C>, q: seq<Event>): seq<(C, Event)> {
    if q == [] then []
    else Calls(q[0], Listeners(t, q[0].variable)) + Deliveries(t, q[1..])
  }

  lemma {:induction false} DeliveriesAppend<C>(t: Table<C>, q: seq<Event>, e: Event)
    ensures Deliveries(t, q + [e]) == Deliveries(t, q) + Calls(e, Listeners(t, e.variable))
  {
    if q == [] {
      assert [] + [e] == [e] && [e][1..] == [];
    } else {
      assert (q + [e])[1..] == q[1..] + [e];
      DeliveriesAppend(t, q[1..], e);
    }
  }

  lemma {:induction false} CallOnce<C(!new)>(e: Event, cs: seq<C>, n: nat, c: C)
    requires n <= |cs| && Distinct(cs)
    ensures multiset(Calls(e, cs)[..n])[(c, e)] == if c in cs[..n] then 1 else 0
    ensures forall d :: d != e ==> multiset(Calls(e, cs)[..n])[(c, d)] == 0
  {
    if n > 0 {
      CallOnce(e, cs, n - 1, c);
      assert Calls(e, cs)[..n] == Calls(e, cs)[..n - 1] + [(cs[n - 1], e)];
      assert cs[..n] == cs[..n - 1] + [cs[n - 1]];
    }
  }

  /** Draining a queue calls each listener of a variable exactly once for each time the event
      is in the queue, and nobody else. */
  lemma {:induction false} DeliveredOnce<C(!new)>(t: Table<C>, q: seq<Event>, c: C, e: Event)
    requires WellFormed(t)
    ensures multiset(Deliveries(t, q))[(c, e)] == if c in Listeners(t, e.variable) then multiset(q)[e] else 0
    decreases |q|
  {
    if q != [] {
      var cs := Listeners(t, q[0].variable);
      CallOnce(q[0], cs, |cs|, c);
      assert Calls(q[0], cs)[..|cs|] == Calls(q[0], cs) && cs[..|cs|] == cs;
      DeliveredOnce(t, q[1..], c, e);
      assert q == [q[0]] + q[1..];
    }
  }

  // ---- The object ----

  class NotificationManager<C(==, !new)> {
    const mock: bool
    var subscriptions: map<string, seq<C>>
    var handles: map<string, Handle>
    var typeMap: map<string, PlcType>
    var queue: seq<Event>
    var running: bool

    ghost function Abs(): Table<C>
      reads this
    {
      Table(subscriptions, handles, typeMap)
    }

    constructor (mock: bool)
      ensures this.mock == mock && Abs() == Table(map[], map[], map[]) && queue == [] && !running
    {
      this.mock := mock;
      subscriptions, handles, typeMap, queue, running := map[], map[], map[], [], false;
    }

    /** The registration failed: the callback is taken out of the list, an empty list out of
        the table. */
    method Unlist(v: string, c: C)
      requires v in subscriptions
      modifies this`subscriptions
      ensures subscriptions == var rest := RemoveFirst(old(subscriptions)[v], c);
                               if rest == [] then old(subscriptions) - {v} else old(subscriptions)[v := rest]
    {
      subscriptions := subscriptions[v := RemoveFirst(subscriptions[v], c)];
      if subscriptions[v] == [] { subscriptions := subscriptions - {v}; }
    }

    method SubscribeTo(v: string, ty: PlcType, c: C, grant: Option<Handle>) returns (ok: bool)
      modifies this
      ensures mock ==> !ok && Abs() == old(Abs()) && running == old(running)
      ensures !mock ==> (Abs(), ok) == Subscribe(old(Abs()), v, ty, c, grant)
      ensures !mock ==> running == (old(running) || ok)
      ensures queue == old(queue)
    {
      if mock { return false; }
      if v !in subscriptions { subscriptions := subscriptions[v := []]; }
      if c !in subscriptions[v] { subscriptions := subscriptions[v := subscriptions[v] + [c]]; }
      ghost var was := Listeners(old(Abs()), v);
      assert subscriptions == old(subscriptions)[v := if c in was then was else was + [c]];
      typeMap := typeMap[v := ty];
      if v !in handles {
        match grant {
          case Some(h) => handles := handles[v := h];
          case None =>
            Unlist(v, c);
            ghost var rest := RemoveFirst(if c in was then was else was + [c], c);
            assert subscriptions == if rest == [] then old(subscriptions) - {v} else old(subscriptions)[v := rest];
            return false;
        }
      }
      running := true;
      return true;
    }

    method UnsubscribeFrom(v: string, c: Option<C>)
      modifies this
      ensures Abs() == Unsubscribe(old(Abs()), v, c)
      ensures queue == old(queue) && running == old(running)
    {
      if v !in subscriptions { return; }
      match c {
        case None => subscriptions := subscriptions[v := []];
        case Some(x) => subscriptions := subscriptions[v := RemoveFirst(subscriptions[v], x)];
      }
      if subscriptions[v] == [] {
        subscriptions, typeMap := subscriptions - {v}, typeMap - {v};
        handles := handles - {v};
      }
    }

    method UnsubscribeEverything()
      modifies this
      ensures Abs() == UnsubscribeAll(old(Abs())) == Table(map[], map[], map[]) && !running && queue == old(queue)
    {
      running := false;
      var todo := handles.Keys;
      while todo != {}
        invariant todo == handles.Keys
        invariant subscriptions == old(subscriptions) && typeMap == old(typeMap) && !running && queue == old(queue)
        decreases todo
      {
        var v :| v in todo;
        handles := handles - {v};
        todo := todo - {v};
      }
      subscriptions, typeMap := map[], map[];
    }

    method RestoreAll(grants: map<string, Handle>)
      modifies this
      ensures mock ==> Abs() == old(Abs())
      ensures !mock ==> Abs() == Restore(old(Abs()), grants)
      ensures queue == old(queue) && running == old(running)
    {
      if mock { return; }
      handles := map[];
      var todo := typeMap.Keys;
      while todo != {}
        invariant todo <= typeMap.Keys
        invariant subscriptions == old(subscriptions) && typeMap == old(typeMap)
        invariant queue == old(queue) && running == old(running)
        invariant handles == map v | v in Restore(old(Abs()), grants).handles && v !in todo :: grants[v]
        decreases todo
      {
        var v :| v in todo;
        if v in subscriptions && subscriptions[v] != [] && v in grants {
          handles := handles[v := grants[v]];
        }
        todo := todo - {v};
      }
    }

    /** What the pyads callback of a variable does: queue the value. */
    method Notify(v: string, value: bool)
      modifies this`queue
      ensures queue == old(queue) + [Event(v, value)]
    {
      queue := queue + [Event(v, value)];
    }

    /** One pass of the dispatch thread: drain the queue, snapshot the callbacks of each
        event, call them in order.  `calls` is the sequence of invocations made. */
    method Drain() returns (calls: seq<(C, Event)>)
      modifies this`queue
      ensures queue == []
      ensures calls == Deliveries(Abs(), old(queue))
    {
      calls := [];
      ghost var done: seq<Event> := [];
      while queue != []
        invariant done + queue == old(queue)
        invariant calls == Deliveries(Abs(), done)
        decreases |queue|
      {
        var e := queue[0];
        queue := queue[1..];
        var callbacks := if e.variable in subscriptions then subscriptions[e.variable] else [];
        var made := Invoke(e, callbacks);
        DeliveriesAppend(Abs(), done, e);
        calls, done := calls + made, done + [e];
      }
      assert done == old(queue);
    }

    method Invoke(e: Event, callbacks: seq<C>) returns (calls: seq<(C, Event)>)
      ensures calls == Calls(e, callbacks)
    {
      calls := [];
      for i := 0 to |callbacks|
        invariant calls == Calls(e, callbacks)[..i]
      {
        calls := calls + [(callbacks[i], e)];
      }
    }
  }
}
