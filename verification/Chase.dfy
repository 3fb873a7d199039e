/** The light chase: the start/stop/self-remove registry of shows, one per apartment, under
    every interleaving, and the back-and-forth pattern one show plays. */
module Chase {
  import opened Common

  type Apartment = int
  /** The identity of a stop event, and of the thread that was given it. */
  type Ev = nat

  /** A show that has not finished: registered but its thread not started yet, in its loop,
      or past its loop and about to take the lock in its finally block. */
  datatype Pc = Launching | Running | Leaving
  datatype Show = Show(apartment: Apartment, pc: Pc)

  /** `inFlight` holds the events a stop call has popped and not set yet. */
  datatype State = State(active: map<Apartment, Ev>, signalled: set<Ev>, inFlight: set<Ev>,
                         shows: map<Ev, Show>, nextEv: Ev)

  datatype Step =
    | Start(apartment: Apartment)
    | Spawn(e: Ev)
    | StopPop(apartment: Apartment)
    | StopSet(e: Ev)
    | Observe(e: Ev, giveUp: bool)
    | Exit(e: Ev)

  predicate Registered(s: State, e: Ev) {
    e in s.shows && s.shows[e].apartment in s.active && s.active[s.shows[e].apartment] == e
  }

  /** Steps that are not enabled change nothing.  `giveUp` stands for a cleared database
      flag, an apartment without devices, or an exception in the loop. */
  function Next(s: State, x: Step): State {
    match x
    case Start(a) =>
      if a in s.active then s
      else
        s.(active := s.active[a := s.nextEv],
           shows := s.shows[s.nextEv := Show(a, Launching)],
           nextEv := s.nextEv + 1)
    case Spawn(e) =>
      if e in s.shows && s.shows[e].pc == Launching then s.(shows := s.shows[e := s.shows[e].(pc := Running)]) else s
    case StopPop(a) =>
      if a in s.active then s.(active := s.active - {a}, inFlight := s.inFlight + {s.active[a]}) else s
    case StopSet(e) =>
      if e in s.inFlight then s.(inFlight := s.inFlight - {e}, signalled := s.signalled + {e}) else s
    case Observe(e, giveUp) =>
      if e in s.shows && s.shows[e].pc == Running && (e in s.signalled || giveUp) then
        s.(shows := s.shows[e := s.shows[e].(pc := Leaving)])
      else s
    case Exit(e) =>
      if e in s.shows && s.shows[e].pc == Leaving then
        s.(active := if Registered(s, e) then s.active - {s.shows[e].apartment} else s.active, shows := s.shows - {e})
      else s
  }

  function Run(s: State, xs: seq<Step>): State
    decreases |xs|
  {
    if xs == [] then s else Run(Next(s, xs[0]), xs[1..])
  }

  const IDLE := State(map[], {}, {}, map[], 0)

  ghost predicate Inv(s: State) {
    && (forall a :: a in s.active ==> s.active[a] in s.shows && s.shows[s.active[a]].apartment == a)
    && (forall e :: e in s.shows && !Registered(s, e) ==> e in s.signalled || e in s.inFlight)
    && (forall e :: e in s.signalled || e in s.inFlight ==> !Registered(s, e) && e < s.nextEv)
    && (forall e :: e in s.shows ==> e < s.nextEv)
  }

  lemma StepKeepsInv(s: State, x: Step)
    requires Inv(s)
    ensures Inv(Next(s, x))
  {
  }

  lemma {:induction false} RunKeepsInv(s: State, xs: seq<Step>)
    requires Inv(s)
    ensures Inv(Run(s, xs))
    decreases |xs|
  {
    if xs != [] {
      StepKeepsInv(s, xs[0]);
      RunKeepsInv(Next(s, xs[0]), xs[1..]);
    }
  }

  /** No apartment has two unfinished shows that nobody signalled. */
  ghost predicate AtMostOneEach(s: State) {
    forall e, f | e in s.shows && f in s.shows && e !in s.signalled && f !in s.signalled ::
      s.shows[e].apartment == s.shows[f].apartment ==> e == f
  }

  /** In every interleaving: a registered entry belongs to an unfinished show of that
      apartment which nobody has signalled; an unfinished show that is not registered has
      been signalled or its stop call is still between pop and set; and once no stop call
      is in flight, an apartment has at most one show that nobody signalled. */
  lemma EveryInterleaving(xs: seq<Step>)
    ensures var s := Run(IDLE, xs);
            && (forall a :: a in s.active ==>
                 s.active[a] in s.shows && s.shows[s.active[a]].apartment == a && s.active[a] !in s.signalled)
            && (forall e :: e in s.shows && !Registered(s, e) ==> e in s.signalled || e in s.inFlight)
            && (s.inFlight == {} ==> AtMostOneEach(s))
  {
    RunKeepsInv(IDLE, xs);
    var s := Run(IDLE, xs);
    forall a | a in s.active ensures s.active[a] !in s.signalled {
      assert Registered(s, s.active[a]);
    }
    forall e, f | s.inFlight == {} && e in s.shows && f in s.shows && e !in s.signalled && f !in s.signalled
      && s.shows[e].apartment == s.shows[f].apartment
      ensures e == f
    {
      assert Registered(s, e) && Registered(s, f);
    }
  }

  /** A finishing thread takes out its own entry if it is still there and nothing else: a
      show registered since then, in the same apartment or another, stays registered. */
  lemma ExitSparesOthers(s: State, e: Ev, f: Ev)
    requires Inv(s) && e != f
    ensures Registered(s, f) <==> Registered(Next(s, Exit(e)), f)
    ensures !Registered(Next(s, Exit(e)), e) || Next(s, Exit(e)) == s
  {
  }

  /** A stop signal is never taken back. */
  lemma {:induction false} SignalStays(s: State, xs: seq<Step>, e: Ev)
    requires e in s.signalled
    ensures e in Run(s, xs).signalled
    decreases |xs|
  {
    if xs != [] { SignalStays(Next(s, xs[0]), xs[1..], e); }
  }

  /** A show that left its loop does not come back into it. */
  ghost predicate OutOfLoop(s: State, e: Ev) {
    e < s.nextEv && (e in s.shows ==> s.shows[e].pc == Leaving)
  }

  lemma {:induction false} StaysOut(s: State, xs: seq<Step>, e: Ev)
    requires OutOfLoop(s, e)
    ensures OutOfLoop(Run(s, xs), e)
    decreases |xs|
  {
    if xs != [] { StaysOut(Next(s, xs[0]), xs[1..], e); }
  }

  /** In every interleaving, a signalled show that is in its loop and looks once more is out
      of the loop for good, whatever else happened before that look and after it. */
  lemma {:induction false} SignalledShowEnds(s: State, xs: seq<Step>, e: Ev, i: nat)
    requires Inv(s) && e in s.signalled && e in s.shows && s.shows[e].pc != Launching
    requires i < |xs| && xs[i].Observe? && xs[i].e == e
    ensures OutOfLoop(Run(s, xs), e)
    decreases |xs|
  {
    StepKeepsInv(s, xs[0]);
    var s1 := Next(s, xs[0]);
    if i == 0 || OutOfLoop(s1, e) {
      StaysOut(s1, xs[1..], e);
    } else {
      SignalledShowEnds(s1, xs[1..], e, i - 1);
    }
  }

  lemma RunFirst(s: State, x: Step, xs: seq<Step>)
    ensures Run(s, [x] + xs) == Run(Next(s, x), xs)
  {
    assert ([x] + xs)[1..] == xs;
  }

  /** The life of one show, from any state of the other apartments: started and then stopped
      it leaves everything as it was but for its own signal, and so does a show that gives up
      by itself, without the signal. */
  lemma StartToEnd(s: State, a: Apartment)
    requires Inv(s) && a !in s.active
    ensures var e := s.nextEv;
            && Run(s, [Start(a)] + ([Spawn(e)] + ([StopPop(a)] + ([StopSet(e)] + ([Observe(e, false)] + [Exit(e)])))))
               == s.(signalled := s.signalled + {e}, nextEv := e + 1)
            && Run(s, [Start(a)] + ([Spawn(e)] + ([Observe(e, true)] + [Exit(e)]))) == s.(nextEv := e + 1)
  {
    var e := s.nextEv;
    var s1 := Next(Next(s, Start(a)), Spawn(e));
    assert e !in s.shows && e !in s.inFlight;
    assert s1 == s.(active := s.active[a := e], shows := s.shows[e := Show(a, Running)], nextEv := e + 1);
    RunFirst(s, Start(a), [Spawn(e)] + ([Observe(e, true)] + [Exit(e)]));
    RunFirst(Next(s, Start(a)), Spawn(e), [Observe(e, true)] + [Exit(e)]);
    GivesUp(s, s1, a);
    RunFirst(s, Start(a), [Spawn(e)] + ([StopPop(a)] + ([StopSet(e)] + ([Observe(e, false)] + [Exit(e)]))));
    RunFirst(Next(s, Start(a)), Spawn(e), [StopPop(a)] + ([StopSet(e)] + ([Observe(e, false)] + [Exit(e)])));
    IsStopped(s, s1, a);
  }

  lemma GivesUp(s: State, s1: State, a: Apartment)
    requires a !in s.active && s.nextEv !in s.shows
    requires s1 == s.(active := s.active[a := s.nextEv], shows := s.shows[s.nextEv := Show(a, Running)],
                      nextEv := s.nextEv + 1)
    ensures Run(s1, [Observe(s.nextEv, true)] + [Exit(s.nextEv)]) == s.(nextEv := s.nextEv + 1)
  {
    var e := s.nextEv;
    var s2 := Next(s1, Observe(e, true));
    RunFirst(s1, Observe(e, true), [Exit(e)]);
    RunFirst(s2, Exit(e), []);
    assert [Exit(e)] + [] == [Exit(e)];
    assert Next(s2, Exit(e)).active == s.active && Next(s2, Exit(e)).shows == s.shows;
  }

  lemma IsStopped(s: State, s1: State, a: Apartment)
    requires a !in s.active && s.nextEv !in s.shows && s.nextEv !in s.inFlight
    requires s1 == s.(active := s.active[a := s.nextEv], shows := s.shows[s.nextEv := Show(a, Running)],
                      nextEv := s.nextEv + 1)
    ensures var e := s.nextEv;
            Run(s1, [StopPop(a)] + ([StopSet(e)] + ([Observe(e, false)] + [Exit(e)])))
            == s.(signalled := s.signalled + {e}, nextEv := e + 1)
  {
    var e := s.nextEv;
    var s2 := Next(s1, StopPop(a));
    var s3 := Next(s2, StopSet(e));
    var s4 := Next(s3, Observe(e, false));
    RunFirst(s1, StopPop(a), [StopSet(e)] + ([Observe(e, false)] + [Exit(e)]));
    RunFirst(s2, StopSet(e), [Observe(e, false)] + [Exit(e)]);
    RunFirst(s3, Observe(e, false), [Exit(e)]);
    RunFirst(s4, Exit(e), []);
    assert [Exit(e)] + [] == [Exit(e)];
    assert s3.active == s.active && s3.inFlight == s.inFlight;
    assert Next(s4, Exit(e)).shows == s.shows;
  }

  // ---- The registry object ----

  class ShowRegistry {
    var active: map<Apartment, Ev>
    var signalled: set<Ev>
    var inFlight: set<Ev>
    var shows: map<Ev, Show>
    var nextEv: Ev

    ghost function Abs(): State
      reads this
    {
      State(active, signalled, inFlight, shows, nextEv)
    }

    constructor ()
      ensures Abs() == IDLE
    {
      active, signalled, inFlight, shows, nextEv := map[], {}, {}, map[], 0;
    }

    /** start_christmas_chase up to the start of its thread. */
    method StartChase(a: Apartment) returns (started: bool)
      modifies this
      ensures Abs() == Next(old(Abs()), Start(a)) && (started <==> a !in old(active))
    {
      if a in active { return false; }
      active, shows, nextEv := active[a := nextEv], shows[nextEv := Show(a, Launching)], nextEv + 1;
      return true;
    }

    /** The locked half of stop_christmas_chase; None: the caller turns everything off. */
    method PopStop(a: Apartment) returns (e: Option<Ev>)
      modifies this
      ensures Abs() == Next(old(Abs()), StopPop(a))
      ensures e == if a in old(active) then Some(old(active)[a]) else None
    {
      if a !in active { return None; }
      e := Some(active[a]);
      inFlight, active := inFlight + {active[a]}, active - {a};
    }

    method SetStop(e: Ev)
      requires e in inFlight
      modifies this
      ensures Abs() == Next(old(Abs()), StopSet(e))
    {
      inFlight, signalled := inFlight - {e}, signalled + {e};
    }

    /** A stop call that nothing interrupts: the show it found is signalled and unregistered. */
    method StopChase(a: Apartment) returns (stopped: bool)
      modifies this
      ensures stopped <==> a in old(active)
      ensures stopped ==> a !in active && signalled == old(signalled) + {old(active)[a]}
      ensures !stopped ==> Abs() == old(Abs())
    {
      var e := PopStop(a);
      if e == None { return false; }
      SetStop(e.value);
      return true;
    }

    /** The finally block of the thread that holds `e`. */
    method Finish(e: Ev)
      requires e in shows && shows[e].pc == Leaving
      modifies this
      ensures Abs() == Next(old(Abs()), Exit(e))
    {
      var a := shows[e].apartment;
      if a in active && active[a] == e { active := active - {a}; }
      shows := shows - {e};
    }
  }

  // ---- The pattern ----

  /** The order in which the lights are lit: up to the last one and back, ends once each. */
  function Order(n: nat): (r: seq<nat>)
    requires n > 0
    ensures |r| == if n > 1 then 2 * n - 2 else 1
  {
    if n > 1 then seq(n, i => i) + seq(n - 2, i requires 0 <= i < n - 2 => n - 2 - i) else [0]
  }

  function Lit(n: nat, step: nat): nat
    requires n > 0
  {
    Order(n)[step % |Order(n)|]
  }

  lemma NextPhase(step: nat, m: nat)
    requires m > 0
    ensures (step + 1) % m == if step % m == m - 1 then 0 else step % m + 1
  {
    var q, r := step / m, step % m;
    if r == m - 1 {
      assert step + 1 == (q + 1) * m;
      ModOf(q + 1, 0, m);
    } else {
      assert step + 1 == q * m + (r + 1);
      ModOf(q, r + 1, m);
    }
  }

  lemma ModOf(q: int, r: int, m: int)
    requires 0 <= r < m
    ensures (q * m + r) % m == r
  {
    var x := q * m + r;
    var p, t := x / m, x % m;
    assert m * (q - p) == t - r;
    MulOrder(m, 1, q - p);
    MulOrder(m, q - p, -1);
  }

  /** With two lights or more every step moves to a neighbouring light; a single light
      stays lit. */
  lemma Bounces(n: nat, step: nat)
    requires n > 0
    ensures Lit(n, step) < n
    ensures n > 1 ==> Lit(n, step + 1) == Lit(n, step) + 1 || Lit(n, step + 1) == Lit(n, step) - 1
    ensures n == 1 ==> Lit(n, step) == 0
  {
    NextPhase(step, |Order(n)|);
  }

  /** A show begins with the first light and goes up to the last one. */
  lemma BeginsUpwards(n: nat, step: nat)
    requires step < n
    ensures Lit(n, step) == step
  {
    var m := |Order(n)|;
    assert step < m;
    ModOf(0, step, m);
  }

  /** Every light is lit within each full period, whenever one starts to watch. */
  lemma VisitsEveryLight(n: nat, from: nat, light: nat) returns (k: nat)
    requires light < n
    ensures from <= k < from + |Order(n)| && Lit(n, k) == light
  {
    var m := |Order(n)|;
    var gap := (light - from) % m;
    k := from + gap;
    var q := (light - from) / m;
    assert light - from == q * m + gap;
    assert k == (-q) * m + light;
    ModOf(-q, light, m);
  }

  // ---- The writes of a show ----

  /** The outputs after one sweep of writes, of which those with `ok[i]` go through. */
  ghost function Swept(outs: seq<bool>, lit: int, ok: seq<bool>): seq<bool>
    requires |ok| == |outs|
  {
    seq(|outs|, i requires 0 <= i < |outs| => if ok[i] then i == lit else outs[i])
  }

  /** One sweep writes every device once: on for the lit one, off for the others.  With
      `lit == -1` it is the all-off sweep. */
  method Sweep(outs: array<bool>, lit: int, ok: seq<bool>)
    requires |ok| == outs.Length
    modifies outs
    ensures outs[..] == Swept(old(outs[..]), lit, ok)
  {
    for i := 0 to outs.Length
      invariant forall j :: 0 <= j < i ==> outs[j] == if ok[j] then j == lit else old(outs[j])
      invariant forall j :: i <= j < outs.Length ==> outs[j] == old(outs[j])
    {
      if ok[i] { outs[i] := i == lit; }
    }
  }

  /** What one turn of the loop finds: the stop event, the database flag, and which writes
      go through. */
  datatype Turn = Turn(stop: bool, flag: bool, ok: seq<bool>)

  const FLAG_CHECK_EVERY := 10

  ghost predicate OnlyLit(frame: seq<bool>, lit: int) {
    forall i :: 0 <= i < |frame| ==> (frame[i] <==> i == lit)
  }

  /** One show, from its first turn to its last all-off sweep.  It makes sweeps up to the
      first turn that finds the stop event set, or at a positive multiple of ten the flag
      cleared, and no further.  `frames[k]` is what the outputs show after sweep `k`: just the
      pattern's light, when its writes go through.  Whatever happened before, the show ends
      dark when the last writes go through. */
  method RunChase(outs: array<bool>, turns: seq<Turn>, off: seq<bool>) returns (frames: seq<seq<bool>>)
    requires |off| == outs.Length && forall i :: 0 <= i < |turns| ==> |turns[i].ok| == outs.Length
    modifies outs
    ensures |frames| <= |turns| && (outs.Length == 0 ==> frames == [])
    ensures forall k :: 0 <= k < |frames| ==> !turns[k].stop && (k > 0 && k % 10 == 0 ==> turns[k].flag)
    ensures outs.Length > 0 && |frames| < |turns| ==>
              var last := turns[|frames|];
              last.stop || (|frames| > 0 && |frames| % 10 == 0 && !last.flag)
    ensures forall k :: 0 <= k < |frames| ==> |frames[k]| == outs.Length
    ensures forall k :: 0 <= k < |frames| && (forall i :: 0 <= i < outs.Length ==> turns[k].ok[i])
              ==> OnlyLit(frames[k], Lit(outs.Length, k))
    ensures forall i :: 0 <= i < outs.Length && off[i] ==> !outs[i]
  {
    frames := [];
    var n := outs.Length;
    if n > 0 {
      var step := 0;
      while step < |turns| && !turns[step].stop
        invariant 0 <= step <= |turns| && |frames| == step
        invariant forall k :: 0 <= k < step ==> !turns[k].stop && (k > 0 && k % 10 == 0 ==> turns[k].flag)
        invariant forall k :: 0 <= k < step ==> |frames[k]| == n
        invariant forall k :: 0 <= k < step && (forall i :: 0 <= i < n ==> turns[k].ok[i])
                    ==> OnlyLit(frames[k], Lit(n, k))
        decreases |turns| - step
      {
        if step > 0 && step % FLAG_CHECK_EVERY == 0 && !turns[step].flag { break; }
        Sweep(outs, Lit(n, step), turns[step].ok);
        frames := frames + [outs[..]];
        step := step + 1;
      }
    }
    Sweep(outs, -1, off);
    assert forall i :: 0 <= i < n ==> outs[i] == outs[..][i];
  }
}
