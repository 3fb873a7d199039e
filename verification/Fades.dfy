/** Background fades of DALI channels: requests and fade threads interleave, a generation
    token per channel cancels the older fades.  One step is one lock section, one read or
    one brightness write. */
module Fades {
  import opened Common
  import opened FadePlan

  type Tid = nat
  type Channel = int

  datatype End = Completed | AlreadyThere | Cancelled | Failed

  /** `i` in Checking and Writing is the number of the write that comes next, from 1. */
  datatype Pc = Reading | Checking(i: nat) | Writing(i: nat) | Ended(how: End)

  /** `late` counts the writes made after a newer fade took the channel over. */
  datatype Fade = Fade(channel: Channel, gen: nat, target: int, duration: int,
                       pc: Pc, start: int, written: seq<int>, late: nat)

  datatype State = State(configured: set<Channel>, generation: map<Channel, nat>,
                         fades: map<Tid, Fade>, levels: map<Channel, int>)

  datatype Step =
    | Request(t: Tid, channel: Channel, target: int, duration: int)
    | ReadLevel(t: Tid, level: Option<int>)
    | Check(t: Tid)
    | Write(t: Tid, ok: bool)
    | Instant(channel: Channel, percent: int)

  function Gen(s: State, c: Channel): nat {
    if c in s.generation then s.generation[c] else 0
  }

  predicate Current(s: State, f: Fade) {
    f.gen == Gen(s, f.channel)
  }

  predicate Enabled(s: State, x: Step) {
    match x
    case Request(t, c, _, _) => t !in s.fades && c in s.configured
    case ReadLevel(t, _) => t in s.fades && s.fades[t].pc.Reading?
    case Check(t) => t in s.fades && s.fades[t].pc.Checking?
    case Write(t, _) => t in s.fades && s.fades[t].pc.Writing?
    case Instant(c, _) => c in s.configured
  }

  function ChannelOf(s: State, x: Step): Channel
    requires Enabled(s, x)
  {
    match x
    case Request(_, c, _, _) => c
    case Instant(c, _) => c
    case _ => s.fades[x.t].channel
  }

  function AfterRead(f: Fade, level: Option<int>): Fade {
    match level
    case None => f.(pc := Ended(Failed))
    case Some(l) => f.(pc := if l == f.target then Ended(AlreadyThere) else Checking(1), start := l)
  }

  /** The write numbered `f.pc.i`; a pause of negative length after it raises. */
  function AfterWrite(f: Fade, current: bool, ok: bool): Fade
    requires f.pc.Writing?
  {
    var i, n := f.pc.i, Steps(f.duration);
    if !ok then f.(pc := Ended(Failed))
    else
      f.(written := f.written + [Level(f.start, f.target, n, i)],
         late := f.late + (if current then 0 else 1),
         pc := if i >= n then Ended(Completed) else if f.duration < 0 then Ended(Failed) else Checking(i + 1))
  }

  function Next(s: State, x: Step): State {
    if !Enabled(s, x) then s
    else match x
      case Request(t, c, target, duration) =>
        s.(generation := s.generation[c := Gen(s, c) + 1],
           fades := s.fades[t := Fade(c, Gen(s, c) + 1, target, duration, Reading, 0, [], 0)])
      case ReadLevel(t, level) => s.(fades := s.fades[t := AfterRead(s.fades[t], level)])
      case Check(t) =>
        var f := s.fades[t];
        s.(fades := s.fades[t := f.(pc := if Current(s, f) then Writing(f.pc.i) else Ended(Cancelled))])
      case Write(t, ok) =>
        var f := s.fades[t];
        var level := Level(f.start, f.target, Steps(f.duration), f.pc.i);
        s.(fades := s.fades[t := AfterWrite(f, Current(s, f), ok)],
           levels := if ok then s.levels[f.channel := level] else s.levels)
      case Instant(c, percent) => s.(levels := s.levels[c := percent])
  }

  function Run(s: State, xs: seq<Step>): State
    decreases |xs|
  {
    if xs == [] then s else Run(Next(s, xs[0]), xs[1..])
  }

  // ---- What every interleaving keeps ----

  /** One fade by itself: what it wrote is the start of its plan, and where it stands says
      how far it got. */
  ghost predicate OnPlan(f: Fade) {
    var plan := Plan(f.start, f.target, f.duration);
    match f.pc
    case Reading => f.written == []
    case Checking(i) => 1 <= i <= |plan| && f.written == plan[..i - 1]
    case Writing(i) => 1 <= i <= |plan| && f.written == plan[..i - 1]
    case Ended(Completed) => f.written == plan && plan != []
    case Ended(AlreadyThere) => f.written == [] && f.start == f.target
    case Ended(_) => f.written == [] || f.written <= plan
  }

  /** A fade against its channel: it is not newer than the channel, only a superseded fade
      is cancelled or late, and a fade about to write has not been late before. */
  ghost predicate InPlace(s: State, f: Fade) {
    && 1 <= f.gen <= Gen(s, f.channel)
    && f.late <= 1
    && (f.late == 1 ==> f.gen < Gen(s, f.channel))
    && (f.pc == Ended(Cancelled) ==> f.gen < Gen(s, f.channel))
    && (f.pc.Writing? || f.pc.Reading? ==> f.late == 0)
  }

  ghost predicate Inv(s: State) {
    && (forall t :: t in s.fades ==> OnPlan(s.fades[t]) && InPlace(s, s.fades[t]))
    && (forall t, u :: t in s.fades && u in s.fades && t != u && s.fades[t].channel == s.fades[u].channel
         ==> s.fades[t].gen != s.fades[u].gen)
  }

  lemma WriteOnPlan(f: Fade, current: bool, ok: bool)
    requires f.pc.Writing? && OnPlan(f)
    ensures OnPlan(AfterWrite(f, current, ok))
  {
  }

  /** A thread's own step keeps the invariant if its fade stays on plan and in place. */
  lemma ThreadKeepsInv(s: State, s': State, t: Tid)
    requires Inv(s) && t in s.fades && s'.generation == s.generation
    requires t in s'.fades && s'.fades == s.fades[t := s'.fades[t]]
    requires s'.fades[t].channel == s.fades[t].channel && s'.fades[t].gen == s.fades[t].gen
    requires OnPlan(s'.fades[t]) && InPlace(s, s'.fades[t])
    ensures Inv(s')
  {
  }

  lemma RequestKeepsInv(s: State, x: Step)
    requires Inv(s) && x.Request? && Enabled(s, x)
    ensures Inv(Next(s, x))
  {
  }

  lemma StepKeepsInv(s: State, x: Step)
    requires Inv(s)
    ensures Inv(Next(s, x))
  {
    if Enabled(s, x) {
      match x {
        case Request(_, _, _, _) => RequestKeepsInv(s, x);
        case Instant(_, _) =>
          assert forall t :: t in s.fades ==>
            OnPlan(s.fades[t]) && InPlace(s, s.fades[t]) && InPlace(Next(s, x), s.fades[t]);
        case Write(t, ok) =>
          WriteOnPlan(s.fades[t], Current(s, s.fades[t]), ok);
          ThreadKeepsInv(s, Next(s, x), t);
        case _ => ThreadKeepsInv(s, Next(s, x), x.t);
      }
    }
  }

  lemma {:induction false} RunKeepsInv(s: State, xs: seq<Step>)
    requires Inv(s)
    ensures Inv(Run(s, xs))
    decreases |xs|
  {
    if xs != [] {
      StepKeepsInv(s, xs[0]);
      RunKeepsInv(Next(s, xs[0]), xs[1..]);
    }
  }

  /** In every interleaving, for every fade: at most one write after it was superseded; at
      most one fade of a channel is current; a fade only stops early when superseded or
      failed; and a fade that completes wrote its whole plan, down to its target. */
  lemma EveryInterleaving(s: State, xs: seq<Step>, t: Tid, u: Tid)
    requires Inv(s) && t in Run(s, xs).fades && u in Run(s, xs).fades
    ensures var s' := Run(s, xs);
            var f, g := s'.fades[t], s'.fades[u];
            && f.late <= 1
            && (Current(s', f) ==> f.late == 0)
            && (Current(s', f) && Current(s', g) && f.channel == g.channel ==> t == u)
            && (f.pc.Ended? && Current(s', f) ==> f.pc.how != Cancelled)
            && (f.pc == Ended(Completed) ==>
                 && f.written != [] && f.written == Plan(f.start, f.target, f.duration)
                 && f.written[|f.written| - 1] == f.target)
  {
    RunKeepsInv(s, xs);
    var f := Run(s, xs).fades[t];
    if f.pc == Ended(Completed) { PlanShape(f.start, f.target, f.duration); }
  }

  lemma SupersededStep(s: State, x: Step, t: Tid)
    requires Inv(s) && t in s.fades && !Current(s, s.fades[t]) && !s.fades[t].pc.Writing?
    ensures var s' := Next(s, x);
            && t in s'.fades && s'.fades[t].written == s.fades[t].written
            && !Current(s', s'.fades[t]) && !s'.fades[t].pc.Writing?
  {
  }

  /** Once superseded for good, a fade that is not between its check and its write never
      writes again, whatever happens on the channel. */
  lemma {:induction false} SupersededIsSilent(s: State, xs: seq<Step>, t: Tid)
    requires Inv(s) && t in s.fades && !Current(s, s.fades[t]) && !s.fades[t].pc.Writing?
    ensures t in Run(s, xs).fades && Run(s, xs).fades[t].written == s.fades[t].written
    decreases |xs|
  {
    if xs != [] {
      StepKeepsInv(s, xs[0]);
      SupersededStep(s, xs[0], t);
      SupersededIsSilent(Next(s, xs[0]), xs[1..], t);
    }
  }

  // ---- From a request to its target ----

  lemma {:induction false} RunConcat(s: State, xs: seq<Step>, ys: seq<Step>)
    ensures Run(s, xs + ys) == Run(Run(s, xs), ys)
    decreases |xs|
  {
    if xs == [] {
      assert xs + ys == ys;
    } else {
      assert (xs + ys)[1..] == xs[1..] + ys;
      RunConcat(Next(s, xs[0]), xs[1..], ys);
    }
  }

  /** A fade is for the channel, target and duration requested, and once it has read its start
      level, from that level. */
  ghost predicate SameRequest(f: Fade, g: Fade) {
    && f.channel == g.channel && f.gen == g.gen && f.target == g.target && f.duration == g.duration
    && (!f.pc.Reading? ==> !g.pc.Reading? && g.start == f.start)
  }

  lemma {:induction false} RunKeepsRequest(s: State, xs: seq<Step>, t: Tid)
    requires t in s.fades
    ensures t in Run(s, xs).fades && SameRequest(s.fades[t], Run(s, xs).fades[t])
    decreases |xs|
  {
    if xs != [] {
      assert t in Next(s, xs[0]).fades && SameRequest(s.fades[t], Next(s, xs[0]).fades[t]);
      RunKeepsRequest(Next(s, xs[0]), xs[1..], t);
    }
  }

  /** Every level lies between the two ends. */
  ghost predicate Between(levels: seq<int>, a: int, b: int) {
    forall i :: 0 <= i < |levels| ==> Min(a, b) <= levels[i] <= Max(a, b)
  }

  lemma WritesBetween(f: Fade)
    requires OnPlan(f)
    ensures Between(f.written, f.start, f.target)
  {
    if f.start != f.target { PlanShape(f.start, f.target, f.duration); }
  }

  lemma FadeFollowsRead(s: State, t: Tid, level: int, zs: seq<Step>)
    requires Inv(s) && t in s.fades && s.fades[t].pc.Reading?
    ensures var s', f := Run(s, [ReadLevel(t, Some(level))] + zs), s.fades[t];
            && t in s'.fades && SameRequest(f, s'.fades[t])
            && s'.fades[t].start == level && Between(s'.fades[t].written, level, f.target)
  {
    var s1 := Next(s, ReadLevel(t, Some(level)));
    assert ([ReadLevel(t, Some(level))] + zs)[1..] == zs;
    assert s1.fades[t] == AfterRead(s.fades[t], Some(level));
    StepKeepsInv(s, ReadLevel(t, Some(level)));
    RunKeepsInv(s1, zs);
    RunKeepsRequest(s1, zs, t);
    WritesBetween(Run(s1, zs).fades[t]);
  }

  /** In every interleaving: a fade is for what was requested, its start is the level its one
      read returned, and every write lies between that level and the requested target. */
  lemma FadeFollowsRequest(s: State, x: Step, ys: seq<Step>, level: int, zs: seq<Step>)
    requires Inv(s) && x.Request? && Enabled(s, x)
    requires var s1 := Run(Next(s, x), ys);
             x.t in s1.fades && s1.fades[x.t].pc.Reading?
    ensures var s' := Run(Next(s, x), ys + ([ReadLevel(x.t, Some(level))] + zs));
            && x.t in s'.fades
            && var f := s'.fades[x.t];
               && f.channel == x.channel && f.target == x.target && f.duration == x.duration && f.start == level
               && f.gen == Gen(s, x.channel) + 1
               && Between(f.written, level, x.target)
  {
    RunConcat(Next(s, x), ys, [ReadLevel(x.t, Some(level))] + zs);
    StepKeepsInv(s, x);
    RunKeepsInv(Next(s, x), ys);
    RunKeepsRequest(Next(s, x), ys, x.t);
    FadeFollowsRead(Run(Next(s, x), ys), x.t, level, zs);
  }

  /** `n` rounds of check and successful write. */
  ghost function Rounds(t: Tid, n: nat): seq<Step> {
    if n == 0 then [] else [Check(t)] + ([Write(t, true)] + Rounds(t, n - 1))
  }

  lemma OneRound(s: State, t: Tid, n: nat)
    requires n > 0
    ensures Run(s, Rounds(t, n)) == Run(Next(Next(s, Check(t)), Write(t, true)), Rounds(t, n - 1))
  {
    var rest := [Write(t, true)] + Rounds(t, n - 1);
    assert ([Check(t)] + rest)[1..] == rest && rest[1..] == Rounds(t, n - 1);
  }

  lemma {:induction false} RoundsComplete(s: State, t: Tid, n: nat)
    requires t in s.fades && Current(s, s.fades[t]) && s.fades[t].pc.Checking? && OnPlan(s.fades[t])
    requires s.fades[t].duration >= 0 && s.fades[t].start != s.fades[t].target
    requires n > 0 && s.fades[t].pc.i + n - 1 == Steps(s.fades[t].duration)
    ensures var s', f := Run(s, Rounds(t, n)), s.fades[t];
            && t in s'.fades && s'.fades[t].pc == Ended(Completed)
            && s'.fades[t].written == Plan(f.start, f.target, f.duration)
            && f.channel in s'.levels && s'.levels[f.channel] == f.target
    decreases n
  {
    var f := s.fades[t];
    var s1 := Next(s, Check(t));
    var s2 := Next(s1, Write(t, true));
    OneRound(s, t, n);
    WriteOnPlan(s1.fades[t], true, true);
    if n > 1 {
      RoundsComplete(s2, t, n - 1);
    } else {
      LevelEnds(f.start, f.target, Steps(f.duration));
      assert Rounds(t, 0) == [];
    }
  }

  /** A fade that nobody disturbs and whose calls all return writes its whole plan and leaves
      the channel on the target. */
  lemma FadeAlone(s: State, x: Step, level: int)
    requires Inv(s) && x.Request? && Enabled(s, x) && x.duration >= 0 && level != x.target
    ensures var s' := Run(Next(Next(s, x), ReadLevel(x.t, Some(level))), Rounds(x.t, Steps(x.duration)));
            && x.t in s'.fades && s'.fades[x.t].pc == Ended(Completed)
            && s'.fades[x.t].written == Plan(level, x.target, x.duration)
            && x.channel in s'.levels && s'.levels[x.channel] == x.target
  {
    RoundsComplete(Next(Next(s, x), ReadLevel(x.t, Some(level))), x.t, Steps(x.duration));
  }

  // ---- What a channel shows ----

  /** The level the last write to channel `c` set during a run, be it a fade's or an instant one. */
  ghost function LastLevel(s: State, xs: seq<Step>, c: Channel): Option<int>
    decreases |xs|
  {
    if xs == [] then None
    else
      var later := LastLevel(Next(s, xs[0]), xs[1..], c);
      if later.Some? then later
      else match xs[0]
        case Instant(d, percent) => if d == c && c in s.configured then Some(percent) else None
        case Write(t, true) =>
          if t in s.fades && s.fades[t].pc.Writing? && s.fades[t].channel == c then
            var written := Next(s, xs[0]).fades[t].written;
            if written == [] then None else Some(written[|written| - 1])
          else None
        case _ => None
  }

  /** In every interleaving a channel shows what was last written to it, whoever wrote it. */
  lemma {:induction false} ChannelShowsLastWrite(s: State, xs: seq<Step>, c: Channel)
    ensures var levels, last := Run(s, xs).levels, LastLevel(s, xs, c);
            && (last.Some? ==> c in levels && levels[c] == last.value)
            && (last.None? ==> (c in levels <==> c in s.levels) && (c in levels ==> levels[c] == s.levels[c]))
    decreases |xs|
  {
    if xs != [] { ChannelShowsLastWrite(Next(s, xs[0]), xs[1..], c); }
  }

  // ---- Generations ----

  ghost function Requests(s: State, xs: seq<Step>, c: Channel): nat
    decreases |xs|
  {
    if xs == [] then 0
    else
      var now := if xs[0].Request? && Enabled(s, xs[0]) && xs[0].channel == c then 1 else 0;
      now + Requests(Next(s, xs[0]), xs[1..], c)
  }

  /** The token of a channel counts the fades started on it, and nothing else moves it. */
  lemma {:induction false} GenerationCounts(s: State, xs: seq<Step>, c: Channel)
    ensures Gen(Run(s, xs), c) == Gen(s, c) + Requests(s, xs, c)
    decreases |xs|
  {
    if xs != [] { GenerationCounts(Next(s, xs[0]), xs[1..], c); }
  }

  // ---- Channels do not affect each other ----

  ghost function FadesOn(fades: map<Tid, Fade>, c: Channel): map<Tid, Fade> {
    map t | t in fades && fades[t].channel == c :: fades[t]
  }

  /** The part of the state one channel can see. */
  ghost function Restrict(s: State, c: Channel): State {
    State(s.configured,
          map d | d in s.generation && d == c :: s.generation[d],
          FadesOn(s.fades, c),
          map d | d in s.levels && d == c :: s.levels[d])
  }

  /** The steps of a run that belong to channel `c`. */
  ghost function Relevant(s: State, xs: seq<Step>, c: Channel): seq<Step>
    decreases |xs|
  {
    if xs == [] then []
    else (if Enabled(s, xs[0]) && ChannelOf(s, xs[0]) == c then [xs[0]] else []) + Relevant(Next(s, xs[0]), xs[1..], c)
  }

  lemma StepOtherChannel(s: State, x: Step, c: Channel)
    requires Enabled(s, x) ==> ChannelOf(s, x) != c
    ensures Restrict(Next(s, x), c) == Restrict(s, c)
  {
  }

  lemma FadesOnUpdate(fades: map<Tid, Fade>, c: Channel, t: Tid, f: Fade)
    requires f.channel == c
    ensures FadesOn(fades[t := f], c) == FadesOn(fades, c)[t := f]
  {
  }

  lemma SameChannelView(s: State, x: Step, c: Channel)
    requires Enabled(s, x) && ChannelOf(s, x) == c
    ensures Enabled(Restrict(s, c), x) && Gen(Restrict(s, c), c) == Gen(s, c)
    ensures !x.Request? && !x.Instant? ==> Restrict(s, c).fades[x.t] == s.fades[x.t]
  {
  }

  lemma SameChannelFades(s: State, x: Step, c: Channel)
    requires Enabled(s, x) && ChannelOf(s, x) == c
    ensures Restrict(Next(s, x), c).fades == Next(Restrict(s, c), x).fades
  {
    SameChannelView(s, x, c);
    if !x.Instant? { FadesOnUpdate(s.fades, c, x.t, Next(s, x).fades[x.t]); }
  }

  lemma StepSameChannel(s: State, x: Step, c: Channel)
    requires Enabled(s, x) && ChannelOf(s, x) == c
    ensures Restrict(Next(s, x), c) == Next(Restrict(s, c), x)
  {
    var r := Restrict(s, c);
    SameChannelView(s, x, c);
    SameChannelFades(s, x, c);
    assert Restrict(Next(s, x), c).generation == Next(r, x).generation;
    assert Restrict(Next(s, x), c).levels == Next(r, x).levels;
  }

  /** Everything that happens on other channels can be left out: a channel ends in the state
      its own steps alone lead to. */
  lemma {:induction false} ChannelsAreIndependent(s: State, xs: seq<Step>, c: Channel)
    ensures Restrict(Run(s, xs), c) == Run(Restrict(s, c), Relevant(s, xs, c))
    decreases |xs|
  {
    if xs != [] {
      var s1, rest := Next(s, xs[0]), Relevant(Next(s, xs[0]), xs[1..], c);
      ChannelsAreIndependent(s1, xs[1..], c);
      if Enabled(s, xs[0]) && ChannelOf(s, xs[0]) == c {
        StepSameChannel(s, xs[0], c);
        assert ([xs[0]] + rest)[1..] == rest;
      } else {
        StepOtherChannel(s, xs[0], c);
        assert [] + rest == rest;
      }
    }
  }

  // ---- The object ----

  class DaliFader {
    const configured: set<Channel>
    var fadeGeneration: map<Channel, nat>
    var threads: map<Tid, Fade>
    var levels: map<Channel, int>

    ghost function Abs(): State
      reads this
    {
      State(configured, fadeGeneration, threads, levels)
    }

    constructor (channels: set<Channel>)
      ensures Abs() == State(channels, map[], map[], map[]) && Inv(Abs())
    {
      configured := channels;
      fadeGeneration, threads, levels := map[], map[], map[];
    }

    /** fade_dali; `t` names the thread that is started. */
    method FadeDali(t: Tid, channel: Channel, target: int, duration: int) returns (started: bool)
      requires t !in threads
      modifies this
      ensures started <==> channel in configured
      ensures Abs() == Next(old(Abs()), Request(t, channel, target, duration))
    {
      if channel !in configured { return false; }
      var was := if channel in fadeGeneration then fadeGeneration[channel] else 0;
      fadeGeneration := fadeGeneration[channel := was + 1];
      threads := threads[t := Fade(channel, fadeGeneration[channel], target, duration, Reading, 0, [], 0)];
      return true;
    }

    method ShouldContinue(t: Tid) returns (go: bool)
      requires t in threads
      ensures go <==> Current(Abs(), threads[t])
    {
      var f := threads[t];
      go := (if f.channel in fadeGeneration then fadeGeneration[f.channel] else 0) == f.gen;
    }

    /** The next action of thread `t` inside fade_to. */
    method Advance(t: Tid, level: Option<int>, ok: bool)
      requires t in threads && !threads[t].pc.Ended?
      modifies this
      ensures Abs() == Next(old(Abs()), match old(threads[t].pc)
                                        case Reading => ReadLevel(t, level)
                                        case Checking(_) => Check(t)
                                        case _ => Write(t, ok))
    {
      var f := threads[t];
      match f.pc {
        case Reading =>
          threads := threads[t := AfterRead(f, level)];
        case Checking(i) =>
          var go := ShouldContinue(t);
          threads := threads[t := f.(pc := if go then Writing(i) else Ended(Cancelled))];
        case Writing(i) =>
          var go := ShouldContinue(t);
          if ok { levels := levels[f.channel := Level(f.start, f.target, Steps(f.duration), i)]; }
          threads := threads[t := AfterWrite(f, go, ok)];
      }
    }
  }
}
