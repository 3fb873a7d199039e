/** Outage alerting: a periodic check per apartment that remembers since when its PLC has
    been unreachable, and the alerts it sends over any sequence of checks.  Times are in
    seconds. */
module Heartbeat {
  import opened Common

  datatype Reach = Up | Down | CheckFailed

  /** Whether the save or the send of a check raises. */
  datatype Io = Fine | SaveFails | SendFails
  datatype Tick = Tick(now: real, reach: Reach, io: Io)
  datatype Device = Device(downSince: Option<real>, lastSeen: Option<real>)
  datatype Alert = Offline(since: real, at: real) | Recovered(since: real, at: real)

  const OUTAGE_ALERT_THRESHOLD := 120.0
  const ALERT_BAND := 60.0

  function After(d: Device, t: Tick): Device {
    match t.reach
    case CheckFailed => d
    case Up => Device(None, Some(t.now))
    case Down => if d.downSince.None? then d.(downSince := Some(t.now)) else d
  }

  function Alerts(d: Device, t: Tick): seq<Alert> {
    if d.downSince.None? || t.reach.CheckFailed? then []
    else
      var since := d.downSince.value;
      var outage := t.now - since;
      if t.reach.Up? then
        if outage >= OUTAGE_ALERT_THRESHOLD then [Recovered(since, t.now)] else []
      else
        if OUTAGE_ALERT_THRESHOLD <= outage < OUTAGE_ALERT_THRESHOLD + ALERT_BAND then [Offline(since, t.now)] else []
  }

  /** The check as it takes effect: when the save raises, nothing was changed or sent.  A
      check of an open outage that finds it still open saves nothing. */
  function Effective(d: Device, t: Tick): Tick {
    if t.io.SaveFails? && (t.reach.Up? || d.downSince.None?) then t.(reach := CheckFailed) else t
  }

  /** Whether the check raises and ends the task's loop over the apartments. */
  predicate Aborts(d: Device, t: Tick) {
    || (t.io.SaveFails? && !t.reach.CheckFailed? && (t.reach.Up? || d.downSince.None?))
    || (t.io.SendFails? && Alerts(d, t) != [])
  }

  // ---- Runs of one apartment ----

  /** A device with the alerts sent off for it, which of those sends returned, the outages
      that ended (start and end as measured), and the time of the last check that took
      effect. */
  datatype History = History(device: Device, log: seq<Alert>, delivered: seq<bool>,
                             ended: seq<(real, real)>, last: Option<real>)

  function Next(h: History, t: Tick): History {
    var u := Effective(h.device, t);
    if u.reach.CheckFailed? then h
    else
      var alerts := Alerts(h.device, u);
      var closes := u.reach.Up? && h.device.downSince.Some?;
      History(After(h.device, u),
              h.log + alerts,
              h.delivered + if alerts == [] then [] else [!t.io.SendFails?],
              if closes then h.ended + [(h.device.downSince.value, t.now)] else h.ended,
              Some(t.now))
  }

  function Run(h: History, ts: seq<Tick>): History
    decreases |ts|
  {
    if ts == [] then h else Run(Next(h, ts[0]), ts[1..])
  }

  const FRESH := History(Device(None, None), [], [], [], None)

  /** Checks that take effect are at least `lo` apart and at most `hi`, where given. */
  ghost predicate Spaced(h: History, ts: seq<Tick>, lo: real, hi: Option<real>)
    decreases |ts|
  {
    ts == [] || (GapWithin(h, ts[0], lo, hi) && Spaced(Next(h, ts[0]), ts[1..], lo, hi))
  }

  ghost predicate GapWithin(h: History, t: Tick, lo: real, hi: Option<real>) {
    !Effective(h.device, t).reach.CheckFailed? && h.last.Some? ==>
      h.last.value + lo <= t.now && (hi.Some? ==> t.now <= h.last.value + hi.value)
  }

  // ---- Recovery ----

  /** The open outage began no later than the last check; every alert is older than the last check, and
      every recovery older than the outage now open. */
  ghost predicate Timely(h: History) {
    && (h.device.downSince.Some? ==> h.last.Some? && h.device.downSince.value <= h.last.value)
    && (forall i :: 0 <= i < |h.log| ==>
         h.last.Some? && h.log[i].since + OUTAGE_ALERT_THRESHOLD <= h.log[i].at <= h.last.value)
    && (h.device.downSince.Some? ==>
         forall i :: 0 <= i < |h.log| && h.log[i].Recovered? ==> h.log[i].at <= h.device.downSince.value)
    && |h.delivered| == |h.log|
  }

  ghost predicate RecoveryExact(h: History) {
    forall s, e :: Recovered(s, e) in h.log <==> (s, e) in h.ended && e - s >= OUTAGE_ALERT_THRESHOLD
  }

  ghost predicate OfflineFollowed(h: History) {
    forall s, a :: Offline(s, a) in h.log ==>
      h.device.downSince == Some(s) || exists e :: Recovered(s, e) in h.log && a <= e
  }

  /** No recovery was sent off twice, so `delivered` says of each whether it arrived. */
  ghost predicate RecoveredOnce(h: History) {
    forall i, j :: 0 <= i < j < |h.log| && h.log[i].Recovered? && h.log[j].Recovered? ==>
      h.log[i].since != h.log[j].since
  }

  lemma StepTimely(h: History, t: Tick)
    requires Timely(h) && GapWithin(h, t, 0.0, None)
    ensures Timely(Next(h, t))
  {
  }

  lemma StepRecovery(h: History, t: Tick)
    requires Timely(h) && RecoveryExact(h) && OfflineFollowed(h) && RecoveredOnce(h) && GapWithin(h, t, 0.0, None)
    ensures RecoveryExact(Next(h, t)) && OfflineFollowed(Next(h, t)) && RecoveredOnce(Next(h, t))
  {
  }

  /** Over every sequence of checks on a clock that does not run back, with saves and sends
      that may raise: a recovery alert is sent off for an outage exactly when it measured the
      threshold or more, and once; and every offline alert is followed by the recovery alert
      of its outage unless that outage is open. */
  lemma {:induction false} EveryOutageRecovers(h: History, ts: seq<Tick>)
    requires Timely(h) && RecoveryExact(h) && OfflineFollowed(h) && RecoveredOnce(h) && Spaced(h, ts, 0.0, None)
    ensures RecoveryExact(Run(h, ts)) && OfflineFollowed(Run(h, ts)) && RecoveredOnce(Run(h, ts))
    decreases |ts|
  {
    if ts != [] {
      StepTimely(h, ts[0]);
      StepRecovery(h, ts[0]);
      EveryOutageRecovers(Next(h, ts[0]), ts[1..]);
    }
  }

  /** The checks of a run that sent an alert off, in order. */
  ghost function Senders(h: History, ts: seq<Tick>): (r: seq<Tick>)
    ensures forall t :: t in r ==> t in ts
    decreases |ts|
  {
    if ts == [] then []
    else
      var t := ts[0];
      (if Alerts(h.device, Effective(h.device, t)) == [] then [] else [t]) + Senders(Next(h, t), ts[1..])
  }

  /** Alert `n` was sent off by the check `t`, and arrived if the send did not raise. */
  ghost predicate SentBy(h: History, n: nat, t: Tick) {
    n < |h.log| == |h.delivered| && h.log[n].at == t.now && (h.delivered[n] <==> !t.io.SendFails?)
  }

  lemma StepDelivered(h: History, t: Tick)
    requires |h.delivered| == |h.log|
    ensures var h', n := Next(h, t), |h.log|;
            && |h'.delivered| == |h'.log| && h.log <= h'.log && h.delivered <= h'.delivered
            && |h'.log| == n + (if Alerts(h.device, Effective(h.device, t)) == [] then 0 else 1)
            && (|h'.log| > n ==> SentBy(h', n, t))
  {
  }

  lemma FirstSender(h: History, ts: seq<Tick>)
    requires ts != []
    ensures Senders(h, ts) == (if Alerts(h.device, Effective(h.device, ts[0])) == [] then [] else [ts[0]])
                              + Senders(Next(h, ts[0]), ts[1..])
  {
  }

  /** Further alerts leave those before as they were. */
  lemma SentStays(h: History, h': History, n: nat, t: Tick)
    requires SentBy(h, n, t) && h.log <= h'.log && h.delivered <= h'.delivered && |h'.delivered| == |h'.log|
    ensures SentBy(h', n, t)
  {
  }

  lemma SentInOrder(h: History, n: nat, first: seq<Tick>, rest: seq<Tick>)
    requires forall i :: 0 <= i < |first| ==> SentBy(h, n + i, first[i])
    requires forall i :: 0 <= i < |rest| ==> SentBy(h, n + |first| + i, rest[i])
    ensures forall i :: 0 <= i < |first + rest| ==> SentBy(h, n + i, (first + rest)[i])
  {
    forall i | 0 <= i < |first + rest| ensures SentBy(h, n + i, (first + rest)[i]) {
      if i >= |first| { assert SentBy(h, n + |first| + (i - |first|), rest[i - |first|]); }
    }
  }

  /** An alert is delivered exactly when the check that sent it off did not raise on its send;
      nothing later changes that, or the alerts and deliveries before the run. */
  lemma {:induction false} DeliveredExactly(h: History, ts: seq<Tick>)
    requires |h.delivered| == |h.log|
    ensures var h', senders := Run(h, ts), Senders(h, ts);
            && |h'.delivered| == |h'.log| == |h.log| + |senders|
            && h.log <= h'.log && h.delivered <= h'.delivered
            && forall i :: 0 <= i < |senders| ==> SentBy(h', |h.log| + i, senders[i])
    decreases |ts|
  {
    if ts != [] {
      var h1, h' := Next(h, ts[0]), Run(h, ts);
      var first := if Alerts(h.device, Effective(h.device, ts[0])) == [] then [] else [ts[0]];
      StepDelivered(h, ts[0]);
      DeliveredExactly(h1, ts[1..]);
      FirstSender(h, ts);
      if first != [] { SentStays(h1, h', |h.log|, ts[0]); }
      SentInOrder(h', |h.log|, first, Senders(h1, ts[1..]));
    }
  }

  /** The end of an outage is saved before its recovery alert is sent: a send that raises
      loses the alert for good, whatever the later checks do. */
  lemma {:induction false} LostAlertStaysLost(h: History, ts: seq<Tick>, i: nat)
    requires |h.delivered| == |h.log| && i < |h.log| && !h.delivered[i] && h.log[i].Recovered?
    requires Timely(h) && RecoveryExact(h) && OfflineFollowed(h) && RecoveredOnce(h) && Spaced(h, ts, 0.0, None)
    ensures var h' := Run(h, ts);
            && |h'.delivered| == |h'.log|
            && forall j :: 0 <= j < |h'.log| && h'.log[j].Recovered? && h'.log[j].since == h.log[i].since ==>
                 !h'.delivered[j]
    decreases |ts|
  {
    if ts != [] {
      StepTimely(h, ts[0]);
      StepRecovery(h, ts[0]);
      LostAlertStaysLost(Next(h, ts[0]), ts[1..], i);
    }
  }

  /** A concrete loss: the PLC comes back, the send raises, and the next check has nothing to
      report. */
  lemma LostRecovery()
    ensures var h := Run(FRESH, [Tick(0.0, Down, Fine), Tick(125.0, Down, Fine), Tick(185.0, Up, SendFails),
                                 Tick(245.0, Up, Fine)]);
            && h.log == [Offline(0.0, 125.0), Recovered(0.0, 185.0)] && h.delivered == [true, false]
            && h.device == Device(None, Some(245.0))
  {
    Run3(FRESH, Tick(0.0, Down, Fine), Tick(125.0, Down, Fine), Tick(185.0, Up, SendFails), Tick(245.0, Up, Fine));
  }

  lemma Run3(h: History, a: Tick, b: Tick, c: Tick, d: Tick)
    ensures Run(h, [a, b, c]) == Next(Next(Next(h, a), b), c)
    ensures Run(h, [a, b, c, d]) == Next(Next(Next(Next(h, a), b), c), d)
  {
    assert [a, b, c, d] == [a] + [b, c, d] && [b, c, d] == [b] + [c, d] && [c, d] == [c] + [d] && [d] == [d] + [];
    assert [a, b, c] == [a] + [b, c] && [b, c] == [b] + [c] && [c] == [c] + [];
    RunFirst(h, a, [b, c, d]);
    RunFirst(h, a, [b, c]);
    var h1 := Next(h, a);
    RunFirst(h1, b, [c, d]);
    RunFirst(h1, b, [c]);
    var h2 := Next(h1, b);
    RunFirst(h2, c, [d]);
    RunFirst(h2, c, []);
    RunFirst(Next(h2, c), d, []);
  }

  lemma RunFirst(h: History, t: Tick, ts: seq<Tick>)
    ensures Run(h, [t] + ts) == Run(Next(h, t), ts)
  {
    assert ([t] + ts)[1..] == ts;
  }

  // ---- When an outage begins and ends ----

  /** The check finds the PLC up, and says so on the row. */
  predicate Clears(t: Tick) {
    t.reach.Up? && !t.io.SaveFails?
  }

  lemma {:induction false} OutageStays(h: History, ts: seq<Tick>, s: real)
    requires h.device.downSince == Some(s) && forall i :: 0 <= i < |ts| ==> !Clears(ts[i])
    ensures Run(h, ts).device == h.device && Run(h, ts).ended == h.ended
    decreases |ts|
  {
    if ts != [] {
      assert !Clears(ts[0]);
      OutageStays(Next(h, ts[0]), ts[1..], s);
    }
  }

  lemma {:induction false} RunAppend(h: History, ts: seq<Tick>, u: Tick)
    ensures Run(h, ts + [u]) == Next(Run(h, ts), u)
    decreases |ts|
  {
    if ts == [] {
      assert [] + [u] == [u] && [u][1..] == [];
    } else {
      assert (ts + [u])[1..] == ts[1..] + [u];
      RunAppend(Next(h, ts[0]), ts[1..], u);
    }
  }

  /** An outage begins at the first failed check whose save goes through, lasts over every
      check that does not find the PLC up and save that, and is measured to the check that
      does, which leaves the row clear. */
  lemma OutageMeasured(h: History, t: Tick, ts: seq<Tick>, u: Tick)
    requires h.device.downSince.None? && t.reach.Down? && !t.io.SaveFails?
    requires (forall i :: 0 <= i < |ts| ==> !Clears(ts[i])) && Clears(u)
    ensures Run(Next(h, t), ts).device.downSince == Some(t.now)
    ensures var h' := Run(Next(h, t), ts + [u]);
            && h'.device == Device(None, Some(u.now)) && h'.ended == h.ended + [(t.now, u.now)]
            && (u.now - t.now >= 120.0 <==> |h'.log| > |Run(Next(h, t), ts).log|)
            && (u.now - t.now >= 120.0 ==> h'.log == Run(Next(h, t), ts).log + [Recovered(t.now, u.now)])
  {
    OutageStays(Next(h, t), ts, t.now);
    RunAppend(Next(h, t), ts, u);
  }

  // ---- How often an outage is announced ----

  /** The alerts that announce the outage begun at `s`. */
  ghost function Announcements(log: seq<Alert>, s: real): nat {
    if log == [] then 0
    else
      var n := |log| - 1;
      Announcements(log[..n], s) + if log[n].Offline? && log[n].since == s then 1 else 0
  }

  /** The check finds the outage begun at `s` open, and within the minute after the
      threshold. */
  predicate InBand(h: History, t: Tick, s: real) {
    && t.reach.Down? && h.device.downSince == Some(s)
    && s + 120.0 <= t.now < s + 180.0
  }

  ghost function BandChecks(h: History, ts: seq<Tick>, s: real): nat
    decreases |ts|
  {
    if ts == [] then 0 else (if InBand(h, ts[0], s) then 1 else 0) + BandChecks(Next(h, ts[0]), ts[1..], s)
  }

  lemma StepAnnouncements(h: History, t: Tick, s: real)
    ensures Announcements(Next(h, t).log, s) == Announcements(h.log, s) + if InBand(h, t, s) then 1 else 0
  {
    var log, log' := h.log, Next(h, t).log;
    if |log'| > |log| {
      assert log'[..|log|] == log;
    } else {
      assert log' == log;
    }
  }

  /** Over every run, with no assumption on the clock or the spacing: an outage is announced
      once for each check that falls in its band, and not otherwise. */
  lemma {:induction false} AnnouncedPerBandCheck(h: History, ts: seq<Tick>, s: real)
    ensures Announcements(Run(h, ts).log, s) == Announcements(h.log, s) + BandChecks(h, ts, s)
    decreases |ts|
  {
    if ts != [] {
      StepAnnouncements(h, ts[0], s);
      AnnouncedPerBandCheck(Next(h, ts[0]), ts[1..], s);
    }
  }

  /** From a device never checked: an outage is announced exactly once exactly when exactly
      one check fell in its band. */
  lemma AnnouncedOnce(ts: seq<Tick>, s: real)
    ensures Announcements(Run(FRESH, ts).log, s) == 1 <==> BandChecks(FRESH, ts, s) == 1
  {
    AnnouncedPerBandCheck(FRESH, ts, s);
  }

  /** No outage was announced twice. */
  ghost predicate OnceEach(h: History) {
    forall s :: Announcements(h.log, s) <= 1
  }

  lemma {:induction false} AnnouncedLate(log: seq<Alert>, s: real, last: real)
    requires forall i :: 0 <= i < |log| ==> log[i].since + OUTAGE_ALERT_THRESHOLD <= log[i].at <= last
    ensures Announcements(log, s) > 0 ==> s + OUTAGE_ALERT_THRESHOLD <= last
  {
    if log != [] { AnnouncedLate(log[..|log| - 1], s, last); }
  }

  /** Checks at least a minute apart: at most one falls in a band, and none once the band was
      reached before. */
  lemma {:induction false} BandOnce(h: History, ts: seq<Tick>, s: real)
    requires Spaced(h, ts, ALERT_BAND, None)
    ensures BandChecks(h, ts, s) <= 1
    ensures h.last.Some? && h.last.value >= s + OUTAGE_ALERT_THRESHOLD ==> BandChecks(h, ts, s) == 0
    decreases |ts|
  {
    if ts != [] { BandOnce(Next(h, ts[0]), ts[1..], s); }
  }

  /** Checks at least a minute apart announce no outage twice. */
  lemma AtMostOncePerOutage(h: History, ts: seq<Tick>)
    requires Timely(h) && OnceEach(h) && Spaced(h, ts, ALERT_BAND, None)
    ensures OnceEach(Run(h, ts))
  {
    forall s ensures Announcements(Run(h, ts).log, s) <= 1 {
      AnnouncedPerBandCheck(h, ts, s);
      BandOnce(h, ts, s);
      if h.last.Some? { AnnouncedLate(h.log, s, h.last.value); }
    }
  }

  /** The open outage has reached the threshold at the last check. */
  ghost predicate Overdue(h: History, s: real) {
    h.device.downSince == Some(s) && h.last.Some? && h.last.value >= s + OUTAGE_ALERT_THRESHOLD
  }

  /** The open outage has been announced if a check saw it past the threshold. */
  ghost predicate Announced(h: History) {
    forall s :: Overdue(h, s) ==> Announcements(h.log, s) > 0
  }

  /** Checks at most a minute apart: an outage that becomes overdue has a check in its band. */
  lemma {:induction false} BandReached(h: History, ts: seq<Tick>, s: real)
    requires Timely(h) && Spaced(h, ts, 0.0, Some(ALERT_BAND))
    requires !Overdue(h, s) && Overdue(Run(h, ts), s)
    ensures BandChecks(h, ts, s) > 0
    decreases |ts|
  {
    if ts != [] {
      StepTimely(h, ts[0]);
      if !Overdue(Next(h, ts[0]), s) { BandReached(Next(h, ts[0]), ts[1..], s); }
    }
  }

  /** Checks at most a minute apart announce every outage that is still seen at the
      threshold. */
  lemma AtLeastOncePerOutage(h: History, ts: seq<Tick>)
    requires Timely(h) && Announced(h) && Spaced(h, ts, 0.0, Some(ALERT_BAND))
    ensures Announced(Run(h, ts))
  {
    forall s | Overdue(Run(h, ts), s) ensures Announcements(Run(h, ts).log, s) > 0 {
      AnnouncedPerBandCheck(h, ts, s);
      if !Overdue(h, s) { BandReached(h, ts, s); }
    }
  }

  /** From a device that was never checked, every run meets the starting conditions. */
  lemma WholeRuns(ts: seq<Tick>)
    ensures Spaced(FRESH, ts, 0.0, None) ==>
              var h := Run(FRESH, ts);
              RecoveryExact(h) && OfflineFollowed(h) && RecoveredOnce(h)
    ensures Spaced(FRESH, ts, ALERT_BAND, None) ==> OnceEach(Run(FRESH, ts))
    ensures Spaced(FRESH, ts, 0.0, Some(ALERT_BAND)) ==> Announced(Run(FRESH, ts))
  {
    if Spaced(FRESH, ts, 0.0, None) { EveryOutageRecovers(FRESH, ts); }
    if Spaced(FRESH, ts, ALERT_BAND, None) { AtMostOncePerOutage(FRESH, ts); }
    if Spaced(FRESH, ts, 0.0, Some(ALERT_BAND)) { AtLeastOncePerOutage(FRESH, ts); }
  }

  /** Both bounds are needed.  Two checks 50 seconds apart inside the band announce one
      outage twice; two checks 70 seconds apart around the band never announce it. */
  lemma SpacingMatters()
    ensures var h := Run(FRESH, [Tick(0.0, Down, Fine), Tick(125.0, Down, Fine), Tick(175.0, Down, Fine)]);
            h.log == [Offline(0.0, 125.0), Offline(0.0, 175.0)]
    ensures var h := Run(FRESH, [Tick(0.0, Down, Fine), Tick(115.0, Down, Fine), Tick(185.0, Down, Fine)]);
            h.log == [] && h.device.downSince == Some(0.0)
  {
    Run3(FRESH, Tick(0.0, Down, Fine), Tick(125.0, Down, Fine), Tick(175.0, Down, Fine), Tick(0.0, Down, Fine));
    Run3(FRESH, Tick(0.0, Down, Fine), Tick(115.0, Down, Fine), Tick(185.0, Down, Fine), Tick(0.0, Down, Fine));
  }

  // ---- The task over all apartments ----

  type Apartment = int

  class HeartbeatTask {
    /** The apartments that have a PLC, in query order. */
    const apartments: seq<Apartment>
    var devices: map<Apartment, Device>

    ghost predicate Valid()
      reads this
    {
      Distinct(apartments) && forall i :: 0 <= i < |apartments| ==> apartments[i] in devices
    }

    constructor (apartments: seq<Apartment>)
      requires Distinct(apartments)
      ensures Valid() && this.apartments == apartments
      ensures forall i :: 0 <= i < |apartments| ==> devices[apartments[i]] == Device(None, None)
    {
      this.apartments := apartments;
      devices := map a | a in apartments :: Device(None, None);
    }

    /** One run of the task: `checks[i]` is what the check of the i-th apartment meets.  A
        failing reachability check skips its apartment; a save or send that raises ends the
        loop.  The first `handled` apartments take their step as if they were alone, the
        last of them being the one that raised if any is left out. */
    method CheckAll(checks: seq<Tick>) returns (alerts: seq<seq<Alert>>, handled: nat)
      requires Valid() && |checks| == |apartments|
      modifies this
      ensures Valid() && |alerts| == handled <= |apartments|
      ensures forall i :: 0 <= i < handled ==>
                var d := old(devices)[apartments[i]];
                var t := Effective(d, checks[i]);
                && devices[apartments[i]] == After(d, t) && alerts[i] == Alerts(d, t)
                && (Aborts(d, checks[i]) ==> i == handled - 1)
      ensures forall i :: handled <= i < |apartments| ==> devices[apartments[i]] == old(devices)[apartments[i]]
      ensures handled < |apartments| ==>
                handled > 0 && Aborts(old(devices)[apartments[handled - 1]], checks[handled - 1])
    {
      alerts := [];
      for i := 0 to |apartments|
        invariant Valid() && |alerts| == i
        invariant forall j :: 0 <= j < i ==>
          var d := old(devices)[apartments[j]];
          var t := Effective(d, checks[j]);
          devices[apartments[j]] == After(d, t) && alerts[j] == Alerts(d, t) && !Aborts(d, checks[j])
        invariant forall j :: i <= j < |apartments| ==> devices[apartments[j]] == old(devices)[apartments[j]]
      {
        var device, sent, raised := CheckOne(devices[apartments[i]], checks[i]);
        devices := devices[apartments[i] := device];
        alerts := alerts + [sent];
        if raised { return alerts, i + 1; }
      }
      handled := |apartments|;
    }

    /** `alerts` is what was handed to the sender, whether or not the send then raised. */
    static method CheckOne(device: Device, t: Tick) returns (next: Device, alerts: seq<Alert>, raised: bool)
      ensures next == After(device, Effective(device, t)) && alerts == Alerts(device, Effective(device, t))
      ensures raised == Aborts(device, t)
      ensures raised <==>
                || (t.io.SaveFails? && (t.reach.Up? || (t.reach.Down? && device.downSince.None?)))
                || (t.io.SendFails? && alerts != [])
    {
      next, alerts, raised := device, [], false;
      match t.reach {
        case CheckFailed =>
        case Up =>
          if t.io.SaveFails? { return device, [], true; }
          next := Device(None, Some(t.now));
          if device.downSince.Some? {
            var outage := t.now - device.downSince.value;
            if outage >= OUTAGE_ALERT_THRESHOLD {
              alerts := [Recovered(device.downSince.value, t.now)];
              raised := t.io.SendFails?;
            }
          }
        case Down =>
          if device.downSince.None? {
            if t.io.SaveFails? { return device, [], true; }
            next := device.(downSince := Some(t.now));
          } else {
            var outage := t.now - device.downSince.value;
            if OUTAGE_ALERT_THRESHOLD <= outage < OUTAGE_ALERT_THRESHOLD + ALERT_BAND {
              alerts := [Offline(device.downSince.value, t.now)];
              raised := t.io.SendFails?;
            }
          }
      }
    }
  }
}
