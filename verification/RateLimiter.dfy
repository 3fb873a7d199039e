/** The sliding-window rate limiter: one deque of timestamps per bucket and client, pruned
    on every request, under two limits that share the deque.  Compared with a limiter that
    keeps every admitted request for ever. */
module RateLimiter {
  import opened Common

  datatype Bucket = Plc | Auth
  type Key = (Bucket, string)

  datatype Config = Config(limit: int, writeLimit: int, window: real)

  const AUTH_LIMIT := 10
  const AUTH_PATHS := ["/auth/login/", "/auth/refresh/"]
  const AUTH_EXEMPT_IPS := ["127.0.0.1", "::1"]

  datatype Request = Request(path: string, verb: string, ip: string)

  /** The bucket a request is counted in; None: it is passed on uncounted. */
  function BucketOf(r: Request): Option<Bucket> {
    if "/plc/" <= r.path then Some(Plc)
    else if r.path in AUTH_PATHS && r.ip !in AUTH_EXEMPT_IPS then Some(Auth)
    else None
  }

  /** A request under /plc/, or a login or refresh that does not come from the host itself. */
  ghost predicate Counted(r: Request) {
    "/plc/" <= r.path ||
    (r.path in ["/auth/login/", "/auth/refresh/"] && r.ip !in ["127.0.0.1", "::1"])
  }

  lemma BucketIs(r: Request)
    ensures BucketOf(r).Some? <==> Counted(r)
    ensures Counted(r) ==> BucketOf(r).value == if "/plc/" <= r.path then Plc else Auth
  {
  }

  predicate IsWrite(r: Request) {
    r.verb == "POST"
  }

  function LimitOf(cfg: Config, b: Bucket, post: bool): int {
    match b case Auth => AUTH_LIMIT case Plc => if post then cfg.writeLimit else cfg.limit
  }

  // ---- The limiter that forgets nothing ----

  /** An admitted request. */
  datatype Hit = Hit(time: real, write: bool)

  ghost function CountFrom(h: seq<Hit>, since: real): nat {
    if h == [] then 0
    else CountFrom(h[..|h| - 1], since) + if h[|h| - 1].time >= since then 1 else 0
  }

  /** Admitted requests with lo <= time <= hi; only the writes if `writes`. */
  ghost function CountIn(h: seq<Hit>, lo: real, hi: real, writes: bool): nat {
    if h == [] then 0
    else
      var e := h[|h| - 1];
      CountIn(h[..|h| - 1], lo, hi, writes) + if lo <= e.time <= hi && (writes ==> e.write) then 1 else 0
  }

  /** Every request in the history was admitted under its own limit. */
  ghost predicate WellAdmitted(cfg: Config, b: Bucket, h: seq<Hit>) {
    h == [] ||
    var n := |h| - 1;
    WellAdmitted(cfg, b, h[..n]) && CountFrom(h[..n], h[n].time - cfg.window) < LimitOf(cfg, b, h[n].write)
  }

  lemma {:induction false} WindowWithinFrom(h: seq<Hit>, lo: real, hi: real, since: real, writes: bool)
    requires since <= lo
    ensures CountIn(h, lo, hi, writes) <= CountFrom(h, since)
  {
    if h != [] { WindowWithinFrom(h[..|h| - 1], lo, hi, since, writes); }
  }

  /** Every closed window of the configured length holds at most the larger limit of
      admitted requests, and at most the write limit of admitted writes, although reads and
      writes share one deque.  No order of the timestamps is needed. */
  lemma {:induction false} WindowBound(cfg: Config, b: Bucket, h: seq<Hit>, x: real)
    requires WellAdmitted(cfg, b, h)
    ensures CountIn(h, x, x + cfg.window, false) <= Max(0, Max(LimitOf(cfg, b, false), LimitOf(cfg, b, true)))
    ensures CountIn(h, x, x + cfg.window, true) <= Max(0, LimitOf(cfg, b, true))
  {
    if h != [] {
      var n := |h| - 1;
      var e := h[n];
      WindowBound(cfg, b, h[..n], x);
      if x <= e.time <= x + cfg.window {
        WindowWithinFrom(h[..n], x, x + cfg.window, e.time - cfg.window, false);
        WindowWithinFrom(h[..n], x, x + cfg.window, e.time - cfg.window, true);
      }
    }
  }

  // ---- The pruned deque ----

  function Prune(d: seq<real>, cutoff: real): seq<real> {
    if d != [] && d[0] < cutoff then Prune(d[1..], cutoff) else d
  }

  ghost predicate Sorted(h: seq<Hit>) {
    forall i, j :: 0 <= i < j < |h| ==> h[i].time <= h[j].time
  }

  /** The deque is the history without some of its oldest entries, all of them older than
      every window that is still asked about. */
  ghost predicate Mirrors(d: seq<real>, h: seq<Hit>, cutoff: real) {
    && |d| <= |h|
    && (forall i :: 0 <= i < |d| ==> d[i] == h[|h| - |d| + i].time)
    && forall i :: 0 <= i < |h| - |d| ==> h[i].time < cutoff
  }

  lemma {:induction false} CountSplit(h: seq<Hit>, k: nat, since: real)
    requires k <= |h|
    requires forall i :: 0 <= i < k ==> h[i].time < since
    requires forall i :: k <= i < |h| ==> h[i].time >= since
    ensures CountFrom(h, since) == |h| - k
  {
    if |h| > 0 {
      var n := |h| - 1;
      CountSplit(h[..n], if k <= n then k else n, since);
    }
  }

  /** Pruning at a later cutoff leaves exactly the entries of the window. */
  lemma {:induction false} PruneExact(d: seq<real>, h: seq<Hit>, cutoff: real)
    requires Sorted(h) && Mirrors(d, h, cutoff)
    ensures Mirrors(Prune(d, cutoff), h, cutoff)
    ensures |Prune(d, cutoff)| == CountFrom(h, cutoff)
    decreases |d|
  {
    var k := |h| - |d|;
    if d != [] && d[0] < cutoff {
      PruneExact(d[1..], h, cutoff);
    } else {
      assert d != [] ==> d[0] == h[k].time;
      CountSplit(h, k, cutoff);
    }
  }

  /** One request against the pruned deque: the new deque and whether it is admitted. */
  function PrunedStep(d: seq<real>, now: real, window: real, limit: int): (seq<real>, bool) {
    var p := Prune(d, now - window);
    if |p| >= limit then (p, false) else (p + [now], true)
  }

  /** What the object keeps for one bucket and client while the clock runs forward. */
  ghost predicate InStep(cfg: Config, b: Bucket, d: seq<real>, h: seq<Hit>, clock: real) {
    && Sorted(h) && (forall i :: 0 <= i < |h| ==> h[i].time <= clock)
    && Mirrors(d, h, clock - cfg.window)
    && WellAdmitted(cfg, b, h)
  }

  /** Recording an admitted request keeps deque and history in step. */
  lemma AdmitInStep(cfg: Config, b: Bucket, p: seq<real>, h: seq<Hit>, e: Hit)
    requires InStep(cfg, b, p, h, e.time)
    requires CountFrom(h, e.time - cfg.window) < LimitOf(cfg, b, e.write)
    ensures InStep(cfg, b, p + [e.time], h + [e], e.time)
  {
  }

  lemma PruneInStep(cfg: Config, b: Bucket, d: seq<real>, h: seq<Hit>, clock: real, now: real)
    requires InStep(cfg, b, d, h, clock) && clock <= now
    ensures InStep(cfg, b, Prune(d, now - cfg.window), h, now)
    ensures |Prune(d, now - cfg.window)| == CountFrom(h, now - cfg.window)
  {
    PruneExact(d, h, now - cfg.window);
  }

  /** The deque and everything admitted so far, for one bucket and client. */
  datatype Pruned = Pruned(deque: seq<real>, admitted: seq<Hit>)

  /** One request; `e.time` is the clock value it entered the lock with. */
  function PrunedNext(cfg: Config, b: Bucket, s: Pruned, e: Hit): Pruned {
    var (d, ok) := PrunedStep(s.deque, e.time, cfg.window, LimitOf(cfg, b, e.write));
    if ok then Pruned(d, s.admitted + [e]) else Pruned(d, s.admitted)
  }

  /** The same request at a limiter that keeps every admitted request. */
  ghost function FullNext(cfg: Config, b: Bucket, h: seq<Hit>, e: Hit): seq<Hit> {
    if CountFrom(h, e.time - cfg.window) < LimitOf(cfg, b, e.write) then h + [e] else h
  }

  /** On clock values that do not decrease the deque decides as the full history does, and
      stays in step with it. */
  lemma PrunedRefinesFull(cfg: Config, b: Bucket, s: Pruned, clock: real, e: Hit)
    requires InStep(cfg, b, s.deque, s.admitted, clock) && clock <= e.time
    ensures var s' := PrunedNext(cfg, b, s, e);
            s'.admitted == FullNext(cfg, b, s.admitted, e) && InStep(cfg, b, s'.deque, s'.admitted, e.time)
  {
    var p := Prune(s.deque, e.time - cfg.window);
    PruneInStep(cfg, b, s.deque, s.admitted, clock, e.time);
    if |p| < LimitOf(cfg, b, e.write) {
      AdmitInStep(cfg, b, p, s.admitted, e);
      assert PrunedNext(cfg, b, s, e) == Pruned(p + [e.time], s.admitted + [e]);
    } else {
      assert PrunedNext(cfg, b, s, e) == Pruned(p, s.admitted);
    }
  }

  /** Time passing changes nothing for a bucket that sees no request. */
  lemma InStepLater(cfg: Config, b: Bucket, d: seq<real>, h: seq<Hit>, clock: real, now: real)
    requires InStep(cfg, b, d, h, clock) && clock <= now
    ensures InStep(cfg, b, d, h, now)
  {
  }

  // ---- Requests that enter out of clock order ----
  //
  // The clock is read before the lock is taken, so a request may enter behind one with a
  // later clock value.

  ghost function CountBefore(h: seq<Hit>, since: real): nat {
    if h == [] then 0
    else CountBefore(h[..|h| - 1], since) + if h[|h| - 1].time < since then 1 else 0
  }

  lemma {:induction false} CountsAddUp(h: seq<Hit>, since: real)
    ensures CountFrom(h, since) + CountBefore(h, since) == |h|
  {
    if h != [] { CountsAddUp(h[..|h| - 1], since); }
  }

  lemma {:induction false} CountConcat(h: seq<Hit>, k: nat, since: real)
    requires k <= |h|
    ensures CountFrom(h, since) == CountFrom(h[..k], since) + CountFrom(h[k..], since)
  {
    if k == |h| {
      assert h[..k] == h;
    } else {
      var n := |h| - 1;
      CountConcat(h[..n], k, since);
      assert h[..n][..k] == h[..k] && h[..n][k..] == h[k..][..n - k];
    }
  }

  /** In any order of clock values the deque stays an end of the history; what it has lost
      is older than the latest cutoff used. */
  lemma {:induction false} PruneMirrors(d: seq<real>, h: seq<Hit>, cut: real, cutoff: real, latest: real)
    requires Mirrors(d, h, cut) && cut <= latest && cutoff <= latest
    ensures Mirrors(Prune(d, cutoff), h, latest)
    decreases |d|
  {
    if d != [] && d[0] < cutoff {
      assert Mirrors(d[1..], h, latest);
      PruneMirrors(d[1..], h, latest, cutoff, latest);
    }
  }

  /** Live entries lost, and expired entries kept, by the deque `p` of a request. */
  ghost function LiveLost(p: seq<real>, h: seq<Hit>, cutoff: real): nat
    requires |p| <= |h|
  {
    CountFrom(h[..|h| - |p|], cutoff)
  }

  ghost function ExpiredKept(p: seq<real>, h: seq<Hit>, cutoff: real): nat
    requires |p| <= |h|
  {
    CountBefore(h[|h| - |p|..], cutoff)
  }

  /** In any order of clock values: the deque counts what the full history counts exactly
      when it lost as many live entries as it keeps expired ones.  A request is admitted
      against the history exactly when the surplus of lost entries hides the limit, and
      refused against it exactly when the surplus of kept ones reaches it. */
  lemma StepBalance(d: seq<real>, h: seq<Hit>, cut: real, now: real, window: real, limit: int)
    requires Mirrors(d, h, cut)
    ensures |Prune(d, now - window)| <= |h|
    ensures var p, c := Prune(d, now - window), now - window;
            var ok := PrunedStep(d, now, window, limit).1;
            && |p| + LiveLost(p, h, c) == CountFrom(h, c) + ExpiredKept(p, h, c)
            && (|p| == CountFrom(h, c) <==> LiveLost(p, h, c) == ExpiredKept(p, h, c))
            && (ok && CountFrom(h, c) >= limit <==> |p| < limit <= |p| + LiveLost(p, h, c) - ExpiredKept(p, h, c))
            && (!ok && CountFrom(h, c) < limit <==> |p| + LiveLost(p, h, c) - ExpiredKept(p, h, c) < limit <= |p|)
  {
    var c := now - window;
    PruneMirrors(d, h, cut, c, if cut <= c then c else cut);
    var k := |h| - |Prune(d, c)|;
    CountConcat(h, k, c);
    CountsAddUp(h[k..], c);
  }

  /** Entries before `since` only: none of them counts. */
  lemma {:induction false} NoneFrom(h: seq<Hit>, since: real)
    requires forall i :: 0 <= i < |h| ==> h[i].time < since
    ensures CountFrom(h, since) == 0
  {
    if h != [] { NoneFrom(h[..|h| - 1], since); }
  }

  /** A request that is not behind the latest clock value finds no live entry lost, so it is
      never admitted against the full history: only a request that is behind can be. */
  lemma OnlyLateRequestsOverAdmit(d: seq<real>, h: seq<Hit>, top: real, now: real, window: real, limit: int)
    requires Mirrors(d, h, top - window)
    ensures |Prune(d, now - window)| <= |h|
    ensures now >= top ==> LiveLost(Prune(d, now - window), h, now - window) == 0
    ensures PrunedStep(d, now, window, limit).1 && CountFrom(h, now - window) >= limit ==> now < top
  {
    var c := now - window;
    StepBalance(d, h, top - window, now, window, limit);
    if now >= top {
      PruneMirrors(d, h, top - window, c, c);
      NoneFrom(h[..|h| - |Prune(d, c)|], c);
    }
  }

  predicate InOrder(d: seq<real>) {
    forall i, j :: 0 <= i < j < |d| ==> d[i] <= d[j]
  }

  lemma {:induction false} PrunedLive(d: seq<real>, cutoff: real)
    requires InOrder(d)
    ensures forall i :: 0 <= i < |Prune(d, cutoff)| ==> Prune(d, cutoff)[i] >= cutoff
    decreases |d|
  {
    if d != [] && d[0] < cutoff { PrunedLive(d[1..], cutoff); }
  }

  lemma {:induction false} NoneBefore(h: seq<Hit>, since: real)
    requires forall i :: 0 <= i < |h| ==> h[i].time >= since
    ensures CountBefore(h, since) == 0
  {
    if h != [] { NoneBefore(h[..|h| - 1], since); }
  }

  /** A deque in clock order keeps no expired entry, so no request is refused against the full
      history: only a deque with an entry out of order can do that. */
  lemma OnlyDisorderRefuses(d: seq<real>, h: seq<Hit>, cut: real, now: real, window: real, limit: int)
    requires Mirrors(d, h, cut)
    ensures |Prune(d, now - window)| <= |h|
    ensures InOrder(d) ==> ExpiredKept(Prune(d, now - window), h, now - window) == 0
    ensures !PrunedStep(d, now, window, limit).1 && CountFrom(h, now - window) < limit ==> !InOrder(d)
  {
    var c := now - window;
    var p := Prune(d, c);
    StepBalance(d, h, cut, now, window, limit);
    if InOrder(d) {
      PruneMirrors(d, h, cut, c, Later(cut, c));
      PrunedLive(d, c);
      var kept := h[|h| - |p|..];
      forall i | 0 <= i < |kept| ensures kept[i].time >= c {
        assert p[i] == h[|h| - |p| + i].time;
      }
      NoneBefore(kept, c);
    }
  }

  /** Both mistakes happen.  An expired entry behind a live one makes the deque refuse what
      the full history would admit. */
  lemma OutOfOrderRefuses()
    ensures var (d1, ok1) := PrunedStep([], 100.0, 60.0, 2);
            var (d2, ok2) := PrunedStep(d1, 99.0, 60.0, 2);
            var h := [Hit(100.0, true), Hit(99.0, true)];
            && ok1 && ok2
            && !PrunedStep(d2, 159.5, 60.0, 2).1
            && CountFrom(h, 159.5 - 60.0) < 2
  {
  }

  const LATE_RUN := [Hit(100.0, false), Hit(101.0, false), Hit(102.0, false), Hit(161.5, false), Hit(160.0, false)]

  /** A request 1.5 seconds behind is admitted after the entries of its own window were
      pruned: with a limit of 3 the closed minute from 100 to 160 holds 4 admitted requests. */
  lemma OutOfOrderOverAdmits()
    ensures var cfg := Config(3, 3, 60.0);
            && PrunedRun(cfg, Plc, Pruned([], []), LATE_RUN).admitted == LATE_RUN
            && CountIn(LATE_RUN, 100.0, 160.0, false) == 4
            && Behind(100.0, 1.5, LATE_RUN) && !Behind(100.0, 0.0, LATE_RUN)
  {
    LateRunAdmitted();
    LateRunCount();
  }

  /** The same, for a limiter that keeps the count of admitted requests within 3 a minute:
      the deque before the last two requests, and what each of them finds. */
  lemma LateRunAdmitted()
    ensures PrunedRun(Config(3, 3, 60.0), Plc, Pruned([], []), LATE_RUN).admitted == LATE_RUN
  {
    var cfg, xs := Config(3, 3, 60.0), LATE_RUN;
    assert xs == [xs[0]] + ([xs[1]] + ([xs[2]] + ([xs[3]] + ([xs[4]] + []))));
    var s1, s2, s3 := Pruned([100.0], xs[..1]), Pruned([100.0, 101.0], xs[..2]), Pruned([100.0, 101.0, 102.0], xs[..3]);
    var s4, s5 := Pruned([102.0, 161.5], xs[..4]), Pruned([102.0, 161.5, 160.0], xs);
    assert PrunedNext(cfg, Plc, Pruned([], []), xs[0]) == s1;
    assert PrunedNext(cfg, Plc, s1, xs[1]) == s2;
    assert PrunedNext(cfg, Plc, s2, xs[2]) == s3;
    LateRunPrunes();
    assert PrunedNext(cfg, Plc, s3, xs[3]) == s4;
    assert PrunedNext(cfg, Plc, s4, xs[4]) == s5;
    RunFirst(cfg, Plc, Pruned([], []), xs[0], [xs[1]] + ([xs[2]] + ([xs[3]] + ([xs[4]] + []))));
    RunFirst(cfg, Plc, s1, xs[1], [xs[2]] + ([xs[3]] + ([xs[4]] + [])));
    RunFirst(cfg, Plc, s2, xs[2], [xs[3]] + ([xs[4]] + []));
    RunFirst(cfg, Plc, s3, xs[3], [xs[4]] + []);
    RunFirst(cfg, Plc, s4, xs[4], []);
  }

  lemma LateRunPrunes()
    ensures Prune([100.0, 101.0, 102.0], 101.5) == [102.0]
    ensures Prune([102.0, 161.5], 100.0) == [102.0, 161.5]
  {
    assert [100.0, 101.0, 102.0][1..] == [101.0, 102.0] && [101.0, 102.0][1..] == [102.0];
    assert Prune([101.0, 102.0], 101.5) == Prune([102.0], 101.5) == [102.0];
  }

  lemma RunFirst(cfg: Config, b: Bucket, s: Pruned, x: Hit, xs: seq<Hit>)
    ensures PrunedRun(cfg, b, s, [x] + xs) == PrunedRun(cfg, b, PrunedNext(cfg, b, s, x), xs)
  {
    assert ([x] + xs)[1..] == xs;
  }

  lemma CountLast(h: seq<Hit>, e: Hit, lo: real, hi: real)
    ensures CountIn(h + [e], lo, hi, false) == CountIn(h, lo, hi, false) + if lo <= e.time <= hi then 1 else 0
  {
    assert (h + [e])[..|h|] == h;
  }

  lemma BehindFirst(top: real, skew: real, x: Hit, xs: seq<Hit>)
    ensures Behind(top, skew, [x] + xs) <==> x.time >= top - skew && Behind(Later(top, x.time), skew, xs)
  {
    assert ([x] + xs)[1..] == xs;
  }

  lemma LateRunCount()
    ensures CountIn(LATE_RUN, 100.0, 160.0, false) == 4
    ensures Behind(100.0, 1.5, LATE_RUN) && !Behind(100.0, 0.0, LATE_RUN)
  {
    var xs := LATE_RUN;
    assert xs == [] + [xs[0]] + [xs[1]] + [xs[2]] + [xs[3]] + [xs[4]];
    CountLast([], xs[0], 100.0, 160.0);
    CountLast([] + [xs[0]], xs[1], 100.0, 160.0);
    CountLast([] + [xs[0]] + [xs[1]], xs[2], 100.0, 160.0);
    CountLast([] + [xs[0]] + [xs[1]] + [xs[2]], xs[3], 100.0, 160.0);
    CountLast([] + [xs[0]] + [xs[1]] + [xs[2]] + [xs[3]], xs[4], 100.0, 160.0);
    LateRunBehind(1.5);
    LateRunBehind(0.0);
  }

  lemma LateRunBehind(skew: real)
    requires skew >= 0.0
    ensures Behind(100.0, skew, LATE_RUN) <==> skew >= 1.5
  {
    var xs := LATE_RUN;
    assert xs == [xs[0]] + ([xs[1]] + ([xs[2]] + ([xs[3]] + ([xs[4]] + []))));
    BehindFirst(100.0, skew, xs[0], [xs[1]] + ([xs[2]] + ([xs[3]] + ([xs[4]] + []))));
    BehindFirst(100.0, skew, xs[1], [xs[2]] + ([xs[3]] + ([xs[4]] + [])));
    BehindFirst(101.0, skew, xs[2], [xs[3]] + ([xs[4]] + []));
    BehindFirst(102.0, skew, xs[3], [xs[4]] + []);
    BehindFirst(161.5, skew, xs[4], []);
  }

  /** No request is more than `skew` behind the latest clock value before it. */
  ghost predicate Behind(top: real, skew: real, xs: seq<Hit>)
    decreases |xs|
  {
    xs == [] || (xs[0].time >= top - skew && Behind(Later(top, xs[0].time), skew, xs[1..]))
  }

  function Later(a: real, b: real): real {
    if a <= b then b else a
  }

  lemma {:induction false} KeptCount(d: seq<real>, h: seq<Hit>, cut: real, since: real)
    requires Mirrors(d, h, cut) && cut <= since
    ensures CountFrom(h, since) <= |d|
  {
    if h != [] {
      var n := |h| - 1;
      if d == [] {
        KeptCount(d, h[..n], cut, since);
      } else {
        KeptCount(d[..|d| - 1], h[..n], cut, since);
      }
    }
  }

  function Narrowed(cfg: Config, skew: real): Config {
    cfg.(window := cfg.window - skew)
  }

  /** What survives a bounded skew: the deque lost nothing newer than the latest cutoff, and
      every admission was within its limit over the window shortened by the skew. */
  ghost predicate InSkew(cfg: Config, b: Bucket, s: Pruned, top: real, skew: real) {
    Mirrors(s.deque, s.admitted, top - cfg.window) && WellAdmitted(Narrowed(cfg, skew), b, s.admitted)
  }

  /** Admitting a request keeps the entries lost older than the cutoff, and the request
      within its limit over the shortened window. */
  lemma SkewAdmit(cfg: Config, b: Bucket, p: seq<real>, h: seq<Hit>, cut: real, e: Hit)
    requires Mirrors(p, h, cut) && WellAdmitted(cfg, b, h)
    requires cut <= e.time - cfg.window && |p| < LimitOf(cfg, b, e.write)
    ensures Mirrors(p + [e.time], h + [e], cut) && WellAdmitted(cfg, b, h + [e])
  {
    KeptCount(p, h, cut, e.time - cfg.window);
    assert WellAdmitted(cfg, b, h + [e]) by { assert (h + [e])[..|h|] == h; }
  }

  lemma SkewStep(cfg: Config, b: Bucket, s: Pruned, top: real, skew: real, e: Hit)
    requires InSkew(cfg, b, s, top, skew) && skew >= 0.0 && e.time >= top - skew
    ensures InSkew(cfg, b, PrunedNext(cfg, b, s, e), Later(top, e.time), skew)
  {
    var p := Prune(s.deque, e.time - cfg.window);
    PruneInSkew(cfg, b, s, top, skew, e.time);
    if |p| < LimitOf(cfg, b, e.write) {
      AdmitInSkew(cfg, b, p, s.admitted, top, skew, e);
      assert PrunedNext(cfg, b, s, e) == Pruned(p + [e.time], s.admitted + [e]);
    } else {
      assert PrunedNext(cfg, b, s, e) == Pruned(p, s.admitted);
    }
  }

  lemma PruneInSkew(cfg: Config, b: Bucket, s: Pruned, top: real, skew: real, now: real)
    requires InSkew(cfg, b, s, top, skew) && skew >= 0.0 && now >= top - skew
    ensures InSkew(cfg, b, Pruned(Prune(s.deque, now - cfg.window), s.admitted), Later(top, now), skew)
  {
    LatestWithin(cfg, top, skew, now);
    PruneMirrors(s.deque, s.admitted, top - cfg.window, now - cfg.window, Later(top, now) - cfg.window);
  }

  lemma AdmitInSkew(cfg: Config, b: Bucket, p: seq<real>, h: seq<Hit>, top: real, skew: real, e: Hit)
    requires InSkew(cfg, b, Pruned(p, h), Later(top, e.time), skew) && skew >= 0.0 && e.time >= top - skew
    requires |p| < LimitOf(cfg, b, e.write)
    ensures InSkew(cfg, b, Pruned(p + [e.time], h + [e]), Later(top, e.time), skew)
  {
    LatestWithin(cfg, top, skew, e.time);
    SkewAdmit(Narrowed(cfg, skew), b, p, h, Later(top, e.time) - cfg.window, e);
  }

  lemma LatestWithin(cfg: Config, top: real, skew: real, now: real)
    requires skew >= 0.0 && now >= top - skew
    ensures top - cfg.window <= Later(top, now) - cfg.window && now - cfg.window <= Later(top, now) - cfg.window
    ensures Later(top, now) - cfg.window <= now - Narrowed(cfg, skew).window
  {
  }

  /** A larger skew asks less. */
  lemma {:induction false} NarrowerAdmitted(cfg: Config, b: Bucket, h: seq<Hit>, skew: real, skew': real)
    requires WellAdmitted(Narrowed(cfg, skew), b, h) && skew <= skew'
    ensures WellAdmitted(Narrowed(cfg, skew'), b, h)
  {
    if h != [] {
      var n := |h| - 1;
      NarrowerAdmitted(cfg, b, h[..n], skew, skew');
      LaterCountsLess(h[..n], h[n].time - (cfg.window - skew), h[n].time - (cfg.window - skew'));
    }
  }

  lemma {:induction false} LaterCountsLess(h: seq<Hit>, since: real, since': real)
    requires since <= since'
    ensures CountFrom(h, since') <= CountFrom(h, since)
  {
    if h != [] { LaterCountsLess(h[..|h| - 1], since, since'); }
  }

  lemma {:induction false} SkewRun(cfg: Config, b: Bucket, s: Pruned, top: real, skew: real, xs: seq<Hit>)
    requires InSkew(cfg, b, s, top, skew) && skew >= 0.0 && Behind(top, skew, xs)
    ensures WellAdmitted(Narrowed(cfg, skew), b, PrunedRun(cfg, b, s, xs).admitted)
    decreases |xs|
  {
    if xs != [] {
      SkewStep(cfg, b, s, top, skew, xs[0]);
      SkewRun(cfg, b, PrunedNext(cfg, b, s, xs[0]), Later(top, xs[0].time), skew, xs[1..]);
    }
  }

  lemma NarrowedBound(cfg: Config, b: Bucket, skew: real, h: seq<Hit>, x: real)
    requires WellAdmitted(Narrowed(cfg, skew), b, h)
    ensures CountIn(h, x, x + (cfg.window - skew), false) <= Max(0, Max(LimitOf(cfg, b, false), LimitOf(cfg, b, true)))
    ensures CountIn(h, x, x + (cfg.window - skew), true) <= Max(0, LimitOf(cfg, b, true))
  {
    WindowBound(Narrowed(cfg, skew), b, h, x);
  }

  /** Over every run in which no request is more than `skew` behind: the limits still hold
      for every closed window shorter than the configured one by the skew. */
  lemma SkewedWindowBound(cfg: Config, b: Bucket, start: real, skew: real, xs: seq<Hit>, x: real)
    requires skew >= 0.0 && Behind(start, skew, xs)
    ensures var h := PrunedRun(cfg, b, Pruned([], []), xs).admitted;
            && CountIn(h, x, x + (cfg.window - skew), false)
               <= Max(0, Max(LimitOf(cfg, b, false), LimitOf(cfg, b, true)))
            && CountIn(h, x, x + (cfg.window - skew), true) <= Max(0, LimitOf(cfg, b, true))
  {
    SkewRun(cfg, b, Pruned([], []), start, skew, xs);
    NarrowedBound(cfg, b, skew, PrunedRun(cfg, b, Pruned([], []), xs).admitted, x);
  }

  // ---- The object ----

  ghost function HistoryOf(admitted: map<Key, seq<Hit>>, k: Key): seq<Hit> {
    if k in admitted then admitted[k] else []
  }

  /** What is kept for client and bucket `k`. */
  ghost function At(hits: map<Key, seq<real>>, admitted: map<Key, seq<Hit>>, k: Key): Pruned {
    Pruned(if k in hits then hits[k] else [], HistoryOf(admitted, k))
  }

  ghost predicate AllInStep(cfg: Config, hits: map<Key, seq<real>>, admitted: map<Key, seq<Hit>>, clock: real) {
    forall k: Key :: InStep(cfg, k.0, At(hits, admitted, k).deque, At(hits, admitted, k).admitted, clock)
  }

  /** A request of one client keeps every deque in step with its history. */
  lemma RequestKeepsInStep(cfg: Config, hits: map<Key, seq<real>>, admitted: map<Key, seq<Hit>>,
                           clock: real, key: Key, e: Hit)
    requires AllInStep(cfg, hits, admitted, clock) && clock <= e.time
    ensures var s := PrunedNext(cfg, key.0, At(hits, admitted, key), e);
            && AllInStep(cfg, hits[key := s.deque], admitted[key := s.admitted], e.time)
            && s.admitted == FullNext(cfg, key.0, HistoryOf(admitted, key), e)
  {
    var s := PrunedNext(cfg, key.0, At(hits, admitted, key), e);
    var hits', admitted' := hits[key := s.deque], admitted[key := s.admitted];
    PrunedRefinesFull(cfg, key.0, At(hits, admitted, key), clock, e);
    assert At(hits', admitted', key) == s;
    forall k: Key | k != key
      ensures InStep(cfg, k.0, At(hits', admitted', k).deque, At(hits', admitted', k).admitted, e.time)
    {
      var w := At(hits, admitted, k);
      assert At(hits', admitted', k) == w;
      InStepLater(cfg, k.0, w.deque, w.admitted, clock, e.time);
    }
  }

  ghost predicate AllInSkew(cfg: Config, hits: map<Key, seq<real>>, admitted: map<Key, seq<Hit>>,
                            top: real, skew: real)
  {
    forall k: Key :: InSkew(cfg, k.0, At(hits, admitted, k), top, skew)
  }

  /** A bucket that sees no request, under a later clock and a wider skew. */
  lemma InSkewLater(cfg: Config, b: Bucket, w: Pruned, top: real, skew: real, top': real, skew': real)
    requires InSkew(cfg, b, w, top, skew) && top <= top' && skew <= skew'
    ensures InSkew(cfg, b, w, top', skew')
  {
    NarrowerAdmitted(cfg, b, w.admitted, skew, skew');
  }

  /** A request widens the skew by what it is behind; no client loses more than that. */
  lemma RequestKeepsInSkew(cfg: Config, hits: map<Key, seq<real>>, admitted: map<Key, seq<Hit>>,
                           top: real, skew: real, key: Key, e: Hit)
    requires AllInSkew(cfg, hits, admitted, top, skew) && skew >= 0.0
    ensures var s := PrunedNext(cfg, key.0, At(hits, admitted, key), e);
            AllInSkew(cfg, hits[key := s.deque], admitted[key := s.admitted],
                      Later(top, e.time), Later(skew, top - e.time))
  {
    var w := At(hits, admitted, key);
    var s := PrunedNext(cfg, key.0, w, e);
    var hits', admitted' := hits[key := s.deque], admitted[key := s.admitted];
    var top', skew' := Later(top, e.time), Later(skew, top - e.time);
    InSkewLater(cfg, key.0, w, top, skew, top, skew');
    SkewStep(cfg, key.0, w, top, skew', e);
    assert At(hits', admitted', key) == s;
    forall k: Key | k != key ensures InSkew(cfg, k.0, At(hits', admitted', k), top', skew') {
      assert At(hits', admitted', k) == At(hits, admitted, k);
      InSkewLater(cfg, k.0, At(hits, admitted, k), top, skew, top', skew');
    }
  }

  /** What the object keeps: the skew guarantee always, the exact history while nothing has
      been behind. */
  ghost predicate Kept(cfg: Config, hits: map<Key, seq<real>>, admitted: map<Key, seq<Hit>>, top: real, skew: real) {
    && skew >= 0.0 && AllInSkew(cfg, hits, admitted, top, skew)
    && (skew == 0.0 ==> AllInStep(cfg, hits, admitted, top))
  }

  /** What was admitted to `key` after a request that was passed on or not. */
  ghost function Recorded(admitted: map<Key, seq<Hit>>, key: Key, e: Hit, passed: bool): seq<Hit> {
    if passed then HistoryOf(admitted, key) + [e] else HistoryOf(admitted, key)
  }

  lemma SameDecision(h: seq<Hit>, e: Hit, passed: bool, limit: int, cfg: Config, b: Bucket)
    requires (if passed then h + [e] else h) == FullNext(cfg, b, h, e) && limit == LimitOf(cfg, b, e.write)
    ensures passed <==> CountFrom(h, e.time - cfg.window) < limit
  {
    assert |h + [e]| == |h| + 1;
  }

  lemma RequestKeeps(cfg: Config, hits: map<Key, seq<real>>, admitted: map<Key, seq<Hit>>,
                     top: real, skew: real, key: Key, e: Hit, dq: seq<real>, passed: bool)
    requires Kept(cfg, hits, admitted, top, skew)
    requires (dq, passed) == PrunedStep(At(hits, admitted, key).deque, e.time, cfg.window, LimitOf(cfg, key.0, e.write))
    ensures Kept(cfg, hits[key := dq], admitted[key := Recorded(admitted, key, e, passed)],
                 Later(top, e.time), Later(skew, top - e.time))
    ensures Later(skew, top - e.time) == 0.0 ==>
              (passed <==> CountFrom(HistoryOf(admitted, key), e.time - cfg.window) < LimitOf(cfg, key.0, e.write))
  {
    RequestKeepsInSkew(cfg, hits, admitted, top, skew, key, e);
    if Later(skew, top - e.time) == 0.0 {
      RequestKeepsInStep(cfg, hits, admitted, top, key, e);
      SameDecision(HistoryOf(admitted, key), e, passed, LimitOf(cfg, key.0, e.write), cfg, key.0);
    }
    assert PrunedNext(cfg, key.0, At(hits, admitted, key), e) == Pruned(dq, Recorded(admitted, key, e, passed));
  }

  method PruneDeque(hits: seq<real>, cutoff: real) returns (dq: seq<real>)
    ensures dq == Prune(hits, cutoff)
  {
    dq := hits;
    while dq != [] && dq[0] < cutoff
      invariant Prune(dq, cutoff) == Prune(hits, cutoff)
      decreases |dq|
    {
      dq := dq[1..];
    }
  }

  /** Prune, compare with the limit, append. */
  method Decide(d: seq<real>, now: real, window: real, limit: int) returns (dq: seq<real>, passed: bool)
    ensures (dq, passed) == PrunedStep(d, now, window, limit)
  {
    dq := PruneDeque(d, now - window);
    passed := |dq| < limit;
    if passed { dq := dq + [now]; }
  }

  class RateLimitMiddleware {
    const cfg: Config
    var hits: map<Key, seq<real>>
    ghost var admitted: map<Key, seq<Hit>>
    /** The latest clock value that entered the lock, and the furthest any request was behind
        it; zero while requests enter in clock order. */
    ghost var top: real
    ghost var skew: real

    ghost predicate Valid()
      reads this
    {
      Kept(cfg, hits, admitted, top, skew)
    }

    constructor (cfg: Config, now: real)
      ensures Valid() && skew == 0.0 && top == now && this.cfg == cfg && admitted == map[]
    {
      this.cfg := cfg;
      hits, admitted, top, skew := map[], map[], now, 0.0;
    }

    /** Whether the request is passed on; False is a 429 answer.  Counted are the paths under
        /plc/ and, except from the loopback addresses, the login and refresh paths; a request
        is passed on when its own client has fewer entries in the pruned deque than its limit
        allows, which for /plc/ depends on the method. */
    method Call(r: Request, now: real) returns (passed: bool)
      requires Valid()
      modifies this
      ensures Valid()
      ensures !Counted(r) ==>
                passed && hits == old(hits) && admitted == old(admitted) && (top, skew) == (old(top), old(skew))
      ensures Counted(r) ==> top == Later(old(top), now) && skew == Later(old(skew), old(top) - now)
      ensures Counted(r) ==>
                var k := (if "/plc/" <= r.path then Plc else Auth, r.ip);
                var e := Hit(now, r.verb == "POST");
                var limit := if !("/plc/" <= r.path) then 10
                             else if r.verb == "POST" then cfg.writeLimit else cfg.limit;
                var live := Prune(At(old(hits), old(admitted), k).deque, now - cfg.window);
                && (passed <==> |live| < limit)
                && hits == old(hits)[k := if passed then live + [now] else live]
                && admitted == old(admitted)[k := Recorded(old(admitted), k, e, passed)]
                && (skew == 0.0 ==> (passed <==> CountFrom(HistoryOf(old(admitted), k), now - cfg.window) < limit))
    {
      BucketIs(r);
      var bucket := BucketOf(r);
      if bucket.None? { return true; }
      var dq;
      dq, passed := Enter((bucket.value, r.ip), now, IsWrite(r));
    }

    /** The locked section for a counted request. */
    method Enter(key: Key, now: real, write: bool) returns (dq: seq<real>, passed: bool)
      requires Valid()
      modifies this
      ensures Valid() && top == Later(old(top), now) && skew == Later(old(skew), old(top) - now)
      ensures admitted == old(admitted)[key := Recorded(old(admitted), key, Hit(now, write), passed)]
      ensures hits == old(hits)[key := dq]
      ensures (dq, passed) ==
              PrunedStep(At(old(hits), old(admitted), key).deque, now, cfg.window, LimitOf(cfg, key.0, write))
      ensures skew == 0.0 ==>
                (passed <==> CountFrom(HistoryOf(old(admitted), key), now - cfg.window) < LimitOf(cfg, key.0, write))
    {
      var d := if key in hits then hits[key] else [];
      dq, passed := Decide(d, now, cfg.window, LimitOf(cfg, key.0, write));
      RequestKeeps(cfg, hits, admitted, top, skew, key, Hit(now, write), dq, passed);
      Keep(key, Hit(now, write), dq, passed);
    }

    /** Store the deque, and with it the request. */
    method Keep(key: Key, ghost e: Hit, dq: seq<real>, ghost passed: bool)
      modifies this
      ensures hits == old(hits)[key := dq]
      ensures admitted == old(admitted)[key := Recorded(old(admitted), key, e, passed)]
      ensures top == Later(old(top), e.time) && skew == Later(old(skew), old(top) - e.time)
    {
      hits, admitted := hits[key := dq], admitted[key := Recorded(admitted, key, e, passed)];
      top, skew := Later(top, e.time), Later(skew, top - e.time);
    }

    /** What the limits guarantee of everything admitted so far, in whatever order it came:
        in every closed window shorter than the configured one by the skew, any client has
        at most the larger limit of requests in a bucket and at most the write limit of
        writes. */
    ghost method Guarantee(k: Key, x: real)
      requires Valid()
      ensures k.0.Plc? ==>
                && CountIn(HistoryOf(admitted, k), x, x + (cfg.window - skew), false)
                   <= Max(0, Max(cfg.limit, cfg.writeLimit))
                && CountIn(HistoryOf(admitted, k), x, x + (cfg.window - skew), true) <= Max(0, cfg.writeLimit)
      ensures k.0.Auth? ==> CountIn(HistoryOf(admitted, k), x, x + (cfg.window - skew), false) <= 10
    {
      assert InSkew(cfg, k.0, At(hits, admitted, k), top, skew);
      NarrowedBound(cfg, k.0, skew, HistoryOf(admitted, k), x);
    }
  }

  // ---- Whole runs ----

  function PrunedRun(cfg: Config, b: Bucket, s: Pruned, xs: seq<Hit>): Pruned
    decreases |xs|
  {
    if xs == [] then s else PrunedRun(cfg, b, PrunedNext(cfg, b, s, xs[0]), xs[1..])
  }

  ghost function FullRun(cfg: Config, b: Bucket, h: seq<Hit>, xs: seq<Hit>): seq<Hit>
    decreases |xs|
  {
    if xs == [] then h else FullRun(cfg, b, FullNext(cfg, b, h, xs[0]), xs[1..])
  }

  ghost predicate Forward(clock: real, xs: seq<Hit>)
    decreases |xs|
  {
    xs == [] || (clock <= xs[0].time && Forward(xs[0].time, xs[1..]))
  }

  lemma {:induction false} RunsAgree(cfg: Config, b: Bucket, s: Pruned, clock: real, xs: seq<Hit>)
    requires InStep(cfg, b, s.deque, s.admitted, clock) && Forward(clock, xs)
    ensures PrunedRun(cfg, b, s, xs).admitted == FullRun(cfg, b, s.admitted, xs)
    decreases |xs|
  {
    if xs != [] {
      PrunedRefinesFull(cfg, b, s, clock, xs[0]);
      RunsAgree(cfg, b, PrunedNext(cfg, b, s, xs[0]), xs[0].time, xs[1..]);
    }
  }

  lemma {:induction false} FullRunWellAdmitted(cfg: Config, b: Bucket, h: seq<Hit>, xs: seq<Hit>)
    requires WellAdmitted(cfg, b, h)
    ensures WellAdmitted(cfg, b, FullRun(cfg, b, h, xs))
    decreases |xs|
  {
    if xs != [] {
      assert (h + [xs[0]])[..|h|] == h;
      FullRunWellAdmitted(cfg, b, FullNext(cfg, b, h, xs[0]), xs[1..]);
    }
  }

  /** Over every run with a forward clock: the limiter with the pruned deque admits the very
      requests the limiter with the full history admits, and no closed window of the
      configured length holds more than the limits allow. */
  lemma PrunedLimiterIsExact(cfg: Config, b: Bucket, start: real, xs: seq<Hit>, x: real)
    requires Forward(start, xs)
    ensures var h := PrunedRun(cfg, b, Pruned([], []), xs).admitted;
            && h == FullRun(cfg, b, [], xs)
            && CountIn(h, x, x + cfg.window, false) <= Max(0, Max(LimitOf(cfg, b, false), LimitOf(cfg, b, true)))
            && CountIn(h, x, x + cfg.window, true) <= Max(0, LimitOf(cfg, b, true))
  {
    RunsAgree(cfg, b, Pruned([], []), start, xs);
    FullRunWellAdmitted(cfg, b, [], xs);
    WindowBound(cfg, b, FullRun(cfg, b, [], xs), x);
  }
}
