/** One full-state read of an apartment: two batched groups with a Modbus fallback, then
    nine groups read device by device, cut short once the PLC is known to be down. */
module FullState {
  import opened Common
  import opened FadePlan

  /** What the attempt to read one device ends in: a value, or an exception, after which the
      client is connected or not. */
  datatype Answer<V> = Value(v: V) | Raises(connected: bool)

  /** A device of a group: its key in the group, and what reading it would answer now. */
  datatype Device<V> = Device(key: string, answer: Answer<V>)

  type Group<V> = seq<Device<V>>

  ghost predicate DistinctKeys<V>(g: Group<V>) {
    forall i, j :: 0 <= i < j < |g| ==> g[i].key != g[j].key
  }

  /** The failure that tells a dead connection from a bad symbol. */
  predicate Fatal<V>(mock: bool, d: Device<V>) {
    !mock && d.answer == Raises(false)
  }

  /** How many of the devices are attempted: none if the PLC is down at the start, else all
      up to and including the first fatal one. */
  function Cut<V(==)>(mock: bool, down: bool, g: Group<V>): (n: nat)
    ensures n <= |g|
  {
    if down || g == [] then 0 else if Fatal(mock, g[0]) then 1 else 1 + Cut(mock, false, g[1..])
  }

  /** Exactly where the attempts stop: no failure before the last one is fatal, and if any
      device is left out after the first attempt, the last one was. */
  lemma {:induction false} CutPlace<V>(mock: bool, down: bool, g: Group<V>)
    ensures var n := Cut(mock, down, g);
            && (down ==> n == 0)
            && (forall i :: 0 <= i < n - 1 ==> !Fatal(mock, g[i]))
            && (!down && n < |g| ==> n > 0 && Fatal(mock, g[n - 1]))
  {
    if !down && g != [] && !Fatal(mock, g[0]) {
      CutPlace(mock, false, g[1..]);
      var n := Cut(mock, false, g[1..]);
      forall i | 0 <= i < n ensures !Fatal(mock, g[i]) {
        if i > 0 { assert g[i] == g[1..][i - 1]; }
      }
    }
  }

  /** Whether the PLC counts as down after the group. */
  ghost predicate DownAfter<V>(mock: bool, down: bool, g: Group<V>) {
    down || exists i :: 0 <= i < |g| && Fatal(mock, g[i])
  }

  lemma CutConcat<V>(mock: bool, down: bool, a: Group<V>, b: Group<V>)
    ensures Cut(mock, down, a + b) == Cut(mock, down, a) + Cut(mock, DownAfter(mock, down, a), b)
    ensures DownAfter(mock, down, a + b) <==> DownAfter(mock, DownAfter(mock, down, a), b)
    ensures DownAfter(mock, down, a) || Cut(mock, down, a) == |a|
  {
    if !down { CutConcatUp(mock, a, b); }
    assert forall i :: 0 <= i < |a| ==> (a + b)[i] == a[i];
    assert forall i :: 0 <= i < |b| ==> (a + b)[|a| + i] == b[i];
  }

  lemma {:induction false} CutConcatUp<V>(mock: bool, a: Group<V>, b: Group<V>)
    ensures Cut(mock, false, a + b) == Cut(mock, false, a) + Cut(mock, DownAfter(mock, false, a), b)
    ensures DownAfter(mock, false, a) || Cut(mock, false, a) == |a|
  {
    if a == [] {
      assert a + b == b;
    } else {
      assert (a + b)[1..] == a[1..] + b;
      CutConcatUp(mock, a[1..], b);
      assert DownAfter(mock, false, a) <==> Fatal(mock, a[0]) || DownAfter(mock, false, a[1..]) by {
        if exists i :: 0 <= i < |a| && Fatal(mock, a[i]) {
          var i :| 0 <= i < |a| && Fatal(mock, a[i]);
          if i > 0 { assert Fatal(mock, a[1..][i - 1]); }
        }
        if exists i :: 0 <= i < |a[1..]| && Fatal(mock, a[1..][i]) {
          var i :| 0 <= i < |a[1..]| && Fatal(mock, a[1..][i]);
          assert Fatal(mock, a[i + 1]);
        }
      }
    }
  }

  function Concat<V>(gs: seq<Group<V>>): Group<V> {
    if gs == [] then [] else Concat(gs[..|gs| - 1]) + gs[|gs| - 1]
  }

  /** The keys of the first `n` devices. */
  ghost function KeysTo<V>(g: Group<V>, n: nat): set<string>
    requires n <= |g|
  {
    if n == 0 then {} else KeysTo(g, n - 1) + {g[n - 1].key}
  }

  lemma {:induction false} SameKeys<V>(a: Group<V>, b: Group<V>, n: nat)
    requires n <= |a| == |b| && forall i :: 0 <= i < |a| ==> a[i].key == b[i].key
    ensures KeysTo(a, n) == KeysTo(b, n)
  {
    if n > 0 { SameKeys(a, b, n - 1); }
  }

  /** What the first `n` devices return when `cut` of the group are attempted. */
  ghost predicate OutFor<V>(g: Group<V>, n: nat, cut: nat, out: map<string, Option<V>>)
    requires n <= |g|
  {
    && out.Keys == KeysTo(g, n)
    && (forall i :: 0 <= i < n ==>
         && g[i].key in out
         && out[g[i].key] == if i < cut && g[i].answer.Value? then Some(g[i].answer.v) else None)
  }

  lemma OutNext<V>(g: Group<V>, n: nat, cut: nat, cut': nat, out: map<string, Option<V>>)
    requires n < |g| && DistinctKeys(g) && OutFor(g, n, cut, out)
    requires cut <= n && (cut' == cut || (cut == n && cut' == n + 1))
    ensures var entry := if n < cut' && g[n].answer.Value? then Some(g[n].answer.v) else None;
            OutFor(g, n + 1, cut', out[g[n].key := entry])
  {
  }

  /** One more device: it is attempted unless the PLC counts as down, and then a fatal
      failure takes it down. */
  lemma CutNext<V>(mock: bool, down: bool, g: Group<V>, i: nat, tried: Group<V>)
    requires i < |g| && tried == g[..Cut(mock, down, g[..i])]
    ensures var was := DownAfter(mock, down, g[..i]);
            && g[..Cut(mock, down, g[..i + 1])] == (if was then tried else tried + [g[i]])
            && (DownAfter(mock, down, g[..i + 1]) <==> was || Fatal(mock, g[i]))
            && (was || |tried| == i)
  {
    assert g[..i + 1] == g[..i] + [g[i]];
    CutConcat(mock, down, g[..i], [g[i]]);
    var was := DownAfter(mock, down, g[..i]);
    assert DownAfter(mock, was, [g[i]]) <==> was || Fatal(mock, [g[i]][0]);
  }

  /** One guarded read: a value, or nothing, and whether the failure took the PLC down. */
  method Attempt<V>(mock: bool, d: Device<V>) returns (entry: Option<V>, fatal: bool)
    ensures d.answer.Value? ==> entry == Some(d.answer.v) && !fatal
    ensures d.answer.Raises? ==> entry == None && (fatal <==> !mock && !d.answer.connected)
  {
    match d.answer {
      case Value(v) => entry, fatal := Some(v), false;
      case Raises(connected) => entry, fatal := None, !mock && !connected;
    }
  }

  /** The closure _read_group; `down` is the flag it shares with the other groups. */
  method ReadGroup<V(==)>(mock: bool, down: bool, g: Group<V>)
    returns (out: map<string, Option<V>>, down': bool, tried: Group<V>)
    requires DistinctKeys(g)
    ensures tried == g[..Cut(mock, down, g)] && (down' <==> DownAfter(mock, down, g))
    ensures OutFor(g, |g|, |tried|, out)
  {
    out, down', tried := map[], down, [];
    for i := 0 to |g|
      invariant tried == g[..Cut(mock, down, g[..i])] && (down' <==> DownAfter(mock, down, g[..i]))
      invariant OutFor(g, i, |tried|, out)
    {
      CutNext(mock, down, g, i, tried);
      ghost var cut := |tried|;
      var entry := None;
      if !down' {
        tried := tried + [g[i]];
        entry, down' := Attempt(mock, g[i]);
      }
      OutNext(g, i, cut, |tried|, out);
      out := out[g[i].key := entry];
    }
    assert g[..|g|] == g;
  }

  /** The position of device `i` of group `g` among all devices in group order. */
  ghost function Position<V>(gs: seq<Group<V>>, g: nat, i: nat): nat
    requires g < |gs|
  {
    |Concat(gs[..g])| + i
  }

  /** What group `g` returns when `cut` devices are attempted in all. */
  ghost predicate GroupResult<V>(gs: seq<Group<V>>, g: nat, out: map<string, Option<V>>, cut: nat)
    requires g < |gs|
  {
    && out.Keys == KeysTo(gs[g], |gs[g]|)
    && (forall i :: 0 <= i < |gs[g]| ==>
         && gs[g][i].key in out
         && out[gs[g][i].key] ==
            if Position(gs, g, i) < cut && gs[g][i].answer.Value? then Some(gs[g][i].answer.v) else None)
  }

  /** Where the attempts stop: not before a failure that found the client disconnected, just
      after the first one, and at once if it was disconnected at the start. */
  ghost predicate StopsRight<V>(mock: bool, connected: bool, all: Group<V>, tried: Group<V>) {
    && tried <= all
    && (!mock && !connected ==> tried == [])
    && (forall k :: 0 <= k < |tried| - 1 ==> mock || tried[k].answer != Raises(false))
    && ((mock || connected) && |tried| < |all| ==> tried != [] && !mock && tried[|tried| - 1].answer == Raises(false))
  }

  /** Device `i` of group `g` has its value exactly when it was attempted and answered, and so
      every device has it when all answer. */
  ghost predicate ValuesRight<V>(mock: bool, connected: bool, gs: seq<Group<V>>, outs: seq<map<string, Option<V>>>,
                                 tried: Group<V>)
    requires |outs| == |gs|
  {
    && (forall g, i :: 0 <= g < |gs| && 0 <= i < |gs[g]| ==>
         && gs[g][i].key in outs[g]
         && outs[g][gs[g][i].key] ==
            if |Concat(gs[..g])| + i < |tried| && gs[g][i].answer.Value? then Some(gs[g][i].answer.v) else None)
    && ((mock || connected) && AllAnswer(gs) ==>
         && tried == Concat(gs)
         && forall g, i :: 0 <= g < |gs| && 0 <= i < |gs[g]| ==> outs[g][gs[g][i].key] == Some(gs[g][i].answer.v))
  }

  /** The nine groups in order.  The attempts made are a prefix of all devices in group
      order, cut just after the first failure that found the client disconnected; every group
      returns exactly its device keys, with a value for the devices that answered. */
  method ReadGroups<V(==)>(mock: bool, connected: bool, gs: seq<Group<V>>)
    returns (outs: seq<map<string, Option<V>>>, tried: Group<V>)
    requires forall g :: 0 <= g < |gs| ==> DistinctKeys(gs[g])
    ensures |outs| == |gs|
    ensures tried == Concat(gs)[..Cut(mock, !mock && !connected, Concat(gs))]
    ensures forall g :: 0 <= g < |gs| ==> GroupResult(gs, g, outs[g], |tried|)
    ensures StopsRight(mock, connected, Concat(gs), tried)
    ensures ValuesRight(mock, connected, gs, outs, tried)
  {
    var down := !mock && !connected;
    ghost var start := down;
    outs, tried := [], [];
    for g := 0 to |gs|
      invariant |outs| == g
      invariant tried == Concat(gs[..g])[..Cut(mock, start, Concat(gs[..g]))]
      invariant down <==> DownAfter(mock, start, Concat(gs[..g]))
      invariant forall h :: 0 <= h < g ==> GroupResult(gs, h, outs[h], |tried|)
    {
      var out, down', more := ReadGroup(mock, down, gs[g]);
      NextGroup(mock, start, gs, g, outs, out, tried, more);
      outs, down, tried := outs + [out], down', tried + more;
    }
    assert gs[..|gs|] == gs;
    CutPlace(mock, start, Concat(gs));
    ValuesFollow(mock, connected, gs, outs, tried);
  }

  lemma ValuesFollow<V>(mock: bool, connected: bool, gs: seq<Group<V>>, outs: seq<map<string, Option<V>>>,
                        tried: Group<V>)
    requires |outs| == |gs| && tried == Concat(gs)[..Cut(mock, !mock && !connected, Concat(gs))]
    requires forall g :: 0 <= g < |gs| ==> GroupResult(gs, g, outs[g], |tried|)
    ensures ValuesRight(mock, connected, gs, outs, tried)
  {
    assert forall g, i :: 0 <= g < |gs| && 0 <= i < |gs[g]| ==> Position(gs, g, i) == |Concat(gs[..g])| + i;
    if (mock || connected) && AllAnswer(gs) { AllTried(mock, gs); }
  }

  /** Nothing raises. */
  ghost predicate AllAnswer<V>(gs: seq<Group<V>>) {
    forall g, i :: 0 <= g < |gs| && 0 <= i < |gs[g]| ==> gs[g][i].answer.Value?
  }

  lemma {:induction false} ConcatAnswers<V>(gs: seq<Group<V>>)
    requires AllAnswer(gs)
    ensures forall i :: 0 <= i < |Concat(gs)| ==> Concat(gs)[i].answer.Value?
  {
    if gs != [] {
      var n := |gs| - 1;
      ConcatAnswers(gs[..n]);
    }
  }

  lemma AllTried<V>(mock: bool, gs: seq<Group<V>>)
    requires AllAnswer(gs)
    ensures Cut(mock, false, Concat(gs)) == |Concat(gs)|
    ensures forall g, i :: 0 <= g < |gs| && 0 <= i < |gs[g]| ==> Position(gs, g, i) < |Concat(gs)|
  {
    ConcatAnswers(gs);
    CutPlace(mock, false, Concat(gs));
    assert gs[..|gs|] == gs;
    forall g, i | 0 <= g < |gs| && 0 <= i < |gs[g]| ensures Position(gs, g, i) < |Concat(gs)| {
      EndBefore(gs, |gs|, g);
    }
  }

  lemma ConcatNext<V>(gs: seq<Group<V>>, g: nat)
    requires g < |gs|
    ensures Concat(gs[..g + 1]) == Concat(gs[..g]) + gs[g]
  {
    assert gs[..g + 1][..g] == gs[..g];
  }

  /** One more group: attempts and results after it. */
  lemma NextGroup<V>(mock: bool, start: bool, gs: seq<Group<V>>, g: nat, outs: seq<map<string, Option<V>>>,
                     out: map<string, Option<V>>, tried: Group<V>, more: Group<V>)
    requires g < |gs| && |outs| == g
    requires tried == Concat(gs[..g])[..Cut(mock, start, Concat(gs[..g]))]
    requires more == gs[g][..Cut(mock, DownAfter(mock, start, Concat(gs[..g])), gs[g])]
    requires forall h :: 0 <= h < g ==> GroupResult(gs, h, outs[h], |tried|)
    requires OutFor(gs[g], |gs[g]|, |more|, out)
    ensures tried + more == Concat(gs[..g + 1])[..Cut(mock, start, Concat(gs[..g + 1]))]
    ensures DownAfter(mock, start, Concat(gs[..g + 1])) <==>
            DownAfter(mock, DownAfter(mock, start, Concat(gs[..g])), gs[g])
    ensures forall h :: 0 <= h < g ==> GroupResult(gs, h, outs[h], |tried + more|)
    ensures GroupResult(gs, g, out, |tried + more|)
  {
    var before := Concat(gs[..g]);
    ConcatNext(gs, g);
    CutConcat(mock, start, before, gs[g]);
    PrefixConcat(before, gs[g], |tried|, |more|);
    forall h | 0 <= h < g ensures GroupResult(gs, h, outs[h], |tried + more|) {
      if more != [] { EarlierDone(gs, g, h, outs[h], |tried + more|); }
    }
  }

  lemma PrefixConcat<T>(a: seq<T>, b: seq<T>, m: nat, n: nat)
    requires m <= |a| && n <= |b| && (m == |a| || n == 0)
    ensures a[..m] + b[..n] == (a + b)[..m + n]
  {
  }

  /** A group that was read in full keeps its result when later groups are attempted. */
  lemma EarlierDone<V>(gs: seq<Group<V>>, g: nat, h: nat, out: map<string, Option<V>>, cut: nat)
    requires h < g <= |gs| && |Concat(gs[..g])| <= cut
    requires GroupResult(gs, h, out, |Concat(gs[..g])|)
    ensures GroupResult(gs, h, out, cut)
  {
    EndBefore(gs, g, h);
  }

  lemma {:induction false} EndBefore<V>(gs: seq<Group<V>>, g: nat, h: nat)
    requires h < g <= |gs|
    ensures Position(gs, h, |gs[h]|) <= |Concat(gs[..g])|
    decreases g
  {
    ConcatNext(gs, g - 1);
    if h < g - 1 { EndBefore(gs, g - 1, h); }
  }

  // ---- The batched groups ----

  /** A device read in a batch: its channel and its variable. */
  datatype Batched = Batched(channel: int, variable: string)

  ghost predicate DistinctChannels(g: seq<Batched>) {
    forall i, j :: 0 <= i < j < |g| ==> g[i].channel != g[j].channel
  }

  /** `raw` is the answer of the sum read, empty if it failed; a value that does not decode
      is None. */
  method BatchReadGroup(g: seq<Batched>, raw: map<string, Option<int>>) returns (out: map<int, Option<int>>)
    requires DistinctChannels(g)
    ensures forall c :: c in out <==> exists i :: 0 <= i < |g| && g[i].channel == c
    ensures forall i :: 0 <= i < |g| ==>
              g[i].channel in out && out[g[i].channel] == if g[i].variable in raw then raw[g[i].variable] else None
  {
    out := map[];
    for i := 0 to |g|
      invariant forall c :: c in out <==> exists j :: 0 <= j < i && g[j].channel == c
      invariant forall j :: 0 <= j < i ==>
        g[j].channel in out && out[g[j].channel] == if g[j].variable in raw then raw[g[j].variable] else None
    {
      out := out[g[i].channel := if g[i].variable in raw then raw[g[i].variable] else None];
    }
  }

  const DALI_BRIDGED := 16
  const RELAYS_BRIDGED := 4

  /** Modbus fills empty entries of bridged channels and touches nothing else: an ADS value
      is never replaced.  `modbus` holds the registers that answer. */
  method FillGaps(values: map<int, Option<int>>, g: seq<Batched>, ready: bool, bridged: int, modbus: map<int, int>)
    returns (filled: map<int, Option<int>>)
    requires DistinctChannels(g)
    requires forall c :: c in values <==> exists i :: 0 <= i < |g| && g[i].channel == c
    ensures filled.Keys == values.Keys
    ensures forall c :: c in values ==>
              filled[c] == if values[c].Some? then values[c]
                           else if ready && 1 <= c <= bridged && c in modbus then Some(modbus[c])
                           else None
  {
    if !ready { return values; }
    filled := values;
    for i := 0 to |g|
      invariant filled.Keys == values.Keys
      invariant forall j :: 0 <= j < i ==>
        var c := g[j].channel;
        filled[c] == if values[c].Some? then values[c]
                     else if 1 <= c <= bridged && c in modbus then Some(modbus[c])
                     else None
      invariant forall j :: i <= j < |g| ==> filled[g[j].channel] == values[g[j].channel]
    {
      var c := g[i].channel;
      if (c in filled && filled[c].Some?) || !(1 <= c <= bridged) {
      } else if c in modbus {
        filled := filled[c := Some(modbus[c])];
      }
    }
  }

  /** The DALI and relay part of the read: `dali` and `relays` are what ADS answers, decoded;
      `levels` are Modbus level bytes by channel, `coils` relay states by channel.  Every
      configured channel gets its ADS value if there is one, else the bridged Modbus value,
      else nothing. */
  method ReadOutputs(daliDevices: seq<Batched>, relayDevices: seq<Batched>,
                     dali: map<string, Option<int>>, relays: map<string, Option<int>>,
                     ready: bool, levels: map<int, int>, coils: map<int, int>)
    returns (daliOut: map<int, Option<int>>, relayOut: map<int, Option<int>>)
    requires DistinctChannels(daliDevices) && DistinctChannels(relayDevices)
    ensures forall i :: 0 <= i < |daliDevices| ==>
              var d := daliDevices[i];
              && d.channel in daliOut
              && daliOut[d.channel] ==
                 if d.variable in dali && dali[d.variable].Some? then dali[d.variable]
                 else if ready && 1 <= d.channel <= 16 && d.channel in levels then Some(ByteToPct(levels[d.channel]))
                 else None
    ensures forall i :: 0 <= i < |relayDevices| ==>
              var d := relayDevices[i];
              && d.channel in relayOut
              && relayOut[d.channel] ==
                 if d.variable in relays && relays[d.variable].Some? then relays[d.variable]
                 else if ready && 1 <= d.channel <= 4 && d.channel in coils then Some(coils[d.channel])
                 else None
  {
    var d := BatchReadGroup(daliDevices, dali);
    daliOut := FillGaps(d, daliDevices, ready, DALI_BRIDGED, map c | c in levels :: ByteToPct(levels[c]));
    var r := BatchReadGroup(relayDevices, relays);
    relayOut := FillGaps(r, relayDevices, ready, RELAYS_BRIDGED, coils);
  }

  /** Reading one device in another way leaves the number of attempts alone, as long as
      neither outcome is fatal. */
  lemma CutIgnoresSymbolError<V>(mock: bool, down: bool, all: Group<V>, p: nat, v: V)
    requires p < |all| && all[p].answer == Raises(true)
    ensures Cut(mock, down, all[p := all[p].(answer := Value(v))]) == Cut(mock, down, all)
  {
    var d := all[p];
    var fixed := d.(answer := Value(v));
    var a, b := all[..p], all[p + 1..];
    assert all == a + [d] + b && all[p := fixed] == a + [fixed] + b;
    CutConcat(mock, down, a + [d], b);
    CutConcat(mock, down, a, [d]);
    CutConcat(mock, down, a + [fixed], b);
    CutConcat(mock, down, a, [fixed]);
  }

  /** The groups with device `i` of group `g` answering `v` instead. */
  function Healed<V>(gs: seq<Group<V>>, g: nat, i: nat, v: V): (r: seq<Group<V>>)
    requires g < |gs| && i < |gs[g]|
    ensures |r| == |gs| && forall h :: 0 <= h < |r| ==> |r[h]| == |gs[h]|
  {
    gs[g := gs[g][i := gs[g][i].(answer := Value(v))]]
  }

  lemma {:induction false} HealedConcat<V>(gs: seq<Group<V>>, g: nat, i: nat, v: V)
    requires g < |gs| && i < |gs[g]|
    ensures Position(gs, g, i) < |Concat(gs)| && Concat(gs)[Position(gs, g, i)] == gs[g][i]
    ensures Concat(Healed(gs, g, i, v)) == Concat(gs)[Position(gs, g, i) := gs[g][i].(answer := Value(v))]
    decreases |gs|
  {
    var n := |gs| - 1;
    var healed := Healed(gs, g, i, v);
    if g < n {
      HealedConcat(gs[..n], g, i, v);
      assert healed[..n] == Healed(gs[..n], g, i, v) && healed[n] == gs[n];
      assert gs[..n][..g] == gs[..g];
    } else {
      assert healed[..n] == gs[..n];
    }
  }

  lemma {:induction false} SamePositions<V>(gs: seq<Group<V>>, hs: seq<Group<V>>, h: nat)
    requires |gs| == |hs| && h <= |gs| && forall k :: 0 <= k < |gs| ==> |gs[k]| == |hs[k]|
    ensures |Concat(gs[..h])| == |Concat(hs[..h])|
  {
    if h > 0 {
      SamePositions(gs, hs, h - 1);
      ConcatNext(gs, h - 1);
      ConcatNext(hs, h - 1);
    }
  }

  /** A symbol error blanks its own device and nothing else: every group `h` returns the
      keys, and every other device the value, that it would return if the device had
      answered. */
  lemma SymbolErrorIsLocal<V>(mock: bool, down: bool, gs: seq<Group<V>>, g: nat, i: nat, v: V,
                              h: nat, out: map<string, Option<V>>, healed: map<string, Option<V>>)
    requires g < |gs| && i < |gs[g]| && gs[g][i].answer == Raises(true) && h < |gs|
    requires GroupResult(gs, h, out, Cut(mock, down, Concat(gs)))
    requires GroupResult(Healed(gs, g, i, v), h, healed, Cut(mock, down, Concat(Healed(gs, g, i, v))))
    ensures healed.Keys == out.Keys
    ensures forall j :: 0 <= j < |gs[h]| ==> gs[h][j].key in out
    ensures forall j :: 0 <= j < |gs[h]| && !(h == g && j == i) ==> healed[gs[h][j].key] == out[gs[h][j].key]
    ensures h == g ==> out[gs[g][i].key] == None
  {
    var hs := Healed(gs, g, i, v);
    HealedConcat(gs, g, i, v);
    CutIgnoresSymbolError(mock, down, Concat(gs), Position(gs, g, i), v);
    SamePositions(gs, hs, h);
    SameKeys(gs[h], hs[h], |gs[h]|);
    forall j | 0 <= j < |gs[h]| && !(h == g && j == i) ensures healed[gs[h][j].key] == out[gs[h][j].key] {
      assert hs[h][j] == gs[h][j];
    }
  }
}
