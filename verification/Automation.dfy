/** Automation rules of one apartment: the registry's rule table on top of the
    notification manager's listener table, the dispatch of queued events to rules, and the
    execution of a fired rule against the database row it has at that moment. */
module Automation {
  import opened Common
  import opened Notifications
  import P = Protocols

  type RuleId = nat

  /** The closure created for a rule; `token` is its object identity. */
  datatype Callback = Callback(token: nat, rule: RuleId, expected: bool)

  datatype Trigger = Numbered(kind: string, index: int) | Named(gvlName: string)

  datatype ActionType = Dali | Relay | Curtain | Appliance | Toggle

  /** The stored action text: its reading as an integer, if it has one, and its
      stripped lower-case form. */
  datatype ActionValue = ActionValue(number: Option<int>, text: string)

  datatype Action = Action(kind: ActionType, channel: int, gvlName: string, value: ActionValue)

  datatype Rule = Rule(enabled: bool, trigger: Trigger, triggerState: bool, action: Action)

  type Rules = map<RuleId, Rule>

  /** The trigger objects in the registry, with the ADS variable each one watches. */
  type Inputs = map<Trigger, string>

  datatype State = State(table: Table<Callback>, loaded: map<RuleId, (string, Callback)>, nextToken: nat)

  const INITIAL := State(Table(map[], map[], map[]), map[], 0)

  // ---- The operations ----

  function SubscribeRule(s: State, id: RuleId, rule: Rule, inputs: Inputs, grant: Option<Handle>): (State, bool)
  {
    if rule.trigger !in inputs then (s, false)
    else
      var v := inputs[rule.trigger];
      var cb := Callback(s.nextToken, id, rule.triggerState);
      var (t', ok) := Subscribe(s.table, v, "BOOL", cb, grant);
      (State(t', if ok then s.loaded[id := (v, cb)] else s.loaded, s.nextToken + 1), ok)
  }

  function Remove(s: State, id: RuleId): State {
    if id !in s.loaded then s
    else
      var (v, cb) := s.loaded[id];
      s.(table := Unsubscribe(s.table, v, Some(cb)), loaded := s.loaded - {id})
  }

  function Reload(s: State, id: RuleId, rules: Rules, inputs: Inputs, grant: Option<Handle>): State {
    var s1 := Remove(s, id);
    if id in rules && rules[id].enabled then SubscribeRule(s1, id, rules[id], inputs, grant).0 else s1
  }

  /** Start-up: the enabled rules in query order, each with what the PLC answers. */
  function Load(s: State, ids: seq<RuleId>, rules: Rules, inputs: Inputs, grants: seq<Option<Handle>>): State
    requires |grants| == |ids| && forall id :: id in ids ==> id in rules
    decreases |ids|
  {
    if ids == [] then s
    else Load(SubscribeRule(s, ids[0], rules[ids[0]], inputs, grants[0]).0, ids[1..], rules, inputs, grants[1..])
  }

  /** A run after start-up.  Database rows and trigger objects may differ from one
      operation to the next in any way. */
  datatype Op =
    | DoReload(id: RuleId, rules: Rules, inputs: Inputs, grant: Option<Handle>)
    | DoRemove(id: RuleId)

  function Step(s: State, op: Op): State {
    match op
    case DoReload(id, rules, inputs, grant) => Reload(s, id, rules, inputs, grant)
    case DoRemove(id) => Remove(s, id)
  }

  function Run(s: State, ops: seq<Op>): State
    decreases |ops|
  {
    if ops == [] then s else Run(Step(s, ops[0]), ops[1..])
  }

  // ---- The one-table reading of the same operations ----

  /** What the two tables are meant to say: each loaded rule, the variable it watches and
      the value it waits for. */
  type Watching = map<RuleId, (string, bool)>

  ghost predicate Watched(w: Watching, v: string) {
    exists r :: r in w && w[r].0 == v
  }

  ghost function WatchRule(w: Watching, id: RuleId, rule: Rule, inputs: Inputs, grant: Option<Handle>): Watching {
    if rule.trigger in inputs && (Watched(w, inputs[rule.trigger]) || grant.Some?) then
      w[id := (inputs[rule.trigger], rule.triggerState)]
    else w
  }

  ghost function WatchStep(w: Watching, op: Op): Watching {
    match op
    case DoRemove(id) => w - {id}
    case DoReload(id, rules, inputs, grant) =>
      if id in rules && rules[id].enabled then WatchRule(w - {id}, id, rules[id], inputs, grant) else w - {id}
  }

  ghost function WatchRun(w: Watching, ops: seq<Op>): Watching
    decreases |ops|
  {
    if ops == [] then w else WatchRun(WatchStep(w, ops[0]), ops[1..])
  }

  ghost function WatchLoad(w: Watching, ids: seq<RuleId>, rules: Rules, inputs: Inputs,
                           grants: seq<Option<Handle>>): Watching
    requires |grants| == |ids| && forall id :: id in ids ==> id in rules
    decreases |ids|
  {
    if ids == [] then w
    else WatchLoad(WatchRule(w, ids[0], rules[ids[0]], inputs, grants[0]), ids[1..], rules, inputs, grants[1..])
  }

  ghost function View(s: State): Watching {
    map r | r in s.loaded :: (s.loaded[r].0, s.loaded[r].1.expected)
  }

  // ---- The joint invariant ----

  /** The rule table and the listener table are in bijection, and every listened variable
      has a handle entry. */
  ghost predicate Coherent(s: State) {
    && WellFormed(s.table) && Covered(s.table)
    && EntriesListed(s) && ListedEntered(s)
  }

  /** The two tables once the callback of rule `id` is gone from both. */
  lemma LostListener(s: State, s': State, id: RuleId)
    requires Coherent(s) && id in s.loaded && s'.loaded == s.loaded - {id}
    requires forall w, x :: x in Listeners(s'.table, w) <==>
               x in Listeners(s.table, w) && !(w == s.loaded[id].0 && x == s.loaded[id].1)
    ensures EntriesListed(s') && ListedEntered(s')
  {
    forall r | r in s'.loaded
      ensures s'.loaded[r].1.rule == r && s'.loaded[r].1 in Listeners(s'.table, s'.loaded[r].0)
    {
      assert s.loaded[r].1 in Listeners(s.table, s.loaded[r].0) && s.loaded[id].1.rule == id;
    }
    forall w, x | x in Listeners(s'.table, w) ensures x.rule in s'.loaded && s'.loaded[x.rule] == (w, x) {
      assert x in Listeners(s.table, w);
    }
  }

  lemma RemoveKeepsCoherent(s: State, id: RuleId)
    requires Coherent(s)
    ensures Coherent(Remove(s, id)) && View(Remove(s, id)) == View(s) - {id}
  {
    if id in s.loaded {
      var (v, cb) := s.loaded[id];
      var op: Notifications.Op<Callback> := DoUnsubscribe(v, Some(cb));
      StepKeepsWellFormed(s.table, op);
      StepKeepsCovered(s.table, op);
      UnsubscribeExact(s.table, v, cb);
      LostListener(s, Remove(s, id), id);
    }
  }

  /** A variable has a handle entry exactly when some loaded rule watches it. */
  lemma RegisteredIffWatched(s: State, v: string)
    requires Coherent(s)
    ensures v in s.table.handles <==> Watched(View(s), v)
  {
    if v in s.table.handles {
      assert s.table.subs[v] != [];
      var cb := Listeners(s.table, v)[0];
      assert cb in Listeners(s.table, v);
      assert cb.rule in View(s);
    }
    if Watched(View(s), v) {
      var r :| r in View(s) && View(s)[r].0 == v;
      assert s.loaded[r].1 in Listeners(s.table, v);
    }
  }

  /** The rules' entries point at listed callbacks, and the listed callbacks at entries. */
  ghost predicate EntriesListed(s: State) {
    forall r :: r in s.loaded ==> s.loaded[r].1.rule == r && s.loaded[r].1 in Listeners(s.table, s.loaded[r].0)
  }

  ghost predicate ListedEntered(s: State) {
    forall v, cb :: cb in Listeners(s.table, v) ==> cb.rule in s.loaded && s.loaded[cb.rule] == (v, cb)
  }

  lemma GainedEntry(s: State, s': State, id: RuleId, v: string, cb: Callback)
    requires EntriesListed(s) && cb.rule == id && s'.loaded == s.loaded[id := (v, cb)]
    requires forall w :: Listeners(s'.table, w) == Listeners(s.table, w) + if w == v then [cb] else []
    ensures EntriesListed(s')
  {
    forall r | r in s'.loaded
      ensures s'.loaded[r].1.rule == r && s'.loaded[r].1 in Listeners(s'.table, s'.loaded[r].0)
    {
      if r != id { assert s.loaded[r].1 in Listeners(s.table, s.loaded[r].0); }
    }
  }

  lemma GainedCallback(s: State, s': State, id: RuleId, v: string, cb: Callback)
    requires ListedEntered(s) && id !in s.loaded && cb.rule == id && s'.loaded == s.loaded[id := (v, cb)]
    requires forall w :: Listeners(s'.table, w) == Listeners(s.table, w) + if w == v then [cb] else []
    ensures ListedEntered(s')
  {
    forall w, x | x in Listeners(s'.table, w) ensures x.rule in s'.loaded && s'.loaded[x.rule] == (w, x) {
      if x in Listeners(s.table, w) {
        assert x.rule in s.loaded;
      } else {
        assert w == v && x == cb;
      }
    }
  }

  /** A table that gained the callback of a new rule stays in bijection. */
  lemma GainedListener(s: State, s': State, id: RuleId, v: string, cb: Callback)
    requires Coherent(s) && id !in s.loaded && cb.rule == id
    requires WellFormed(s'.table) && Covered(s'.table) && s'.loaded == s.loaded[id := (v, cb)]
    requires forall w :: Listeners(s'.table, w) == Listeners(s.table, w) + if w == v then [cb] else []
    ensures Coherent(s') && View(s') == View(s)[id := (v, cb.expected)]
  {
    GainedEntry(s, s', id, v, cb);
    GainedCallback(s, s', id, v, cb);
    GainedView(s, s', id, v, cb);
  }

  lemma GainedView(s: State, s': State, id: RuleId, v: string, cb: Callback)
    requires s'.loaded == s.loaded[id := (v, cb)]
    ensures View(s') == View(s)[id := (v, cb.expected)]
  {
  }

  lemma SubscribeRuleKeepsCoherent(s: State, id: RuleId, rule: Rule, inputs: Inputs, grant: Option<Handle>)
    requires Coherent(s) && id !in s.loaded
    ensures var s' := SubscribeRule(s, id, rule, inputs, grant).0;
            Coherent(s') && View(s') == WatchRule(View(s), id, rule, inputs, grant)
  {
    if rule.trigger in inputs {
      var v := inputs[rule.trigger];
      var cb := Callback(s.nextToken, id, rule.triggerState);
      assert cb !in Listeners(s.table, v);
      var (s', ok) := SubscribeRule(s, id, rule, inputs, grant);
      TableAfter(s.table, s'.table, v, cb, grant, ok);
      RegisteredIffWatched(s, v);
      if ok {
        GainedListener(s, s', id, v, cb);
      } else {
        assert s'.loaded == s.loaded && s'.table.subs == s.table.subs;
        assert forall w :: Listeners(s'.table, w) == Listeners(s.table, w);
      }
    }
  }

  /** The listener table after subscribing a callback nobody listed. */
  lemma TableAfter(t: Table<Callback>, t': Table<Callback>, v: string, cb: Callback, grant: Option<Handle>, ok: bool)
    requires WellFormed(t) && Covered(t) && cb !in Listeners(t, v)
    requires (t', ok) == Subscribe(t, v, "BOOL", cb, grant)
    ensures WellFormed(t') && Covered(t')
    ensures ok <==> v in t.handles || grant.Some?
    ensures ok ==> forall w :: Listeners(t', w) == Listeners(t, w) + if w == v then [cb] else []
    ensures !ok ==> t'.subs == t.subs
  {
    var op := DoSubscribe(v, "BOOL", cb, grant);
    StepKeepsWellFormed(t, op);
    StepKeepsCovered(t, op);
    SubscribeAccepted(t, v, "BOOL", cb, grant);
    if !ok { RefusedSubscribe(t, v, "BOOL", cb); }
  }

  lemma StepKeepsCoherent(s: State, op: Op)
    requires Coherent(s)
    ensures Coherent(Step(s, op)) && View(Step(s, op)) == WatchStep(View(s), op)
  {
    RemoveKeepsCoherent(s, op.id);
    if op.DoReload? && op.id in op.rules && op.rules[op.id].enabled {
      SubscribeRuleKeepsCoherent(Remove(s, op.id), op.id, op.rules[op.id], op.inputs, op.grant);
    }
  }

  lemma {:induction false} LoadKeepsCoherent(s: State, ids: seq<RuleId>, rules: Rules, inputs: Inputs,
                                             grants: seq<Option<Handle>>)
    requires |grants| == |ids| && forall id :: id in ids ==> id in rules
    requires Coherent(s) && Distinct(ids) && forall id :: id in ids ==> id !in s.loaded
    ensures var s' := Load(s, ids, rules, inputs, grants);
            Coherent(s') && View(s') == WatchLoad(View(s), ids, rules, inputs, grants)
    decreases |ids|
  {
    if ids != [] {
      SubscribeRuleKeepsCoherent(s, ids[0], rules[ids[0]], inputs, grants[0]);
      assert forall i :: 0 <= i < |ids[1..]| ==> ids[1..][i] == ids[i + 1] && ids[0] != ids[i + 1];
      var s1 := SubscribeRule(s, ids[0], rules[ids[0]], inputs, grants[0]).0;
      LoadKeepsCoherent(s1, ids[1..], rules, inputs, grants[1..]);
    }
  }

  lemma {:induction false} RunKeepsCoherent(s: State, ops: seq<Op>)
    requires Coherent(s)
    ensures Coherent(Run(s, ops)) && View(Run(s, ops)) == WatchRun(View(s), ops)
    decreases |ops|
  {
    if ops != [] {
      StepKeepsCoherent(s, ops[0]);
      RunKeepsCoherent(Step(s, ops[0]), ops[1..]);
    }
  }

  /** A reload of a rule that is there and enabled leaves it loaded exactly when its trigger
      exists and the PLC gives a handle, or another rule has the variable already; it then
      watches the trigger's variable for the row's state.  Any other reload leaves it out, and
      every other rule is as it was. */
  lemma ReloadWatches(s: State, id: RuleId, rules: Rules, inputs: Inputs, grant: Option<Handle>, r: RuleId)
    requires Coherent(s)
    ensures var w, w' := View(s), View(Reload(s, id, rules, inputs, grant));
            && (r != id ==> (r in w' <==> r in w) && (r in w ==> w'[r] == w[r]))
            && (id in w' <==>
                 && id in rules && rules[id].enabled && rules[id].trigger in inputs
                 && (grant.Some? || exists o :: o in w && o != id && w[o].0 == inputs[rules[id].trigger]))
            && (id in w' ==> w'[id] == (inputs[rules[id].trigger], rules[id].triggerState))
  {
    StepKeepsCoherent(s, DoReload(id, rules, inputs, grant));
    if id in rules && rules[id].trigger in inputs { WatchedBeside(View(s), id, inputs[rules[id].trigger]); }
  }

  /** At start-up, when the PLC gives every handle asked for, each enabled rule whose trigger
      exists watches that trigger's variable for its state, and no other rule is loaded. */
  lemma {:induction false} StartWatches(s: State, ids: seq<RuleId>, rules: Rules, inputs: Inputs,
                                        grants: seq<Option<Handle>>, r: RuleId)
    requires |grants| == |ids| && forall id :: id in ids ==> id in rules
    requires Coherent(s) && Distinct(ids) && forall id :: id in ids ==> id !in s.loaded
    requires forall g :: g in grants ==> g.Some?
    ensures var w, w' := View(s), View(Load(s, ids, rules, inputs, grants));
            && (r in w' <==> r in w || (r in ids && rules[r].trigger in inputs))
            && (r in w ==> r in w' && w'[r] == w[r])
            && (r in w' && r !in w ==> w'[r] == (inputs[rules[r].trigger], rules[r].triggerState))
    decreases |ids|
  {
    if ids != [] {
      var s1 := SubscribeRule(s, ids[0], rules[ids[0]], inputs, grants[0]).0;
      SubscribeRuleKeepsCoherent(s, ids[0], rules[ids[0]], inputs, grants[0]);
      assert grants[0] in grants;
      assert View(s1) == WatchRule(View(s), ids[0], rules[ids[0]], inputs, grants[0]);
      assert forall i :: 0 <= i < |ids[1..]| ==> ids[1..][i] == ids[i + 1] && ids[0] != ids[i + 1];
      assert forall id :: id in s1.loaded ==> id in View(s1);
      assert ids == [ids[0]] + ids[1..];
      StartWatches(s1, ids[1..], rules, inputs, grants[1..], r);
    }
  }

  lemma WatchedBeside(w: Watching, id: RuleId, v: string)
    ensures Watched(w - {id}, v) <==> exists o :: o in w && o != id && w[o].0 == v
  {
    if o :| o in w && o != id && w[o].0 == v { assert o in w - {id} && (w - {id})[o].0 == v; }
    if Watched(w - {id}, v) { var o :| o in w - {id} && (w - {id})[o].0 == v; }
  }

  /** Over every start-up and every serial run of reloads and removals, with registrations
      refused at will, the two tables stay in bijection and together say what the one-table
      reading says. */
  lemma TablesRefineWatching(ids: seq<RuleId>, rules: Rules, inputs: Inputs, grants: seq<Option<Handle>>, ops: seq<Op>)
    requires |grants| == |ids| && Distinct(ids) && forall id :: id in ids ==> id in rules
    ensures var s := Run(Load(INITIAL, ids, rules, inputs, grants), ops);
            && Coherent(s)
            && View(s) == WatchRun(WatchLoad(map[], ids, rules, inputs, grants), ops)
  {
    assert View(INITIAL) == map[];
    LoadKeepsCoherent(INITIAL, ids, rules, inputs, grants);
    RunKeepsCoherent(Load(INITIAL, ids, rules, inputs, grants), ops);
  }

  // ---- Dispatch ----

  /** How many of the callback invocations hand rule `r` to the executor. */
  ghost function FiredFor(calls: seq<(Callback, Event)>, r: RuleId): nat {
    if calls == [] then 0 else Fires(calls[0], r) + FiredFor(calls[1..], r)
  }

  ghost function Fires(call: (Callback, Event), r: RuleId): nat {
    if call.1.value == call.0.expected && call.0.rule == r then 1 else 0
  }

  ghost predicate OnePerRule(cs: seq<Callback>) {
    forall i, j :: 0 <= i < j < |cs| ==> cs[i].rule != cs[j].rule
  }

  /** Some callback in the list belongs to rule `r` and waits for `value`. */
  ghost predicate Awaits(cs: seq<Callback>, r: RuleId, value: bool) {
    exists i :: 0 <= i < |cs| && cs[i].rule == r && cs[i].expected == value
  }

  lemma AwaitsSplit(cs: seq<Callback>, r: RuleId, value: bool)
    requires cs != [] && OnePerRule(cs)
    ensures Awaits(cs, r, value) <==> (cs[0].rule == r && cs[0].expected == value) || Awaits(cs[1..], r, value)
    ensures cs[0].rule == r ==> !Awaits(cs[1..], r, value)
  {
  }

  lemma {:induction false} FiredOnce(e: Event, cs: seq<Callback>, r: RuleId)
    requires OnePerRule(cs)
    ensures FiredFor(Calls(e, cs), r) == if Awaits(cs, r, e.value) then 1 else 0
  {
    if cs != [] {
      assert OnePerRule(cs[1..]);
      FiredOnce(e, cs[1..], r);
      AwaitsSplit(cs, r, e.value);
      assert Calls(e, cs)[1..] == Calls(e, cs[1..]);
    }
  }

  lemma ListenersOnePerRule(s: State, v: string)
    requires Coherent(s)
    ensures OnePerRule(Listeners(s.table, v))
  {
    var cs := Listeners(s.table, v);
    forall i, j | 0 <= i < j < |cs| ensures cs[i].rule != cs[j].rule {
      assert cs[i] in cs && cs[j] in cs && cs[i] != cs[j];
    }
  }

  ghost predicate Waits(s: State, r: RuleId, e: Event) {
    r in View(s) && View(s)[r] == (e.variable, e.value)
  }

  lemma AwaitsIffWaits(s: State, e: Event, r: RuleId)
    requires Coherent(s)
    ensures Awaits(Listeners(s.table, e.variable), r, e.value) <==> Waits(s, r, e)
  {
    var cs := Listeners(s.table, e.variable);
    if Awaits(cs, r, e.value) {
      var i :| 0 <= i < |cs| && cs[i].rule == r && cs[i].expected == e.value;
      assert cs[i] in cs;
    }
    if Waits(s, r, e) {
      assert s.loaded[r].1 in cs;
    }
  }

  /** One event reaches the executor once for each loaded rule that watches its variable
      and waits for its value, and for no other rule. */
  lemma EventFiresExactly(s: State, e: Event, r: RuleId)
    requires Coherent(s)
    ensures FiredFor(Calls(e, Listeners(s.table, e.variable)), r) == if Waits(s, r, e) then 1 else 0
  {
    ListenersOnePerRule(s, e.variable);
    FiredOnce(e, Listeners(s.table, e.variable), r);
    AwaitsIffWaits(s, e, r);
  }

  // ---- Execution ----

  datatype Command =
    | SetBrightness(channel: int, percent: int)
    | SetRelay(channel: int, on: bool)
    | SetCurtain(index: int, cmd: int)
    | SetAppliance(gvlName: string, on: bool)
    | SetToggle(gvlName: string, on: bool)

  /** The output devices in the registry; a toggle that is not writable raises. */
  datatype Outputs = Outputs(dali: set<int>, relays: set<int>, curtains: set<int>,
                             appliances: set<string>, toggles: map<string, bool>)

  function CommandOf(a: Action, outs: Outputs): Option<Command> {
    match a.kind
    case Dali =>
      if a.channel !in outs.dali || a.value.number.None? then None
      else Some(SetBrightness(a.channel, a.value.number.value))
    case Relay =>
      if a.channel in outs.relays then Some(SetRelay(a.channel, a.value.text == "true")) else None
    case Curtain =>
      if a.channel !in outs.curtains then None
      else if a.value.text == "stop" then Some(SetCurtain(a.channel, P.STOP))
      else if a.value.text == "up" then Some(SetCurtain(a.channel, P.UP))
      else if a.value.text == "down" then Some(SetCurtain(a.channel, P.DOWN))
      else None
    case Appliance =>
      if a.gvlName in outs.appliances then Some(SetAppliance(a.gvlName, a.value.text == "true")) else None
    case Toggle =>
      if a.gvlName !in outs.toggles || !outs.toggles[a.gvlName] then None
      else Some(SetToggle(a.gvlName, a.value.text == "true"))
  }

  function Execute(id: RuleId, rules: Rules, outs: Outputs): Option<Command> {
    if id in rules && rules[id].enabled then CommandOf(rules[id].action, outs) else None
  }

  /** What a command says of the row it comes from and of the registry: the device is the
      row's and is there, and what is written is what the stored text means. */
  ghost predicate Orders(a: Action, outs: Outputs, c: Command) {
    match c
    case SetBrightness(channel, percent) =>
      a.kind.Dali? && channel == a.channel && channel in outs.dali && a.value.number == Some(percent)
    case SetRelay(channel, on) =>
      a.kind.Relay? && channel == a.channel && channel in outs.relays && (on <==> a.value.text == "true")
    case SetCurtain(index, cmd) =>
      && a.kind.Curtain? && index == a.channel && index in outs.curtains
      && ((a.value.text == "stop" && cmd == P.STOP) || (a.value.text == "up" && cmd == P.UP) ||
          (a.value.text == "down" && cmd == P.DOWN))
    case SetAppliance(gvlName, on) =>
      a.kind.Appliance? && gvlName == a.gvlName && gvlName in outs.appliances && (on <==> a.value.text == "true")
    case SetToggle(gvlName, on) =>
      && a.kind.Toggle? && gvlName == a.gvlName && gvlName in outs.toggles && outs.toggles[gvlName]
      && (on <==> a.value.text == "true")
  }

  /** The row of rule `r` is there and enabled, and orders the command. */
  ghost predicate Ordered(rules: Rules, outs: Outputs, r: RuleId, c: Command) {
    r in rules && rules[r].enabled && Orders(rules[r].action, outs, c)
  }

  /** Why an executor call writes nothing: the rule is gone or disabled, its device is not in
      the registry, its stored text says nothing its device understands, or its toggle cannot
      be written. */
  ghost predicate Idle(rules: Rules, outs: Outputs, r: RuleId) {
    r !in rules || !rules[r].enabled ||
    var a := rules[r].action;
    match a.kind
    case Dali => a.channel !in outs.dali || a.value.number == None
    case Relay => a.channel !in outs.relays
    case Curtain => a.channel !in outs.curtains || a.value.text !in ["stop", "up", "down"]
    case Appliance => a.gvlName !in outs.appliances
    case Toggle => a.gvlName !in outs.toggles || !outs.toggles[a.gvlName]
  }

  /** An executor call writes a command exactly when the row orders it, which is one command
      at most, and nothing exactly when there is a reason for that. */
  lemma ExecutesExactly(r: RuleId, rules: Rules, outs: Outputs, c: Command)
    ensures Execute(r, rules, outs) == Some(c) <==> Ordered(rules, outs, r, c)
    ensures Execute(r, rules, outs) == None <==> Idle(rules, outs, r)
  {
  }

  /** One executor call, with the command it wrote if it wrote one. */
  datatype Call = Call(rule: RuleId, written: Option<Command>)

  /** A callback invocation with the database and the registry as they are when it runs. */
  function CallOf(d: (Callback, Event), rules: Rules, outs: Outputs): seq<Call> {
    if d.1.value == d.0.expected then [Call(d.0.rule, Execute(d.0.rule, rules, outs))] else []
  }

  ghost function CallsFor(calls: seq<Call>, r: RuleId): nat {
    if calls == [] then 0 else CallsFor(calls[..|calls| - 1], r) + if calls[|calls| - 1].rule == r then 1 else 0
  }

  // ---- Dispatch among everything else ----

  /** The dispatch thread pops one event and snapshots its callbacks, then runs them one by
      one; reloads, removals and new events come in between at any moment. */
  datatype Moment =
    | Change(op: Op)
    | Notified(e: Event)
    | Take
    | Fire(rules: Rules, outs: Outputs)

  /** `arrived` and `taken` are the events queued and popped so far, `calls` the executor
      calls made. */
  datatype Hub = Hub(s: State, queue: seq<Event>, pending: seq<(Callback, Event)>, calls: seq<Call>,
                     arrived: seq<Event>, taken: seq<Event>)

  function HubNext(h: Hub, m: Moment): Hub {
    match m
    case Change(op) => h.(s := Step(h.s, op))
    case Notified(e) => h.(queue := h.queue + [e], arrived := h.arrived + [e])
    case Take =>
      if h.pending == [] && h.queue != [] then
        var e := h.queue[0];
        h.(pending := Calls(e, Listeners(h.s.table, e.variable)), queue := h.queue[1..], taken := h.taken + [e])
      else h
    case Fire(rules, outs) =>
      if h.pending != [] then h.(pending := h.pending[1..], calls := h.calls + CallOf(h.pending[0], rules, outs)) else h
  }

  function HubRun(h: Hub, ms: seq<Moment>): Hub
    decreases |ms|
  {
    if ms == [] then h else HubRun(HubNext(h, ms[0]), ms[1..])
  }

  /** How many events popped during the run match what rule `r` watched just then. */
  ghost function Matching(h: Hub, ms: seq<Moment>, r: RuleId): nat
    decreases |ms|
  {
    if ms == [] then 0
    else
      var now := if ms[0].Take? && h.pending == [] && h.queue != [] && Waits(h.s, r, h.queue[0]) then 1 else 0;
      now + Matching(HubNext(h, ms[0]), ms[1..], r)
  }

  lemma CallsForAppend(calls: seq<Call>, d: (Callback, Event), rules: Rules, outs: Outputs, r: RuleId)
    ensures CallsFor(calls + CallOf(d, rules, outs), r)
         == CallsFor(calls, r) + Fires(d, r)
  {
    if d.1.value == d.0.expected {
      assert (calls + CallOf(d, rules, outs))[..|calls|] == calls;
    } else {
      assert calls + CallOf(d, rules, outs) == calls;
    }
  }

  /** Executor calls made and still to be made for a rule. */
  ghost function Owed(h: Hub, r: RuleId): nat {
    CallsFor(h.calls, r) + FiredFor(h.pending, r)
  }

  lemma FireKeepsOwed(h: Hub, rules: Rules, outs: Outputs, r: RuleId)
    ensures Owed(HubNext(h, Fire(rules, outs)), r) == Owed(h, r)
  {
    if h.pending != [] {
      CallsForAppend(h.calls, h.pending[0], rules, outs, r);
    }
  }

  lemma TakeOwes(h: Hub, r: RuleId)
    requires Coherent(h.s) && h.pending == [] && h.queue != []
    ensures Owed(HubNext(h, Take), r) == Owed(h, r) + if Waits(h.s, r, h.queue[0]) then 1 else 0
  {
    EventFiresExactly(h.s, h.queue[0], r);
  }

  /** In every interleaving of dispatch with events, reloads and removals, with a database
      that changes at will: events are popped first in, first out, and the executor is called
      for each rule exactly once per popped event that matched what the rule watched at the
      moment of the pop, counting the callbacks still to run. */
  lemma {:induction false} DispatchExactly(h: Hub, ms: seq<Moment>, r: RuleId)
    requires Coherent(h.s) && h.taken + h.queue == h.arrived
    ensures var h' := HubRun(h, ms);
            && Coherent(h'.s) && h'.taken + h'.queue == h'.arrived
            && Owed(h', r) == Owed(h, r) + Matching(h, ms, r)
    decreases |ms|
  {
    if ms != [] {
      var m := ms[0];
      var h1 := HubNext(h, m);
      match m {
        case Change(op) => StepKeepsCoherent(h.s, op);
        case Notified(e) => assert h.taken + (h.queue + [e]) == h.arrived + [e];
        case Take =>
          if h.pending == [] && h.queue != [] {
            TakeOwes(h, r);
            assert h.taken + [h.queue[0]] + h.queue[1..] == h.taken + h.queue;
          }
        case Fire(rules, outs) => FireKeepsOwed(h, rules, outs, r);
      }
      DispatchExactly(h1, ms[1..], r);
    }
  }

  /** The events that arrived during a run, and the rule changes made, in order. */
  ghost function Arrivals(ms: seq<Moment>): seq<Event> {
    if ms == [] then [] else (if ms[0].Notified? then [ms[0].e] else []) + Arrivals(ms[1..])
  }

  ghost function Changes(ms: seq<Moment>): seq<Op> {
    if ms == [] then [] else (if ms[0].Change? then [ms[0].op] else []) + Changes(ms[1..])
  }

  /** In every interleaving nothing that arrives is lost or reordered before it is popped, and
      the tables are what the rule changes alone make of them. */
  lemma HubKeepsUp(h: Hub, ms: seq<Moment>)
    ensures HubRun(h, ms).arrived == h.arrived + Arrivals(ms)
    ensures HubRun(h, ms).s == Run(h.s, Changes(ms))
  {
    HubArrivals(h, ms);
    HubTables(h, ms);
  }

  lemma {:induction false} HubArrivals(h: Hub, ms: seq<Moment>)
    ensures HubRun(h, ms).arrived == h.arrived + Arrivals(ms)
    decreases |ms|
  {
    if ms == [] {
      assert h.arrived + [] == h.arrived;
    } else {
      var now := if ms[0].Notified? then [ms[0].e] else [];
      StepArrives(h, ms[0]);
      HubArrivals(HubNext(h, ms[0]), ms[1..]);
      assert (h.arrived + now) + Arrivals(ms[1..]) == h.arrived + (now + Arrivals(ms[1..]));
    }
  }

  lemma StepArrives(h: Hub, m: Moment)
    ensures HubNext(h, m).arrived == h.arrived + if m.Notified? then [m.e] else []
  {
  }

  lemma {:induction false} HubTables(h: Hub, ms: seq<Moment>)
    ensures HubRun(h, ms).s == Run(h.s, Changes(ms))
    decreases |ms|
  {
    if ms != [] {
      HubTables(HubNext(h, ms[0]), ms[1..]);
      if ms[0].Change? {
        assert Changes(ms)[1..] == Changes(ms[1..]);
      } else {
        assert Changes(ms) == Changes(ms[1..]);
      }
    }
  }

  /** Running the callbacks at hand: `n` of them, against one database. */
  ghost function Turns(n: nat, rules: Rules, outs: Outputs): seq<Moment> {
    if n == 0 then [] else [Fire(rules, outs)] + Turns(n - 1, rules, outs)
  }

  /** With as many turns as there are callbacks at hand all of them run, and every executor
      call owed is made. */
  lemma {:induction false} PendingDrains(h: Hub, rules: Rules, outs: Outputs, r: RuleId)
    ensures var h' := HubRun(h, Turns(|h.pending|, rules, outs));
            h'.pending == [] && CallsFor(h'.calls, r) == Owed(h, r)
    decreases |h.pending|
  {
    if h.pending != [] {
      var rest := Turns(|h.pending| - 1, rules, outs);
      assert ([Fire(rules, outs)] + rest)[1..] == rest;
      FireKeepsOwed(h, rules, outs, r);
      PendingDrains(HubNext(h, Fire(rules, outs)), rules, outs, r);
    }
  }

  ghost predicate WritesOf(calls: seq<Call>, r: RuleId, allowed: set<Command>) {
    forall i :: 0 <= i < |calls| && calls[i].rule == r && calls[i].written.Some? ==> calls[i].written.value in allowed
  }

  /** A rule writes nothing but what its row orders when its callback runs, with the registry
      as it is then.  So while a rule is disabled or deleted it writes nothing, whatever was
      queued or snapshot before; and while its row orders one command, that is all it writes. */
  lemma {:induction false} WritesFollowRows(h: Hub, ms: seq<Moment>, r: RuleId, allowed: set<Command>)
    requires WritesOf(h.calls, r, allowed)
    requires forall i, c :: 0 <= i < |ms| && ms[i].Fire? && Ordered(ms[i].rules, ms[i].outs, r, c) ==> c in allowed
    ensures WritesOf(HubRun(h, ms).calls, r, allowed)
    decreases |ms|
  {
    if ms != [] {
      if ms[0].Fire? && Execute(r, ms[0].rules, ms[0].outs).Some? {
        var c := Execute(r, ms[0].rules, ms[0].outs).value;
        ExecutesExactly(r, ms[0].rules, ms[0].outs, c);
        assert c in allowed;
      }
      WritesFollowRows(HubNext(h, ms[0]), ms[1..], r, allowed);
    }
  }

  /** The executor calls of rule `r` that wrote `c`. */
  ghost function WritesFor(calls: seq<Call>, r: RuleId, c: Command): nat {
    if calls == [] then 0
    else
      var n := |calls| - 1;
      WritesFor(calls[..n], r, c) + if calls[n].rule == r && calls[n].written == Some(c) then 1 else 0
  }

  lemma WritesForAppend(calls: seq<Call>, d: (Callback, Event), rules: Rules, outs: Outputs, r: RuleId, c: Command)
    ensures WritesFor(calls + CallOf(d, rules, outs), r, c)
         == WritesFor(calls, r, c) + if Fires(d, r) == 1 && Ordered(rules, outs, r, c) then 1 else 0
  {
    ExecutesExactly(d.0.rule, rules, outs, c);
    if d.1.value == d.0.expected {
      assert (calls + CallOf(d, rules, outs))[..|calls|] == calls;
    } else {
      assert calls + CallOf(d, rules, outs) == calls;
    }
  }

  /** In every interleaving: a rule whose row orders one command writes that command exactly
      once per popped event that matched what the rule watched at the pop, counting the
      callbacks still to run. */
  lemma {:induction false} CommandsExactly(h: Hub, ms: seq<Moment>, r: RuleId, c: Command)
    requires Coherent(h.s) && h.taken + h.queue == h.arrived
    requires forall i :: 0 <= i < |ms| && ms[i].Fire? ==> Ordered(ms[i].rules, ms[i].outs, r, c)
    ensures var h' := HubRun(h, ms);
            WritesFor(h'.calls, r, c) + FiredFor(h'.pending, r)
            == WritesFor(h.calls, r, c) + FiredFor(h.pending, r) + Matching(h, ms, r)
  {
    DispatchExactly(h, ms, r);
    WritesAreCalls(h, ms, r, c);
  }

  lemma WriteIsCall(h: Hub, m: Moment, r: RuleId, c: Command)
    requires m.Fire? ==> Ordered(m.rules, m.outs, r, c)
    ensures var calls, calls' := h.calls, HubNext(h, m).calls;
            WritesFor(calls', r, c) - WritesFor(calls, r, c) == CallsFor(calls', r) - CallsFor(calls, r)
  {
    if m.Fire? && h.pending != [] {
      CallsForAppend(h.calls, h.pending[0], m.rules, m.outs, r);
      WritesForAppend(h.calls, h.pending[0], m.rules, m.outs, r, c);
    }
  }

  lemma {:induction false} WritesAreCalls(h: Hub, ms: seq<Moment>, r: RuleId, c: Command)
    requires forall i :: 0 <= i < |ms| && ms[i].Fire? ==> Ordered(ms[i].rules, ms[i].outs, r, c)
    ensures var h' := HubRun(h, ms);
            WritesFor(h'.calls, r, c) - WritesFor(h.calls, r, c) == CallsFor(h'.calls, r) - CallsFor(h.calls, r)
    decreases |ms|
  {
    if ms != [] {
      WriteIsCall(h, ms[0], r, c);
      WritesAreCalls(HubNext(h, ms[0]), ms[1..], r, c);
    }
  }

  lemma DisabledRuleIsSilent(h: Hub, ms: seq<Moment>, r: RuleId)
    requires forall i :: 0 <= i < |h.calls| ==> h.calls[i].rule != r
    requires forall i :: 0 <= i < |ms| && ms[i].Fire? ==> r !in ms[i].rules || !ms[i].rules[r].enabled
    ensures var calls := HubRun(h, ms).calls;
            forall i :: 0 <= i < |calls| && calls[i].rule == r ==> calls[i].written == None
  {
    WritesFollowRows(h, ms, r, {});
  }

  // ---- The object ----

  class DeviceRegistry {
    const notifications: NotificationManager<Callback>
    var automationSubs: map<RuleId, (string, Callback)>
    var nextToken: nat

    ghost function Abs(): State
      reads this, notifications
    {
      State(notifications.Abs(), automationSubs, nextToken)
    }

    constructor (mock: bool)
      ensures fresh(notifications) && notifications.mock == mock
      ensures Abs() == INITIAL && notifications.queue == []
    {
      notifications := new NotificationManager(mock);
      automationSubs, nextToken := map[], 0;
    }

    method SubscribeAutomation(id: RuleId, rule: Rule, inputs: Inputs, grant: Option<Handle>) returns (ok: bool)
      modifies this, notifications
      ensures notifications.mock ==> !ok && Abs().table == old(Abs()).table && automationSubs == old(automationSubs)
      ensures !notifications.mock ==> (Abs(), ok) == SubscribeRule(old(Abs()), id, rule, inputs, grant)
      ensures notifications.queue == old(notifications.queue)
    {
      if rule.trigger !in inputs { return false; }
      var v := inputs[rule.trigger];
      var cb := Callback(nextToken, id, rule.triggerState);
      nextToken := nextToken + 1;
      ok := notifications.SubscribeTo(v, "BOOL", cb, grant);
      if ok { automationSubs := automationSubs[id := (v, cb)]; }
    }

    method RemoveAutomation(id: RuleId)
      modifies this, notifications
      ensures Abs() == Remove(old(Abs()), id)
      ensures notifications.queue == old(notifications.queue)
    {
      if id in automationSubs {
        var (v, cb) := automationSubs[id];
        automationSubs := automationSubs - {id};
        notifications.UnsubscribeFrom(v, Some(cb));
      }
    }

    method ReloadAutomation(id: RuleId, rules: Rules, inputs: Inputs, grant: Option<Handle>)
      modifies this, notifications
      ensures !notifications.mock ==> Abs() == Reload(old(Abs()), id, rules, inputs, grant)
      ensures notifications.queue == old(notifications.queue)
    {
      RemoveAutomation(id);
      if id in rules && rules[id].enabled {
        var _ := SubscribeAutomation(id, rules[id], inputs, grant);
      }
    }

    method LoadAutomations(ids: seq<RuleId>, rules: Rules, inputs: Inputs, grants: seq<Option<Handle>>)
      requires |grants| == |ids| && forall id :: id in ids ==> id in rules
      modifies this, notifications
      ensures !notifications.mock ==> Abs() == Load(old(Abs()), ids, rules, inputs, grants)
    {
      var i := 0;
      while i < |ids|
        invariant 0 <= i <= |ids|
        invariant !notifications.mock ==>
          Load(Abs(), ids[i..], rules, inputs, grants[i..]) == Load(old(Abs()), ids, rules, inputs, grants)
      {
        assert ids[i..][1..] == ids[i + 1..] && grants[i..][1..] == grants[i + 1..];
        var _ := SubscribeAutomation(ids[i], rules[ids[i]], inputs, grants[i]);
        i := i + 1;
      }
    }

    /** One pass of the dispatch thread over everything queued: every callback runs, and one
        whose value matches executes its rule; the k-th callback finds the database and the
        registry as `world(k)`.  So a rule is executed once for each queued event that matches
        what it watches, and writes what its row orders just then. */
    method Dispatch(world: nat -> (Rules, Outputs)) returns (calls: seq<Call>)
      modifies notifications`queue
      ensures notifications.queue == [] && Abs() == old(Abs())
      ensures calls == CallsUnder(Deliveries(Abs().table, old(notifications.queue)), world)
      ensures Coherent(Abs()) ==>
                forall r :: CallsFor(calls, r) == MatchesIn(Abs(), old(notifications.queue), r)
      ensures forall r, c :: WritesFor(calls, r, c) ==
                             OrdersIn(Deliveries(Abs().table, old(notifications.queue)), world, r, c)
    {
      var made := notifications.Drain();
      calls := [];
      for k := 0 to |made|
        invariant notifications.queue == [] && Abs() == old(Abs())
        invariant calls == CallsUnder(made[..k], world)
      {
        assert made[..k + 1][..k] == made[..k];
        var (cb, e) := made[k];
        if e.value == cb.expected {
          calls := calls + [Call(cb.rule, Execute(cb.rule, world(k).0, world(k).1))];
        } else {
          assert CallOf(made[k], world(k).0, world(k).1) == [];
        }
      }
      assert made[..|made|] == made;
      forall r ensures Coherent(Abs()) ==> CallsFor(calls, r) == MatchesIn(Abs(), old(notifications.queue), r) {
        if Coherent(Abs()) { QueueFiresExactly(Abs(), old(notifications.queue), world, r); }
      }
      forall r, c ensures WritesFor(calls, r, c) == OrdersIn(made, world, r, c) { WritesUnder(made, world, r, c); }
    }
  }

  /** The executor calls of a sequence of callback invocations. */
  function CallsUnder(made: seq<(Callback, Event)>, world: nat -> (Rules, Outputs)): seq<Call> {
    if made == [] then []
    else
      var n := |made| - 1;
      CallsUnder(made[..n], world) + CallOf(made[n], world(n).0, world(n).1)
  }

  /** How many events of the queue match what rule `r` watches. */
  ghost function MatchesIn(s: State, q: seq<Event>, r: RuleId): nat {
    if q == [] then 0
    else
      var n := |q| - 1;
      MatchesIn(s, q[..n], r) + if Waits(s, r, q[n]) then 1 else 0
  }

  /** How many callbacks of rule `r` find their value, and then a row that orders `c`. */
  ghost function OrdersIn(made: seq<(Callback, Event)>, world: nat -> (Rules, Outputs), r: RuleId, c: Command): nat
  {
    if made == [] then 0
    else
      var n := |made| - 1;
      var now := Fires(made[n], r) == 1 && Ordered(world(n).0, world(n).1, r, c);
      OrdersIn(made[..n], world, r, c) + if now then 1 else 0
  }

  lemma {:induction false} WritesUnder(made: seq<(Callback, Event)>, world: nat -> (Rules, Outputs), r: RuleId,
                                       c: Command)
    ensures WritesFor(CallsUnder(made, world), r, c) == OrdersIn(made, world, r, c)
    decreases |made|
  {
    if made != [] {
      var n := |made| - 1;
      WritesUnder(made[..n], world, r, c);
      WritesForAppend(CallsUnder(made[..n], world), made[n], world(n).0, world(n).1, r, c);
    }
  }

  lemma {:induction false} CallsUnderFired(made: seq<(Callback, Event)>, world: nat -> (Rules, Outputs), r: RuleId)
    ensures CallsFor(CallsUnder(made, world), r) == FiredFor(made, r)
    decreases |made|
  {
    if made != [] {
      var n := |made| - 1;
      CallsUnderFired(made[..n], world, r);
      CallsForAppend(CallsUnder(made[..n], world), made[n], world(n).0, world(n).1, r);
      assert made == made[..n] + [made[n]];
      FiredForConcat(made[..n], [made[n]], r);
    }
  }

  lemma {:induction false} FiredForConcat(a: seq<(Callback, Event)>, b: seq<(Callback, Event)>, r: RuleId)
    ensures FiredFor(a + b, r) == FiredFor(a, r) + FiredFor(b, r)
    decreases |a|
  {
    if a == [] {
      assert a + b == b;
    } else {
      assert (a + b)[1..] == a[1..] + b;
      FiredForConcat(a[1..], b, r);
    }
  }

  lemma {:induction false} QueueFired(s: State, q: seq<Event>, r: RuleId)
    requires Coherent(s)
    ensures FiredFor(Deliveries(s.table, q), r) == MatchesIn(s, q, r)
    decreases |q|
  {
    if q != [] {
      var n := |q| - 1;
      QueueFired(s, q[..n], r);
      assert q == q[..n] + [q[n]];
      DeliveriesAppend(s.table, q[..n], q[n]);
      FiredForConcat(Deliveries(s.table, q[..n]), Calls(q[n], Listeners(s.table, q[n].variable)), r);
      EventFiresExactly(s, q[n], r);
    }
  }

  lemma QueueFiresExactly(s: State, q: seq<Event>, world: nat -> (Rules, Outputs), r: RuleId)
    requires Coherent(s)
    ensures CallsFor(CallsUnder(Deliveries(s.table, q), world), r) == MatchesIn(s, q, r)
  {
    CallsUnderFired(Deliveries(s.table, q), world, r);
    QueueFired(s, q, r);
  }
}
