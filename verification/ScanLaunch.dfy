/** A scan from its launch: the registry's dictionaries enumerated, each active test carried
    out on the device behind its key, and the engine over what that gives. */
module ScanLaunch {
  import opened Common
  import opened ScanRows
  import opened ScanLaws
  import S = SuperScan
  import P = Protocols

  /** An apartment at the time of a scan: the registry and the variables its objects touch,
      what reading a key gives, the device behind a key and how the calls of its test go,
      whether the controller is connected before and after it, and the symbol list. */
  datatype Site = Site(registry: Registry, vars: map<Key, set<string>>, reading: Key -> Option<string>,
                       device: Key -> P.Dev, calls: Key -> P.TestIo, before: Key -> bool, after: Key -> bool,
                       symbols: Option<seq<Symbol>>)

  function TrialOf(site: Site, k: Key): Trial {
    Trial(site.before(k), P.ActiveTest(site.device(k), site.calls(k)).passed, site.after(k))
  }

  const UNUSED := Trial(false, false, false)

  /** What the scan meets at the site; trials are in the order of the tests. */
  function WorldOf(mode: Mode, items: seq<Item>, site: Site): (w: World)
    ensures w.known == items && |w.readings| == |items| && |w.trials| == |items|
    ensures forall i :: 0 <= i < |items| ==> w.readings[i] == site.reading(items[i].key)
    ensures forall i :: 0 <= i < |Tests(w)| ==> w.trials[i] == TrialOf(site, Tests(w)[i].key)
  {
    var tests := Tests(World(mode, items, [], [], None));
    World(mode, items,
          seq(|items|, i requires 0 <= i < |items| => site.reading(items[i].key)),
          seq(|items|, i => if 0 <= i < |tests| then TrialOf(site, tests[i].key) else UNUSED),
          site.symbols)
  }

  /** The kind of device a key is served by; a toggle not listed as read-only is writable. */
  predicate Serves(d: P.Dev, k: Key, readOnly: set<Ident>) {
    match k.kind
    case Dali => P.KindOf(d).DaliKind?
    case Relay => P.KindOf(d).RelayKind?
    case Curtain => P.KindOf(d).CurtainKind?
    case Appliance => P.KindOf(d).ApplianceKind?
    case Toggle => P.KindOf(d).ToggleKind? && (k.id !in readOnly ==> P.Testable(d))
    case _ => true
  }

  ghost predicate GoodSite(site: Site) {
    Dictionaries(site.registry) && forall k: Key :: Serves(site.device(k), k, site.registry.readOnly)
  }

  /** What a run left: the items listed once each, and the counts, rows and log of the engine
      over the world at the site. */
  ghost predicate Launched(e: S.SuperScanEngine, mode: Mode, site: Site)
    reads e
  {
    && DistinctKeys(e.w.known) && NoSymbols(e.w.known) && Directed(e.w.known, site.registry)
    && (forall t :: t in ORDER ==> IdsIn(e.w.known, t) == Ids(site.registry, t))
    && e.w == WorldOf(mode, e.w.known, site)
  }

  /** The background thread of a scan: enumerate the registry, then execute. */
  method RunInBackground(run: RunId, mode: Mode, site: Site, rows: Rows, cancelAt: Option<nat>, crashAt: Option<nat>,
                         reachable: bool)
    returns (e: S.SuperScanEngine)
    requires GoodSite(site) && Unseen(rows, run)
    ensures fresh(e) && e.run == run && e.start == rows && Launched(e, mode, site) && GoodWorld(e.w)
    ensures e.status.Completed? ==>
              forall i :: i in TestableBefore(e.w.known, |e.w.known|) && |TestableBefore(e.w.known, i)| < e.tested ==>
                var k, place := e.w.known[i].key, |TestableBefore(e.w.known, i)|;
                && place < |e.logs| && e.logs[place].key == k && e.logs[place].sent == site.before(k)
                && e.logs[place].success == (site.before(k) && P.ActiveTest(site.device(k), site.calls(k)).passed)
    ensures e.rows == Apply(rows, run, e.trace) && e.trace <= Plan(e.w)
    ensures e.status.Completed? ==> e.trace == Plan(e.w) && e.Balanced() && e.TestsAccounted()
    ensures e.status.Completed? ==> e.TestsSpelledOut() && e.CountsSpelledOut()
    ensures e.status.Completed? && (mode.Full? || mode.Deep?) ==> e.tested == Min(60, |TestableKeys(site.registry)|)
    ensures e.addressed <= Addressed(e.w, |Tests(e.w)|) && (!Active(mode) ==> e.addressed == [])
  {
    var items := KnownCapabilities(site.registry, site.vars);
    e := new S.SuperScanEngine(run, WorldOf(mode, items, site), rows, cancelAt, crashAt, reachable);
    e.Execute();
    TestableAreKeys(items, site.registry);
    TestsExactly(e.w);
  }

  /** The device behind a key that is tested has a test, and it is the one of its type. */
  lemma TestedIsTestable(mode: Mode, items: seq<Item>, site: Site, i: nat)
    requires GoodSite(site) && Directed(items, site.registry) && i < |Tests(WorldOf(mode, items, site))|
    ensures P.Testable(site.device(Tests(WorldOf(mode, items, site))[i].key))
  {
    var w := WorldOf(mode, items, site);
    TestsAreWritable(w, i);
    var t := Tests(w)[i];
    var j :| 0 <= j < |items| && items[j] == t;
    assert items[j].direction == DirectionOf(items[j].key, site.registry.readOnly);
    ServesWritable(site.device(t.key), t, site.registry.readOnly);
  }

  lemma ServesWritable(d: P.Dev, t: Item, readOnly: set<Ident>)
    requires IsWritable(t) && t.direction == DirectionOf(t.key, readOnly) && Serves(d, t.key, readOnly)
    ensures P.Testable(d)
  {
  }

  // ---- What a scan does to the devices ----

  /** The writes to the device behind `k`, and the device afterwards, when the tests of the
      keys in `addressed` were begun. */
  function WritesTo(site: Site, addressed: seq<Key>, k: Key): nat {
    if k in addressed then P.ActiveTest(site.device(k), site.calls(k)).writes else 0
  }

  function DeviceAfter(site: Site, addressed: seq<Key>, k: Key): P.Dev {
    if k in addressed then P.ActiveTest(site.device(k), site.calls(k)).dev else site.device(k)
  }

  /** Among the first `n` tests there is one of the key, and it finds the controller
      connected. */
  ghost predicate Reached(w: World, site: Site, n: nat, k: Key)
    requires n <= |Tests(w)|
  {
    site.before(k) && exists i :: 0 <= i < n && Tests(w)[i].key == k
  }

  lemma AddressedIffReached(mode: Mode, items: seq<Item>, site: Site, n: nat, k: Key)
    requires n <= |Tests(WorldOf(mode, items, site))|
    ensures k in Addressed(WorldOf(mode, items, site), n) <==> Reached(WorldOf(mode, items, site), site, n, k)
  {
    var w := WorldOf(mode, items, site);
    AddressedFrom(w, n, k);
    assert forall i :: 0 <= i < n ==> w.trials[i].before == site.before(Tests(w)[i].key);
  }

  /** However far a scan gets, for every key: the device is written to exactly when its test
      was begun with the controller found connected and the first read of the test returned
      (never in mock mode); in every other case it is as it was. */
  lemma WrittenIffRead(mode: Mode, items: seq<Item>, site: Site, n: nat, k: Key)
    requires GoodSite(site) && Directed(items, site.registry) && n <= |Tests(WorldOf(mode, items, site))|
    ensures var w := WorldOf(mode, items, site);
            var read := Reached(w, site, n, k) && site.calls(k).read;
            && (WritesTo(site, Addressed(w, n), k) > 0 <==> read && !site.device(k).Mock?)
            && (!read ==> DeviceAfter(site, Addressed(w, n), k) == site.device(k))
  {
    var w := WorldOf(mode, items, site);
    AddressedIffReached(mode, items, site, n, k);
    if Reached(w, site, n, k) {
      var i :| 0 <= i < n && Tests(w)[i].key == k;
      TestedIsTestable(mode, items, site, i);
      P.WritesIffRead(site.device(k), site.calls(k));
    }
  }

  /** In a scan whose calls all return and whose controller stays connected, every device
      tested is left on its original reading, a curtain on stop; and its log row says success,
      except exactly for a relay that is off whose flash was lost to a flag left high. */
  lemma HealthyScanRestores(mode: Mode, items: seq<Item>, site: Site, i: nat)
    requires GoodSite(site) && Directed(items, site.registry)
    requires i < |Tests(WorldOf(mode, items, site))|
    requires var k := Tests(WorldOf(mode, items, site))[i].key;
             P.AllReturn(site.calls(k)) && site.before(k)
    ensures var w := WorldOf(mode, items, site);
            var k := Tests(w)[i].key;
            var d, flash := site.device(k), site.calls(k).flash;
            && P.Reading(DeviceAfter(site, Addressed(w, |Tests(w)|), k)) == P.RestoreValue(P.KindOf(d), P.Reading(d))
            && (S.LogOf(w, i).success <==>
                 (d.Relay? && P.LatchAtRise(d.pin, flash) ==> P.AtRise(d.pin, 1, flash).actual != 0))
  {
    var w := WorldOf(mode, items, site);
    var k := Tests(w)[i].key;
    TestedIsTestable(mode, items, site, i);
    AddressedIffReached(mode, items, site, |Tests(w)|, k);
    P.TestRestores(site.device(k), site.calls(k));
  }
}
