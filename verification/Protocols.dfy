/** The write-then-pulse protocol against a controller that captures a command on the rising
    edge of a commit flag, and the active tests built on it.  Any ADS call may fail, and a
    failed write may still have reached the controller. */
module Protocols {
  import F = FadePlan

  // ---- One commit pin ----

  /** What the controller holds for one channel: the command and flag the client writes, the
      flag as of the last scan, the value in force, and every value captured so far. */
  datatype Pin = Pin(cmd: int, commit: bool, latch: bool, actual: int, captured: seq<int>)

  /** One controller scan: a flag that is high now and was low before captures the command. */
  function Scan(p: Pin): Pin {
    if p.commit && !p.latch
    then p.(actual := p.cmd, latch := true, captured := p.captured + [p.cmd])
    else p.(latch := p.commit)
  }

  function Scans(p: Pin, n: nat): Pin
    decreases n
  {
    if n == 0 then p else Scans(Scan(p), n - 1)
  }

  datatype Call = Value | Raise | Lower

  /** A failing call, and whether its write took effect all the same. */
  datatype Fail = NoFail | At(call: Call, applied: bool)

  /** The scans that fall before each of the three writes of a command, and the failure. */
  datatype Io = Io(before: nat, between: nat, pulse: nat, fail: Fail)

  /** A command carried out: no call failed, and the 50 ms between raising and lowering the
      flag saw a scan. */
  predicate Completed(io: Io) {
    io.fail.NoFail? && io.pulse >= 1
  }

  /** The pin after sending `v`, and whether every call came back. */
  function Send(p: Pin, v: int, io: Io): (Pin, bool) {
    var p0 := Scans(p, io.before);
    if io.fail.At? && io.fail.call.Value? then (if io.fail.applied then p0.(cmd := v) else p0, false)
    else
      var p1 := AtRise(p, v, io);
      if io.fail.At? && io.fail.call.Raise? then (if io.fail.applied then p1.(commit := true) else p1, false)
      else
        var p2 := Scans(p1.(commit := true), io.pulse);
        if io.fail.At? && !io.fail.applied then (p2, false) else (p2.(commit := false), io.fail.NoFail?)
  }

  /** The pin just before the flag is raised. */
  function AtRise(p: Pin, v: int, io: Io): Pin {
    Scans(Scans(p, io.before).(cmd := v), io.between)
  }

  lemma {:induction false} ScansSettle(p: Pin, n: nat)
    ensures Scans(p, n) == if n == 0 then p else Scan(p)
    decreases n
  {
    if n > 0 { ScansSettle(Scan(p), n - 1); }
  }

  /** Whether the rise will find the previous pulse still latched. */
  predicate LatchAtRise(p: Pin, io: Io) {
    if io.before + io.between == 0 then p.latch else p.commit
  }

  /** A completed command leaves the flag low, and it is captured exactly when the rise finds
      the latch low. */
  lemma CompletedCommand(p: Pin, v: int, io: Io)
    requires Completed(io)
    ensures var (q, ok) := Send(p, v, io);
            && ok && !q.commit && q.latch && q.cmd == v
            && q.captured == AtRise(p, v, io).captured + (if LatchAtRise(p, io) then [] else [v])
            && q.actual == (if LatchAtRise(p, io) then AtRise(p, v, io).actual else v)
  {
    ScansSettle(p, io.before);
    var p0 := Scans(p, io.before).(cmd := v);
    ScansSettle(p0, io.between);
    var p1 := AtRise(p, v, io).(commit := true);
    ScansSettle(p1, io.pulse);
  }

  /** Exactly which outcomes leave the flag high. */
  lemma FlagAfter(p: Pin, v: int, io: Io)
    ensures Send(p, v, io).0.commit <==>
            match io.fail
            case NoFail => false
            case At(Value, _) => p.commit
            case At(Raise, applied) => applied || p.commit
            case At(Lower, applied) => !applied
  {
    ScansSettle(p, io.before);
    ScansSettle(Scans(p, io.before).(cmd := v), io.between);
    ScansSettle(AtRise(p, v, io).(commit := true), io.pulse);
  }

  // ---- Serial sequences of commands ----

  function SendAll(p: Pin, vs: seq<int>, ios: seq<Io>): Pin
    requires |vs| == |ios|
    decreases |vs|
  {
    if vs == [] then p else SendAll(Send(p, vs[0], ios[0]).0, vs[1..], ios[1..])
  }

  /** The commands with a scan between the flag falling and rising again; the first needs
      none when the latch starts low. */
  function Kept(latch: bool, vs: seq<int>, ios: seq<Io>): seq<int>
    requires |vs| == |ios|
    decreases |vs|
  {
    if vs == [] then []
    else (if !latch || ios[0].before + ios[0].between >= 1 then [vs[0]] else []) + Kept(true, vs[1..], ios[1..])
  }

  /** A serial sequence of completed commands, started with the flag low, leaves the flag
      low; the values captured are exactly those with a scan since the previous pulse; and
      the value in force is the last of them. */
  lemma {:induction false} SerialCommands(p: Pin, vs: seq<int>, ios: seq<Io>)
    requires |vs| == |ios| && !p.commit
    requires forall i :: 0 <= i < |ios| ==> Completed(ios[i])
    ensures var q := SendAll(p, vs, ios);
            var kept := Kept(p.latch, vs, ios);
            && !q.commit && q.captured == p.captured + kept
            && q.actual == (if kept == [] then p.actual else kept[|kept| - 1])
    decreases |vs|
  {
    if vs != [] {
      CompletedCommand(p, vs[0], ios[0]);
      RestAtRise(p, vs[0], ios[0]);
      SerialCommands(Send(p, vs[0], ios[0]).0, vs[1..], ios[1..]);
    }
  }

  /** With the flag low, the scans before the rise capture nothing. */
  lemma RestAtRise(p: Pin, v: int, io: Io)
    requires !p.commit
    ensures AtRise(p, v, io).captured == p.captured && AtRise(p, v, io).actual == p.actual
  {
    ScansSettle(p, io.before);
    ScansSettle(Scans(p, io.before).(cmd := v), io.between);
  }

  /** The last command of the sequence is in force when a scan fell in every gap. */
  lemma {:induction false} KeptAll(latch: bool, vs: seq<int>, ios: seq<Io>)
    requires |vs| == |ios|
    requires forall i :: 0 <= i < |ios| && (i > 0 || latch) ==> ios[i].before + ios[i].between >= 1
    ensures Kept(latch, vs, ios) == vs
    decreases |vs|
  {
    if vs != [] {
      KeptAll(true, vs[1..], ios[1..]);
    }
  }

  lemma LastCommandInForce(p: Pin, vs: seq<int>, ios: seq<Io>)
    requires |vs| == |ios| && vs != [] && !p.commit
    requires forall i :: 0 <= i < |ios| ==> Completed(ios[i])
    requires forall i :: 0 <= i < |ios| && (i > 0 || p.latch) ==> ios[i].before + ios[i].between >= 1
    ensures SendAll(p, vs, ios).captured == p.captured + vs && SendAll(p, vs, ios).actual == vs[|vs| - 1]
  {
    KeptAll(p.latch, vs, ios);
    SerialCommands(p, vs, ios);
  }

  /** A command whose final write never arrived leaves the flag high.  The next command is
      lost although every one of its calls returns; those after it get through. */
  lemma StuckFlagLosesOne(p: Pin, v: int, io: Io, vs: seq<int>, ios: seq<Io>)
    requires io.fail == At(Lower, false) && io.pulse >= 1
    requires |vs| == |ios| && vs != []
    requires forall i :: 0 <= i < |ios| ==> Completed(ios[i]) && ios[i].before + ios[i].between >= 1
    ensures var stuck := Send(p, v, io).0;
            SendAll(stuck, vs, ios).captured == stuck.captured + vs[1..]
  {
    var stuck := Send(p, v, io).0;
    FlagAfter(p, v, io);
    ScansSettle(AtRise(p, v, io).(commit := true), io.pulse);
    assert stuck.commit && stuck.latch;
    CompletedCommand(stuck, vs[0], ios[0]);
    ScansSettle(stuck, ios[0].before);
    ScansSettle(Scans(stuck, ios[0].before).(cmd := vs[0]), ios[0].between);
    var next := Send(stuck, vs[0], ios[0]).0;
    SerialCommands(next, vs[1..], ios[1..]);
    KeptAll(next.latch, vs[1..], ios[1..]);
  }

  // ---- Devices ----

  datatype Kind = DaliKind | RelayKind | ApplianceKind | ToggleKind | CurtainKind | TemplatedKind

  /** A device as the controller holds it, or in mock mode the value its object keeps.  An
      appliance's state follows its command at a scan, a curtain's outputs follow its two
      buttons, a toggle is one variable. */
  datatype Dev =
    | Dali(pin: Pin)
    | Relay(pin: Pin)
    | Appliance(cmd: bool, state: bool)
    | Toggle(value: bool, writable: bool)
    | Curtain(openBtn: bool, closeBtn: bool, open: bool, close: bool)
    | Templated(pin: Pin, hasWrite: bool, hasCommit: bool)
    | Mock(kind: Kind, level: int, canWrite: bool)

  const STOP := 0
  const UP := 1
  const DOWN := 2

  function KindOf(d: Dev): Kind {
    match d
    case Dali(_) => DaliKind
    case Relay(_) => RelayKind
    case Appliance(_, _) => ApplianceKind
    case Toggle(_, _) => ToggleKind
    case Curtain(_, _, _, _) => CurtainKind
    case Templated(_, _, _) => TemplatedKind
    case Mock(k, _, _) => k
  }

  function Bit(b: bool): int {
    if b then 1 else 0
  }

  /** The reading of a device: a percentage, 0 or 1, or a curtain command. */
  function Reading(d: Dev): int {
    match d
    case Dali(pin) => F.ByteToPct(pin.actual)
    case Relay(pin) => Bit(pin.actual != 0)
    case Appliance(_, state) => Bit(state)
    case Toggle(value, _) => Bit(value)
    case Curtain(_, _, open, close) => if open then UP else if close then DOWN else STOP
    case Templated(pin, _, _) => pin.actual
    case Mock(k, level, _) =>
      if k.DaliKind? then F.ByteToPct(level) else if k.CurtainKind? || k.TemplatedKind? then level else Bit(level != 0)
  }

  /** `n` scans pass. */
  function Elapse(d: Dev, n: nat): Dev {
    match d
    case Dali(pin) => Dali(Scans(pin, n))
    case Relay(pin) => Relay(Scans(pin, n))
    case Templated(pin, w, c) => Templated(Scans(pin, n), w, c)
    case Appliance(cmd, state) => if n == 0 then d else Appliance(cmd, cmd)
    case Curtain(o, c, _, _) => if n == 0 then d else Curtain(o, c, o, c)
    case Toggle(_, _) => d
    case Mock(_, _, _) => d
  }

  /** Whether the write at `call` takes effect, and whether it raises. */
  predicate Lands(io: Io, call: Call) {
    io.fail.NoFail? || io.fail.call != call || io.fail.applied
  }

  predicate Raises(io: Io, call: Call) {
    io.fail.At? && io.fail.call == call
  }

  /** Setting a device: set_brightness, set_state, set_command or a templated write. */
  function Set(d: Dev, v: int, io: Io): (Dev, bool) {
    match d
    case Dali(pin) => var (q, ok) := Send(pin, F.PctToByte(v), io); (Dali(q), ok)
    case Relay(pin) => var (q, ok) := Send(pin, v, io); (Relay(q), ok)
    case Appliance(_, _) =>
      var e := Elapse(d, io.before);
      (if Lands(io, Value) then e.(cmd := v != 0) else e, !Raises(io, Value))
    case Toggle(_, writable) =>
      if !writable then (d, false)
      else (if Lands(io, Value) then d.(value := v != 0) else d, !Raises(io, Value))
    case Curtain(_, _, _, _) =>
      if v != STOP && v != UP && v != DOWN then (d, false)
      else
        var e := Elapse(d, io.before);
        var e1 := if Lands(io, Value) then e.(openBtn := v == UP) else e;
        if Raises(io, Value) then (e1, false)
        else
          var e2 := Elapse(e1, io.between);
          (if Lands(io, Raise) then e2.(closeBtn := v == DOWN) else e2, !Raises(io, Raise))
    case Templated(pin, hasWrite, hasCommit) =>
      if !hasWrite then (d, false)
      else if hasCommit then
        var (q, ok) := Send(pin, v, io);
        (Templated(q, hasWrite, hasCommit), ok)
      else
        var p := Scans(pin, io.before);
        (Templated(if Lands(io, Value) then Direct(p, v) else p, hasWrite, hasCommit), !Raises(io, Value))
    case Mock(k, _, canWrite) =>
      if (k.ToggleKind? || k.TemplatedKind?) && !canWrite then (d, false)
      else if k.CurtainKind? && v != STOP && v != UP && v != DOWN then (d, false)
      else (d.(level := if k.DaliKind? then F.PctToByte(v) else v), true)
  }

  /** A variable without a commit flag applies a write at once. */
  function Direct(p: Pin, v: int): Pin {
    p.(cmd := v, actual := v, captured := p.captured + [v])
  }

  /** How many ADS writes a command with a pulse issues: none after the one that raises. */
  function PulseCalls(io: Io): nat {
    if Raises(io, Value) then 1 else if Raises(io, Raise) then 2 else 3
  }

  /** How many ADS writes setting a device issues. */
  function WriteCalls(d: Dev, v: int, io: Io): nat {
    match d
    case Dali(_) => PulseCalls(io)
    case Relay(_) => PulseCalls(io)
    case Appliance(_, _) => 1
    case Toggle(_, writable) => if writable then 1 else 0
    case Curtain(_, _, _, _) => if v != STOP && v != UP && v != DOWN then 0 else if Raises(io, Value) then 1 else 2
    case Templated(_, hasWrite, hasCommit) => if !hasWrite then 0 else if hasCommit then PulseCalls(io) else 1
    case Mock(_, _, _) => 0
  }

  /** A device that takes the value: not a read-only toggle, no templated device without a
      write variable, and a curtain only for its three commands. */
  predicate Takes(d: Dev, v: int) {
    && (d.Toggle? ==> d.writable)
    && (d.Templated? ==> d.hasWrite)
    && (d.Mock? && (d.kind.ToggleKind? || d.kind.TemplatedKind?) ==> d.canWrite)
    && (KindOf(d).CurtainKind? ==> 0 <= v <= 2)
  }

  /** The rise of the commit flag, where there is one, finds the previous pulse gone. */
  predicate Ready(d: Dev, io: Io) {
    && (d.Dali? || d.Relay? || (d.Templated? && d.hasCommit) ==> !LatchAtRise(d.pin, io))
  }

  /** What the reading is once the value took effect: a brightness is clamped, a switched
      device reads 0 or 1, a curtain its command, a templated device the value. */
  function ReadsAs(k: Kind, v: int): int {
    match k
    case DaliKind => if v < 0 then 0 else if v > 100 then 100 else v
    case RelayKind => if v == 0 then 0 else 1
    case ApplianceKind => if v == 0 then 0 else 1
    case ToggleKind => if v == 0 then 0 else 1
    case CurtainKind => v
    case TemplatedKind => v
  }

  /** Setting a device whose calls all return reads back as set, from the next scan on; a
      device that does not take the value raises and stays as it is. */
  lemma SetReadsBack(d: Dev, v: int, io: Io, n: nat)
    requires Completed(io) && Ready(d, io) && n >= 1
    ensures Set(d, v, io).1 <==> Takes(d, v)
    ensures Takes(d, v) ==> Reading(Elapse(Set(d, v, io).0, n)) == ReadsAs(KindOf(d), v)
    ensures !Takes(d, v) ==> Set(d, v, io).0 == d
  {
    match d {
      case Dali(pin) =>
        PinTakes(pin, F.PctToByte(v), io, n);
        F.PctRoundTrip(v);
      case Relay(pin) => PinTakes(pin, v, io, n);
      case Templated(pin, hasWrite, hasCommit) =>
        if hasWrite && hasCommit {
          PinTakes(pin, v, io, n);
        } else {
          ScansSettle(pin, io.before);
          DirectStays(Direct(Scans(pin, io.before), v), n);
        }
      case Mock(k, _, _) => F.PctRoundTrip(v);
      case _ =>
    }
  }

  /** Setting a device that takes the value raises exactly when one of its own writes does: the
      three of a pulse, the two buttons of a curtain, or the single one.  A first write that
      fails without taking effect leaves the device to its scans. */
  lemma SetRaisesExactly(d: Dev, v: int, io: Io)
    requires Takes(d, v) && !d.Mock?
    ensures Set(d, v, io).1 <==>
            match d
            case Curtain(_, _, _, _) => io.fail.NoFail? || io.fail.call == Lower
            case Appliance(_, _) => io.fail.NoFail? || io.fail.call != Value
            case Toggle(_, _) => io.fail.NoFail? || io.fail.call != Value
            case Templated(_, _, hasCommit) => io.fail.NoFail? || (!hasCommit && io.fail.call != Value)
            case _ => io.fail.NoFail?
    ensures io.fail == At(Value, false) ==> Set(d, v, io).0 == Elapse(d, io.before)
  {
  }

  lemma PinTakes(p: Pin, v: int, io: Io, n: nat)
    requires Completed(io) && !LatchAtRise(p, io)
    ensures Send(p, v, io).1 && Scans(Send(p, v, io).0, n).actual == v
  {
    CompletedCommand(p, v, io);
    ScansSettle(Send(p, v, io).0, n);
  }

  lemma DirectStays(p: Pin, n: nat)
    requires p.actual == p.cmd
    ensures Scans(p, n).actual == p.cmd
  {
    ScansSettle(p, n);
  }

  // ---- Active tests ----

  /** How the calls of one active test go: the three reads, the two sets, the scans that
      fall into the two waits. */
  datatype TestIo = TestIo(read: bool, flash: Io, wait1: nat, readMid: bool, restore: Io, wait2: nat, readAfter: bool)

  /** `writes` counts the ADS writes issued. */
  datatype Outcome = Outcome(dev: Dev, passed: bool, error: bool, writes: nat)

  function FlashValue(k: Kind, original: int): int {
    match k
    case DaliKind => if original >= 70 then 20 else 80
    case ToggleKind => 1 - original
    case CurtainKind => UP
    case _ => 1
  }

  function RestoreValue(k: Kind, original: int): int {
    if k.CurtainKind? then STOP else original
  }

  predicate ReadsMid(k: Kind) {
    k.RelayKind? || k.ApplianceKind? || k.ToggleKind?
  }

  predicate Verdict(k: Kind, original: int, mid: int, after: int) {
    after == RestoreValue(k, original) && (ReadsMid(k) ==> mid == FlashValue(k, original))
  }

  /** The device after flash, look and restore, the look, and whether every call returned. */
  datatype Exercised = Exercised(dev: Dev, mid: int, ok: bool, writes: nat)

  function Exercise(d: Dev, original: int, t: TestIo): Exercised {
    var k := KindOf(d);
    var flash, restore := FlashValue(k, original), RestoreValue(k, original);
    var (d1, ok1) := Set(d, flash, t.flash);
    var w1 := WriteCalls(d, flash, t.flash);
    var d2 := Elapse(d1, t.wait1);
    if !ok1 then Exercised(d1, 0, false, w1)
    else if ReadsMid(k) && !t.readMid then Exercised(d2, 0, false, w1)
    else
      var (d3, ok3) := Set(d2, restore, t.restore);
      Exercised(d3, Reading(d2), ok3, w1 + WriteCalls(d2, restore, t.restore))
  }

  /** The test as one description for every device type: read, flash, look, restore, compare;
      the first call that raises ends it. */
  function ActiveTest(d: Dev, t: TestIo): Outcome {
    var k := KindOf(d);
    if k.TemplatedKind? || !t.read then Outcome(d, false, true, 0)
    else
      var x := Exercise(d, Reading(d), t);
      var after := Elapse(x.dev, t.wait2);
      if !x.ok then Outcome(x.dev, false, true, x.writes)
      else if !t.readAfter then Outcome(after, false, true, x.writes)
      else Outcome(after, Verdict(k, Reading(d), x.mid, Reading(after)), false, x.writes)
  }

  /** Every call returns and every wait sees a scan. */
  predicate AllReturn(t: TestIo) {
    t.read && t.readMid && t.readAfter && Completed(t.flash) && Completed(t.restore) && t.wait1 >= 1 && t.wait2 >= 1
  }

  predicate Testable(d: Dev) {
    && !KindOf(d).TemplatedKind?
    && (d.Toggle? ==> d.writable)
    && (d.Mock? && d.kind.ToggleKind? ==> d.canWrite)
  }

  /** A test writes to its device exactly when its first read returns; otherwise the device is
      as it was.  In mock mode it never writes. */
  lemma WritesIffRead(d: Dev, t: TestIo)
    requires Testable(d)
    ensures ActiveTest(d, t).writes > 0 <==> t.read && !d.Mock?
    ensures !t.read ==> ActiveTest(d, t).dev == d
  {
  }

  /** The pin after flash, wait, restore, wait, wherever it started: the restored value is in
      force, the flag and latch low. */
  lemma PinRestored(p: Pin, flash: int, v: int, t: TestIo)
    requires AllReturn(t)
    ensures var p2 := Scans(Send(p, flash, t.flash).0, t.wait1);
            var p4 := Scans(Send(p2, v, t.restore).0, t.wait2);
            && Send(p, flash, t.flash).1 && Send(p2, v, t.restore).1
            && !p2.commit && !p2.latch
            && p2.actual == (if LatchAtRise(p, t.flash) then AtRise(p, flash, t.flash).actual else flash)
            && p4.actual == v && !p4.commit && !p4.latch
            && p4.captured == p2.captured + [v]
  {
    CompletedCommand(p, flash, t.flash);
    var p1 := Send(p, flash, t.flash).0;
    ScansSettle(p1, t.wait1);
    var p2 := Scans(p1, t.wait1);
    CompletedCommand(p2, v, t.restore);
    RestAtRise(p2, v, t.restore);
    ScansSettle(Send(p2, v, t.restore).0, t.wait2);
  }

  /** If every call returns, the test ends with the original reading (stop for a curtain) and
      without an error, from whatever state the controller was in.  It passes, with one
      exception that only a relay can show: a flash lost to a latched flag. */
  lemma TestRestores(d: Dev, t: TestIo)
    requires Testable(d) && AllReturn(t)
    ensures var r := ActiveTest(d, t);
            && !r.error
            && Reading(r.dev) == RestoreValue(KindOf(d), Reading(d))
            && (r.passed <==> (d.Relay? && LatchAtRise(d.pin, t.flash) ==> AtRise(d.pin, 1, t.flash).actual != 0))
  {
    match d {
      case Dali(pin) =>
        var original := Reading(d);
        DaliReadingRange(pin.actual);
        F.PctRoundTrip(original);
        PinRestored(pin, F.PctToByte(FlashValue(DaliKind, original)), F.PctToByte(original), t);
      case Relay(pin) =>
        PinRestored(pin, 1, Reading(d), t);
      case Mock(k, level, _) =>
        if k.DaliKind? {
          DaliReadingRange(level);
          F.PctRoundTrip(Reading(d));
        }
      case _ =>
    }
  }

  /** What the flash of a test does when every call returns and no pulse is still latched: a
      lamp goes to 20 or 80 percent, at least 11 away from where it was, a toggle is turned
      over, a curtain goes up, a relay or an appliance is switched on, which moves it exactly
      when it was off. */
  lemma FlashMoves(d: Dev, t: TestIo)
    requires Testable(d) && AllReturn(t) && Ready(d, t.flash)
    ensures var was, mid := Reading(d), Exercise(d, Reading(d), t).mid;
            match KindOf(d)
            case DaliKind => mid == (if was < 70 then 80 else 20) && (mid - was >= 11 || was - mid >= 11)
            case ToggleKind => mid == (if was == 0 then 1 else 0)
            case CurtainKind => mid == UP
            case _ => mid == 1
  {
    var v := FlashValue(KindOf(d), Reading(d));
    SetReadsBack(d, v, t.flash, t.wait1);
    if d.Dali? { DaliReadingRange(d.pin.actual); }
    if d.Mock? && d.kind.DaliKind? { DaliReadingRange(d.level); }
  }

  /** Whatever went wrong on the way: a test passes exactly when no call raised, the reading at
      its end is the one at its start, stop for a curtain, and in between a relay or appliance
      read 1 and a toggle the opposite. */
  lemma PassedExactly(d: Dev, t: TestIo)
    ensures var r, was, k := ActiveTest(d, t), Reading(d), KindOf(d);
            var mid := Exercise(d, was, t).mid;
            r.passed <==> && !r.error
                          && Reading(r.dev) == (if k.CurtainKind? then STOP else was)
                          && (k.RelayKind? || k.ApplianceKind? ==> mid == 1)
                          && (k.ToggleKind? ==> mid == 1 - was)
  {
  }

  lemma DaliReadingRange(b: int)
    ensures 0 <= F.ByteToPct(b) <= 100
  {
  }

  /** A dimmer's raw level after the test is the byte of the original percentage; it is the
      byte it started with exactly when a percentage maps to that byte. */
  lemma DaliByteAfterTest(p: Pin, t: TestIo)
    requires AllReturn(t) && 0 <= p.actual <= 254
    ensures ActiveTest(Dali(p), t).dev.Dali?
    ensures ActiveTest(Dali(p), t).dev.pin.actual == p.actual <==>
            exists pct :: 0 <= pct <= 100 && F.PctToByte(pct) == p.actual
  {
    var original := F.ByteToPct(p.actual);
    F.ByteRoundTrip(p.actual);
    PinRestored(p, F.PctToByte(FlashValue(DaliKind, original)), F.PctToByte(original), t);
  }

  /** A raw level no percentage maps to, such as 1, does not survive: the test leaves the
      lamp, which read 0 percent, at level 0, and passes. */
  lemma RawLevelLost(t: TestIo)
    requires AllReturn(t)
    ensures var r := ActiveTest(Dali(Pin(1, false, false, 1, [])), t);
            r.passed && r.dev.Dali? && r.dev.pin.actual == 0
  {
    var p := Pin(1, false, false, 1, []);
    TestRestores(Dali(p), t);
    assert F.ByteToPct(1) == 0 && F.PctToByte(0) == 0;
    PinRestored(p, F.PctToByte(80), 0, t);
  }

  /** A dimmer whose flag was left high passes its test although it never flashed: the only
      value captured is the restored one. */
  lemma DaliPassesUnseen(p: Pin, t: TestIo)
    requires AllReturn(t) && p.commit && p.latch
    ensures ActiveTest(Dali(p), t).passed && ActiveTest(Dali(p), t).dev.Dali?
    ensures ActiveTest(Dali(p), t).dev.pin.captured == p.captured + [F.PctToByte(F.ByteToPct(p.actual))]
  {
    TestRestores(Dali(p), t);
    var original := F.ByteToPct(p.actual);
    var flash := F.PctToByte(FlashValue(DaliKind, original));
    PinRestored(p, flash, F.PctToByte(original), t);
    CompletedCommand(p, flash, t.flash);
    ScansSettle(p, t.flash.before);
    ScansSettle(Scans(p, t.flash.before).(cmd := flash), t.flash.between);
    ScansSettle(Send(p, flash, t.flash).0, t.wait1);
  }

  /** A relay that is off with its flag left high fails its test although every call returns:
      the flash is lost, and only the restore is captured. */
  lemma RelayFlashLost(t: TestIo)
    requires AllReturn(t)
    ensures var r := ActiveTest(Relay(Pin(0, true, true, 0, [])), t);
            !r.error && !r.passed && r.dev.Relay? && r.dev.pin.captured == [0]
  {
    var p := Pin(0, true, true, 0, []);
    TestRestores(Relay(p), t);
    PinRestored(p, 1, 0, t);
    CompletedCommand(p, 1, t.flash);
    ScansSettle(p, t.flash.before);
    ScansSettle(Scans(p, t.flash.before).(cmd := 1), t.flash.between);
    ScansSettle(Send(p, 1, t.flash).0, t.wait1);
  }

  /** A failing read between flash and restore ends the test with an error and the lamp on,
      also when it was off: nothing restores it. */
  lemma FailedReadLeavesLampOn(p: Pin, t: TestIo, n: nat)
    requires t.read && Completed(t.flash) && !t.readMid && !LatchAtRise(p, t.flash)
    ensures var r := ActiveTest(Relay(p), t);
            r.error && !r.passed && Reading(Elapse(r.dev, n)) == 1
  {
    CompletedCommand(p, 1, t.flash);
    var q := Send(p, 1, t.flash).0;
    ScansSettle(q, t.wait1);
    ScansSettle(Scans(q, t.wait1), n);
  }

  // ---- The device objects ----

  /** A device object and the controller behind it.  `Pass` lets the controller scan while a
      call is under way or the thread sleeps; the other methods are the source's. */
  class Device {
    var dev: Dev
    /** The ADS writes issued so far. */
    var writes: nat

    constructor (d: Dev)
      ensures dev == d && writes == 0
    {
      dev, writes := d, 0;
    }

    method Pass(n: nat)
      modifies this`dev
      ensures dev == Elapse(old(dev), n)
    {
      dev := Elapse(dev, n);
    }

    /** Write the command, raise the flag, sleep 50 ms, lower the flag; a call that raises
        leaves the rest undone. */
    method Pulse(v: int, io: Io) returns (ok: bool)
      requires dev.Dali? || dev.Relay? || dev.Templated?
      modifies this
      ensures dev == old(dev).(pin := Send(old(dev.pin), v, io).0)
      ensures ok == Send(old(dev.pin), v, io).1 && writes == old(writes) + PulseCalls(io)
    {
      Pass(io.before);
      writes := writes + 1;
      if Lands(io, Value) { dev := dev.(pin := dev.pin.(cmd := v)); }
      if Raises(io, Value) { return false; }
      Pass(io.between);
      writes := writes + 1;
      if Lands(io, Raise) { dev := dev.(pin := dev.pin.(commit := true)); }
      if Raises(io, Raise) { return false; }
      Pass(io.pulse);
      writes := writes + 1;
      if Lands(io, Lower) { dev := dev.(pin := dev.pin.(commit := false)); }
      return !Raises(io, Lower);
    }

    method SetBrightness(percent: int, io: Io) returns (ok: bool)
      requires KindOf(dev).DaliKind?
      modifies this
      ensures (dev, ok) == Set(old(dev), percent, io)
      ensures writes == old(writes) + WriteCalls(old(dev), percent, io)
    {
      var level := F.PctToByte(percent);
      if dev.Mock? {
        dev := dev.(level := level);
        return true;
      }
      ok := Pulse(level, io);
    }

    /** WallRelay, ApplianceRelay and NamedRelay set_state. */
    method SetState(v: int, io: Io) returns (ok: bool)
      requires KindOf(dev).RelayKind? || KindOf(dev).ApplianceKind? || KindOf(dev).ToggleKind?
      modifies this
      ensures (dev, ok) == Set(old(dev), v, io)
      ensures writes == old(writes) + WriteCalls(old(dev), v, io)
    {
      if (dev.Toggle? && !dev.writable) || (dev.Mock? && dev.kind.ToggleKind? && !dev.canWrite) { return false; }
      if dev.Mock? {
        dev := dev.(level := v);
        return true;
      }
      if dev.Relay? {
        ok := Pulse(v, io);
        return;
      }
      Pass(io.before);
      writes := writes + 1;
      if Lands(io, Value) {
        dev := if dev.Toggle? then dev.(value := v != 0) else dev.(cmd := v != 0);
      }
      return !Raises(io, Value);
    }

    method SetCommand(v: int, io: Io) returns (ok: bool)
      requires KindOf(dev).CurtainKind?
      modifies this
      ensures (dev, ok) == Set(old(dev), v, io)
      ensures writes == old(writes) + WriteCalls(old(dev), v, io)
    {
      if v != STOP && v != UP && v != DOWN { return false; }
      if dev.Mock? {
        dev := dev.(level := v);
        return true;
      }
      Pass(io.before);
      writes := writes + 1;
      if Lands(io, Value) { dev := dev.(openBtn := v == UP); }
      if Raises(io, Value) { return false; }
      Pass(io.between);
      writes := writes + 1;
      if Lands(io, Raise) { dev := dev.(closeBtn := v == DOWN); }
      return !Raises(io, Raise);
    }

    /** TemplatedDevice.write: the pulse only when the scheme has a commit variable. */
    method WriteTemplated(v: int, io: Io) returns (ok: bool)
      requires KindOf(dev).TemplatedKind?
      modifies this
      ensures (dev, ok) == Set(old(dev), v, io)
      ensures writes == old(writes) + WriteCalls(old(dev), v, io)
    {
      if (dev.Templated? && !dev.hasWrite) || (dev.Mock? && !dev.canWrite) { return false; }
      if dev.Mock? {
        dev := dev.(level := v);
        return true;
      }
      if dev.hasCommit {
        ok := Pulse(v, io);
        return;
      }
      Pass(io.before);
      writes := writes + 1;
      if Lands(io, Value) { dev := dev.(pin := Direct(dev.pin, v)); }
      return !Raises(io, Value);
    }

    /** The middle of the active test, one branch per device type. */
    method FlashAndRestore(original: int, t: TestIo) returns (mid: int, ok: bool)
      requires !KindOf(dev).TemplatedKind?
      modifies this
      ensures var x := Exercise(old(dev), original, t);
              && dev == x.dev && ok == x.ok && writes == old(writes) + x.writes
              && (ok && ReadsMid(KindOf(dev)) ==> mid == x.mid)
    {
      var kind := KindOf(dev);
      mid := 0;
      if kind.DaliKind? {
        ok := SetBrightness(if original >= 70 then 20 else 80, t.flash);
        if !ok { return; }
        Pass(t.wait1);
        ok := SetBrightness(original, t.restore);
      } else if kind.CurtainKind? {
        ok := SetCommand(UP, t.flash);
        if !ok { return; }
        Pass(t.wait1);
        ok := SetCommand(STOP, t.restore);
      } else {
        ok := SetState(if kind.ToggleKind? then 1 - original else 1, t.flash);
        if !ok { return; }
        Pass(t.wait1);
        if !t.readMid { return mid, false; }
        mid := Reading(dev);
        ok := SetState(original, t.restore);
      }
    }

    /** SuperScan's active test; `error` when a call raised or the type has no test. */
    method SafeActiveTest(t: TestIo) returns (passed: bool, error: bool)
      modifies this
      ensures writes >= old(writes)
      ensures Outcome(dev, passed, error, writes - old(writes)) == ActiveTest(old(dev), t)
    {
      var kind := KindOf(dev);
      if kind.TemplatedKind? || !t.read { return false, true; }
      var original := Reading(dev);
      var mid, ok := FlashAndRestore(original, t);
      if !ok { return false, true; }
      Pass(t.wait2);
      if !t.readAfter { return false, true; }
      var after := Reading(dev);
      if kind.DaliKind? {
        passed := after == original;
      } else if kind.CurtainKind? {
        passed := after == STOP;
      } else if kind.ToggleKind? {
        passed := mid == 1 - original && after == original;
      } else {
        passed := mid == 1 && after == original;
      }
      error := false;
    }
  }
}
