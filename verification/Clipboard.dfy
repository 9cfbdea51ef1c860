/**
 One device's clipboard: src/clipboard/capture.js. Reads and writes of the operating
 system's clipboard take time, so a write has a start, a moment at which it lands, and
 an end, and a read has a start, a moment at which it samples, and an end. Everything
 else may happen in between.
 */
module Clipboard {

  import opened Options
  import opened Guard

  datatype Origin = Peer(raw: Text) | Own

  /** How a write came to start. */
  datatype Cause = Direct | Flushed | Confirmed

  /** The pending slot: a clip waiting for a gesture or for a timer. */
  datatype Held = Held(text: Text, risk: bool, num: nat, origin: Origin)

  /** A write taken from the pending slot can go back to it, in its own session. */
  datatype Owed = Owed(risk: bool, gen: nat)

  /**
   An operating system write. A refused one that came from the slot is `refused` until
   `writePending` goes on; `writeNow` has taken its claim back by then.
   */
  datatype Write = Write(text: Text, prev: Text, num: nat, owed: Option<Owed>, origin: Origin, cause: Cause,
                         landed: bool, refused: bool, alone: bool)

  datatype Read = Read(native: bool, deliberate: bool, value: Option<Text>, stale: bool)

  /** History: a write that started, and the newest arrival known to have landed by then. */
  datatype Start = Start(text: Text, num: nat, written: nat, origin: Origin, cause: Cause)

  /** The order of clips. `top` is the highest number that ever landed, `log` every write started. */
  datatype Ledger = Ledger(
    pending: Option<Held>, arrivalNum: nat, writtenNum: nat, gen: nat,
    writes: map<nat, Write>, nextWrite: nat, top: nat, log: seq<Start>)

  /** `os` is what the clipboard holds, `sent` every clip captured. */
  datatype Device = Device(
    l: Ledger, binds: bool, lastSent: Text, suppressed: bool, recent: bool, graceTimer: bool,
    looks: map<nat, Read>, nextRead: nat, os: Text, sent: seq<Text>)

  type Danger = Text -> bool

  // ------------------------------------------------------------------
  // Writing.
  // ------------------------------------------------------------------

  function Numbered(l: Ledger): Ledger {
    l.(arrivalNum := l.arrivalNum + 1)
  }

  function Crowd(writes: map<nat, Write>): map<nat, Write> {
    map w | w in writes :: writes[w].(alone := false)
  }

  function Begin(l: Ledger, text: Text, prev: Text, num: nat, owed: Option<Owed>, origin: Origin, cause: Cause): Ledger {
    l.(writes := Crowd(l.writes)[l.nextWrite := Write(text, prev, num, owed, origin, cause, false, false, l.writes == map[])],
       nextWrite := l.nextWrite + 1,
       log := l.log + [Start(text, num, l.writtenNum, origin, cause)])
  }

  /** The claim and the suppression window come before the write. */
  function WriteNow(d: Device, text: Text, num: nat, owed: Option<Owed>, origin: Origin, cause: Cause): Device {
    d.(l := Begin(d.l, text, d.lastSent, num, owed, origin, cause), lastSent := text, suppressed := true)
  }

  function Discard(d: Device): Device {
    if d.l.pending.None? then d else d.(l := d.l.(pending := None), graceTimer := false)
  }

  function Apply(danger: Danger, d: Device, raw: Text, focus: bool): Device {
    if !d.binds then d
    else
      var d1 := d.(l := Numbered(d.l));
      var text := Defuse(raw);
      if text == [] then d1
      else
        var risk := Flagged(danger, text);
        if risk || !focus || d.recent then
          d1.(l := d1.l.(pending := Some(Held(text, risk, d1.l.arrivalNum, Peer(raw)))),
              graceTimer := d.graceTimer || (!risk && focus))
        else
          WriteNow(d1, text, d1.l.arrivalNum, None, Peer(raw), Direct)
  }

  function PutOnClipboard(d: Device, text: Text, focus: bool): Device {
    if !d.binds || text == [] then d
    else
      var d1 := d.(l := Numbered(d.l));
      if !focus then d1.(l := d1.l.(pending := Some(Held(text, false, d1.l.arrivalNum, Own))))
      else WriteNow(d1.(recent := true), text, d1.l.arrivalNum, None, Own, Direct)
  }

  function WritePending(d: Device, cause: Cause): Device {
    if d.l.pending.None? then d
    else if !d.binds then Discard(d)
    else
      var held := d.l.pending.value;
      var d1 := d.(l := d.l.(pending := None), graceTimer := false);
      if held.num <= d.l.writtenNum then d1
      else WriteNow(d1, held.text, held.num, Some(Owed(held.risk, d.l.gen)), held.origin, cause)
  }

  function Flush(d: Device): Device {
    if d.l.pending.None? || d.l.pending.value.risk then d else WritePending(d, Flushed)
  }

  function Confirm(d: Device): Device {
    WritePending(d, Confirmed)
  }

  function GraceFires(d: Device, focus: bool): Device {
    if !d.graceTimer then d
    else if d.l.pending.None? || d.l.pending.value.risk then d.(graceTimer := false)
    else if d.recent then d
    else if !focus then d.(graceTimer := false)
    else Flush(d.(graceTimer := false))
  }

  /** The operating system takes the text. */
  function Land(d: Device, w: nat): Device
    requires w in d.l.writes
  {
    d.(l := Landed(d.l, w), os := d.l.writes[w].text)
  }

  function Landed(l: Ledger, w: nat): Ledger
    requires w in l.writes
  {
    var write := l.writes[w];
    l.(writes := l.writes[w := write.(landed := true)], top := if write.num > l.top then write.num else l.top)
  }

  /** A landed write raises the mark, and takes an older held clip with it. */
  function Taken(l: Ledger, num: nat): Ledger {
    if num <= l.writtenNum then l
    else if l.pending.Some? && l.pending.value.num < num then l.(writtenNum := num, pending := None)
    else l.(writtenNum := num)
  }

  /** A refused clip that is still owed goes back to the slot. */
  function Returned(l: Ledger, write: Write): Ledger {
    if write.owed.Some? && write.owed.value.gen == l.gen && l.pending.None? && write.num > l.writtenNum
    then l.(pending := Some(Held(write.text, write.owed.value.risk, write.num, write.origin)))
    else l
  }

  function Aged(looks: map<nat, Read>): map<nat, Read> {
    map r | r in looks :: looks[r].(stale := true)
  }

  /** What the end of the write itself does to the order of clips. */
  function Settled(l: Ledger, w: nat): Ledger
    requires w in l.writes
  {
    var write := l.writes[w];
    if write.landed then Taken(l.(writes := l.writes - {w}), write.num)
    else if write.owed.Some? then l.(writes := l.writes[w := write.(refused := true)])
    else l.(writes := l.writes - {w})
  }

  /** The write's promise settles: it succeeded if the text landed, and else takes its claim back. */
  function Done(d: Device, w: nat): Device
    requires w in d.l.writes
  {
    var write := d.l.writes[w];
    if write.landed then
      d.(l := Settled(d.l, w), looks := Aged(d.looks),
         graceTimer := d.graceTimer && !(d.l.pending.Some? && Settled(d.l, w).pending.None?))
    else
      d.(l := Settled(d.l, w), looks := Aged(d.looks),
         lastSent := if d.lastSent == write.text then write.prev else d.lastSent)
  }

  /** The rest of `writePending` after a refusal: everything is asked again. */
  function Resumed(l: Ledger, w: nat): Ledger
    requires w in l.writes
  {
    Returned(l.(writes := l.writes - {w}), l.writes[w])
  }

  function Resume(d: Device, w: nat): Device
    requires w in d.l.writes
  {
    d.(l := Resumed(d.l, w))
  }

  // ------------------------------------------------------------------
  // Reading.
  // ------------------------------------------------------------------

  function Capture(d: Device, text: Text): Device {
    if Trim(text) == [] || Trim(text) == Trim(d.lastSent) || d.suppressed then d
    else d.(lastSent := text, sent := d.sent + [text])
  }

  /** A gesture gives this machine's copies precedence for a while; a poll that finds nothing new does not. */
  function FromClipboard(d: Device, text: Text, deliberate: bool): Device {
    Capture(d.(recent := d.recent || deliberate || Trim(text) != Trim(d.lastSent)), text)
  }

  function TryRead(d: Device, deliberate: bool): Device {
    if !d.binds || d.suppressed then d
    else if d.l.pending.Some? && !d.l.pending.value.risk && !d.recent then Flush(d)
    else d.(looks := d.looks[d.nextRead := Read(false, deliberate, None, false)], nextRead := d.nextRead + 1)
  }

  /** A native host reports what the clipboard holds; the report takes its time too. */
  function NativeReport(d: Device): Device {
    d.(looks := d.looks[d.nextRead := Read(true, true, Some(d.os), false)], nextRead := d.nextRead + 1)
  }

  function Sample(d: Device, r: nat): Device
    requires r in d.looks
  {
    if d.looks[r].value.Some? then d else d.(looks := d.looks[r := d.looks[r].(value := Some(d.os))])
  }

  function ReadDone(d: Device, r: nat): Device
    requires r in d.looks
  {
    var read := d.looks[r];
    var d1 := d.(looks := d.looks - {r});
    if read.value.None? || read.value.value == [] || !d.binds || (read.native && d.suppressed) then d1
    else FromClipboard(d1, read.value.value, read.deliberate)
  }

  function Paste(d: Device): Device {
    if d.os == [] then d else FromClipboard(d, d.os, true)
  }

  // ------------------------------------------------------------------
  // Session and mode.
  // ------------------------------------------------------------------

  function ForgetSession(d: Device): Device {
    Discard(d.(l := d.l.(gen := d.l.gen + 1)))
  }

  function SetMode(d: Device, binds: bool): Device {
    if binds then d.(binds := true) else Discard(d.(binds := false))
  }

  datatype Event =
    | Arrives(raw: Text, focus: bool)
    | Puts(text: Text, focus: bool)
    | Focuses
    | Confirms
    | Declines
    | GraceEnds(focus: bool)
    | Lands(w: nat)
    | Ends(w: nat)
    | Resumes(w: nat)
    | Looks(deliberate: bool)
    | Reports
    | Samples(r: nat)
    | Answers(r: nat)
    | Pastes
    | Copies(text: Text)
    | WindowEnds
    | RecentEnds
    | Leaves
    | Mode(binds: bool)

  predicate Possible(d: Device, e: Event) {
    match e
    case Lands(w) => w in d.l.writes && !d.l.writes[w].landed && !d.l.writes[w].refused
    case Ends(w) => w in d.l.writes && !d.l.writes[w].refused
    case Resumes(w) => w in d.l.writes && d.l.writes[w].refused
    case Samples(r) => r in d.looks
    case Answers(r) => r in d.looks
    case _ => true
  }

  function Next(danger: Danger, d: Device, e: Event): Device
    requires Possible(d, e)
  {
    match e
    case Arrives(raw, focus) => Apply(danger, d, raw, focus)
    case Puts(text, focus) => PutOnClipboard(d, text, focus)
    case Focuses => Flush(d)
    case Confirms => Confirm(d)
    case Declines => Discard(d)
    case GraceEnds(focus) => GraceFires(d, focus)
    case Lands(w) => Land(d, w)
    case Ends(w) => Done(d, w)
    case Resumes(w) => Resume(d, w)
    case Looks(deliberate) => TryRead(d, deliberate)
    case Reports => NativeReport(d)
    case Samples(r) => Sample(d, r)
    case Answers(r) => ReadDone(d, r)
    case Pastes => Paste(d)
    case Copies(text) => d.(os := text)
    case WindowEnds => d.(suppressed := false)
    case RecentEnds => d.(recent := false)
    case Leaves => ForgetSession(d)
    case Mode(binds) => SetMode(d, binds)
  }

  // ------------------------------------------------------------------
  // What a step can do to the ledger.
  // ------------------------------------------------------------------

  /** The few ways in which the ledger ever changes. */
  ghost predicate Moves(danger: Danger, l: Ledger, m: Ledger) {
    || m == l
    || m == l.(pending := None)
    || m == l.(gen := l.gen + 1, pending := None)
    || m == Numbered(l)
    || (exists raw, prev :: ArrivalMoves(danger, l, m, raw, prev))
    || (exists text, prev :: PutMoves(l, m, text, prev))
    || (exists prev, cause :: SlotMoves(l, m, prev, cause))
    || (exists w :: w in l.writes && !l.writes[w].landed && !l.writes[w].refused && m == Landed(l, w))
    || (exists w :: w in l.writes && !l.writes[w].refused && m == Settled(l, w))
    || (exists w :: w in l.writes && l.writes[w].refused && m == Resumed(l, w))
  }

  ghost predicate ArrivalMoves(danger: Danger, l: Ledger, m: Ledger, raw: Text, prev: Text) {
    var text := Defuse(raw);
    var risk := Flagged(danger, text);
    || m == Numbered(l).(pending := Some(Held(text, risk, l.arrivalNum + 1, Peer(raw))))
    || (!risk && m == Begin(Numbered(l), text, prev, l.arrivalNum + 1, None, Peer(raw), Direct))
  }

  ghost predicate PutMoves(l: Ledger, m: Ledger, text: Text, prev: Text) {
    || m == Numbered(l).(pending := Some(Held(text, false, l.arrivalNum + 1, Own)))
    || m == Begin(Numbered(l), text, prev, l.arrivalNum + 1, None, Own, Direct)
  }

  ghost predicate SlotMoves(l: Ledger, m: Ledger, prev: Text, cause: Cause) {
    && l.pending.Some? && l.pending.value.num > l.writtenNum && (l.pending.value.risk ==> cause.Confirmed?)
    && var held := l.pending.value;
       m == Begin(l.(pending := None), held.text, prev, held.num, Some(Owed(held.risk, l.gen)), held.origin, cause)
  }

  lemma WritePendingMoves(danger: Danger, d: Device, cause: Cause)
    requires d.l.pending.Some? && d.l.pending.value.risk ==> cause.Confirmed?
    ensures Moves(danger, d.l, WritePending(d, cause).l)
  {
    hide Begin;
    if d.l.pending.Some? && d.binds && d.l.pending.value.num > d.l.writtenNum {
      assert SlotMoves(d.l, WritePending(d, cause).l, d.lastSent, cause);
    }
  }

  lemma ApplyMoves(danger: Danger, d: Device, raw: Text, focus: bool)
    ensures Moves(danger, d.l, Apply(danger, d, raw, focus).l)
  {
    hide Begin, Defuse, Flagged;
    if d.binds && Defuse(raw) != [] {
      assert ArrivalMoves(danger, d.l, Apply(danger, d, raw, focus).l, raw, d.lastSent);
    }
  }

  lemma PutMovesIt(danger: Danger, d: Device, text: Text, focus: bool)
    ensures Moves(danger, d.l, PutOnClipboard(d, text, focus).l)
  {
    hide Begin;
    if d.binds && text != [] {
      assert PutMoves(d.l, PutOnClipboard(d, text, focus).l, text, d.lastSent);
    }
  }

  lemma NextMoves(danger: Danger, d: Device, e: Event)
    requires Possible(d, e)
    ensures Moves(danger, d.l, Next(danger, d, e).l)
  {
    hide Moves, Apply, PutOnClipboard, WritePending, Capture, Landed, Settled, Resumed;
    match e {
      case Arrives(raw, focus) => ApplyMoves(danger, d, raw, focus);
      case Puts(text, focus) => PutMovesIt(danger, d, text, focus);
      case Focuses => Idle(danger, d.l); if d.l.pending.Some? && !d.l.pending.value.risk { WritePendingMoves(danger, d, Flushed); }
      case Confirms => WritePendingMoves(danger, d, Confirmed);
      case GraceEnds(_) =>
        Idle(danger, d.l);
        if d.l.pending.Some? && !d.l.pending.value.risk { WritePendingMoves(danger, d.(graceTimer := false), Flushed); }
      case Looks(_) => Idle(danger, d.l); if d.l.pending.Some? && !d.l.pending.value.risk { WritePendingMoves(danger, d, Flushed); }
      case Lands(w) => WriteMoves(danger, d.l, w);
      case Ends(w) => WriteMoves(danger, d.l, w);
      case Resumes(w) => WriteMoves(danger, d.l, w);
      case Leaves => Idle(danger, d.l);
      case _ => Idle(danger, d.l); CaptureKeepsLedger();
    }
  }

  lemma CaptureKeepsLedger()
    ensures forall d, text {:trigger Capture(d, text)} :: Capture(d, text).l == d.l
  {
  }

  lemma Idle(danger: Danger, l: Ledger)
    ensures Moves(danger, l, l) && Moves(danger, l, l.(pending := None)) && Moves(danger, l, l.(gen := l.gen + 1, pending := None))
    ensures l.pending.None? ==> Moves(danger, l, l.(gen := l.gen + 1))
  {
    if l.pending.None? {
      assert l.(gen := l.gen + 1) == l.(gen := l.gen + 1, pending := None);
    }
  }

  lemma WriteMoves(danger: Danger, l: Ledger, w: nat)
    requires w in l.writes
    ensures !l.writes[w].landed && !l.writes[w].refused ==> Moves(danger, l, Landed(l, w))
    ensures !l.writes[w].refused ==> Moves(danger, l, Settled(l, w))
    ensures l.writes[w].refused ==> Moves(danger, l, Resumed(l, w))
  {
    hide Landed, Settled, Resumed;
  }

  // ------------------------------------------------------------------
  // Order.
  // ------------------------------------------------------------------

  ghost predicate SlotInOrder(l: Ledger) {
    && l.writtenNum <= l.arrivalNum
    && (l.pending.Some? ==> l.writtenNum < l.pending.value.num <= l.arrivalNum)
  }

  /** No two clips still on their way share an arrival number. */
  ghost predicate WritesInOrder(l: Ledger) {
    && (forall w :: w in l.writes ==> w < l.nextWrite && l.writes[w].num <= l.arrivalNum)
    && (forall v, w :: v in l.writes && w in l.writes && v != w ==> l.writes[v].num != l.writes[w].num)
    && (l.pending.Some? ==> forall w :: w in l.writes ==> l.writes[w].num != l.pending.value.num)
  }

  ghost predicate LandedInOrder(l: Ledger) {
    && (l.top <= l.writtenNum || exists w :: w in l.writes && l.writes[w].landed && l.writes[w].num >= l.top)
    && (forall w :: w in l.writes && l.writes[w].alone ==> l.writes.Keys == {w} && l.writtenNum < l.writes[w].num)
    && (forall w :: w in l.writes && l.writes[w].refused ==> !l.writes[w].landed)
  }

  ghost predicate LogInOrder(l: Ledger) {
    forall k :: 0 <= k < |l.log| ==> l.log[k].written < l.log[k].num
  }

  ghost predicate OrderInv(l: Ledger) {
    SlotInOrder(l) && WritesInOrder(l) && LandedInOrder(l) && LogInOrder(l)
  }

  predicate Startable(l: Ledger, num: nat) {
    && l.writtenNum < num <= l.arrivalNum
    && (l.pending.Some? ==> l.pending.value.num != num)
    && forall w :: w in l.writes ==> l.writes[w].num != num
  }

  lemma BeginDistinct(l: Ledger, text: Text, prev: Text, num: nat, owed: Option<Owed>, origin: Origin, cause: Cause)
    requires WritesInOrder(l) && Startable(l, num)
    ensures WritesInOrder(Begin(l, text, prev, num, owed, origin, cause))
  {
    var m := Begin(l, text, prev, num, owed, origin, cause);
    assert m.writes.Keys == l.writes.Keys + {l.nextWrite};
    assert forall w :: w in l.writes ==> m.writes[w].num == l.writes[w].num;
  }

  lemma BeginLanded(l: Ledger, text: Text, prev: Text, num: nat, owed: Option<Owed>, origin: Origin, cause: Cause)
    requires LandedInOrder(l) && Startable(l, num) && forall w :: w in l.writes ==> w < l.nextWrite
    ensures LandedInOrder(Begin(l, text, prev, num, owed, origin, cause))
  {
    var m := Begin(l, text, prev, num, owed, origin, cause);
    if l.top > l.writtenNum {
      var w :| w in l.writes && l.writes[w].landed && l.writes[w].num >= l.top;
      assert m.writes[w].landed && m.writes[w].num >= m.top;
    }
  }

  /** Starting a write above everything known to have landed. */
  lemma BeginInOrder(l: Ledger, text: Text, prev: Text, num: nat, owed: Option<Owed>, origin: Origin, cause: Cause)
    requires OrderInv(l) && Startable(l, num)
    ensures OrderInv(Begin(l, text, prev, num, owed, origin, cause))
  {
    hide LandedInOrder;
    BeginDistinct(l, text, prev, num, owed, origin, cause);
    BeginLanded(l, text, prev, num, owed, origin, cause);
  }

  /** Only the slot, or the next number, is different. */
  lemma SlotOnly(l: Ledger, m: Ledger)
    requires OrderInv(l) && m.arrivalNum >= l.arrivalNum
    requires m == l.(pending := m.pending, arrivalNum := m.arrivalNum, gen := m.gen)
    requires m.pending.Some? ==> l.writtenNum < m.pending.value.num <= m.arrivalNum
    requires m.pending.Some? ==> forall w :: w in m.writes ==> m.writes[w].num != m.pending.value.num
    ensures OrderInv(m)
  {
  }

  lemma LandedDistinct(l: Ledger, w: nat)
    requires WritesInOrder(l) && w in l.writes
    ensures WritesInOrder(Landed(l, w))
  {
    assert Landed(l, w).writes.Keys == l.writes.Keys;
  }

  lemma LandedTop(l: Ledger, w: nat)
    requires LandedInOrder(l) && w in l.writes && !l.writes[w].refused
    ensures LandedInOrder(Landed(l, w))
  {
    var m := Landed(l, w);
    assert m.writes.Keys == l.writes.Keys;
    if l.writes[w].num > l.top {
      assert m.writes[w].landed && m.writes[w].num >= m.top;
    } else if l.top > l.writtenNum {
      var v :| v in l.writes && l.writes[v].landed && l.writes[v].num >= l.top;
      assert m.writes[v].landed && m.writes[v].num >= m.top;
    }
  }

  lemma LandedKeepsOrder(l: Ledger, w: nat)
    requires OrderInv(l) && w in l.writes && !l.writes[w].refused
    ensures OrderInv(Landed(l, w))
  {
    hide WritesInOrder, LandedInOrder;
    LandedDistinct(l, w);
    LandedTop(l, w);
  }

  lemma TakenInOrder(l: Ledger, w: nat)
    requires OrderInv(l) && w in l.writes && l.writes[w].landed
    ensures OrderInv(Settled(l, w))
  {
    var m := Settled(l, w);
    assert m.writes == l.writes - {w};
    if l.top > m.writtenNum {
      var v :| v in l.writes && l.writes[v].landed && l.writes[v].num >= l.top;
      assert v in m.writes;
    }
  }

  lemma WithdrawnInOrder(l: Ledger, w: nat)
    requires OrderInv(l) && w in l.writes && !l.writes[w].landed
    ensures OrderInv(l.(writes := l.writes - {w}))
  {
    if l.top > l.writtenNum {
      var v :| v in l.writes && l.writes[v].landed && l.writes[v].num >= l.top;
      assert v in l.writes - {w};
    }
  }

  lemma RefusedInOrder(l: Ledger, w: nat)
    requires OrderInv(l) && w in l.writes && !l.writes[w].landed
    ensures OrderInv(l.(writes := l.writes[w := l.writes[w].(refused := true)]))
  {
    var m := l.(writes := l.writes[w := l.writes[w].(refused := true)]);
    assert m.writes.Keys == l.writes.Keys;
    if l.top > l.writtenNum {
      var v :| v in l.writes && l.writes[v].landed && l.writes[v].num >= l.top;
      assert m.writes[v].landed && m.writes[v].num >= m.top;
    }
  }

  lemma ResumedInOrder(l: Ledger, w: nat)
    requires OrderInv(l) && w in l.writes && l.writes[w].refused
    ensures OrderInv(Resumed(l, w))
  {
    assert !l.writes[w].landed;
    hide LandedInOrder, LogInOrder;
    WithdrawnInOrder(l, w);
    SlotOnly(l.(writes := l.writes - {w}), Resumed(l, w));
  }

  lemma SettledInOrder(l: Ledger, w: nat)
    requires OrderInv(l) && w in l.writes
    ensures OrderInv(Settled(l, w))
  {
    hide OrderInv, Taken;
    if l.writes[w].landed {
      TakenInOrder(l, w);
    } else {
      RefusedInOrder(l, w);
      WithdrawnInOrder(l, w);
    }
  }

  lemma ArrivalInOrder(danger: Danger, l: Ledger, m: Ledger, raw: Text, prev: Text)
    requires OrderInv(l) && ArrivalMoves(danger, l, m, raw, prev)
    ensures OrderInv(m)
  {
    hide Begin, LandedInOrder, LogInOrder, Defuse, Flagged;
    SlotOnly(l, Numbered(l));
    if m == Begin(Numbered(l), Defuse(raw), prev, l.arrivalNum + 1, None, Peer(raw), Direct) {
      BeginInOrder(Numbered(l), Defuse(raw), prev, l.arrivalNum + 1, None, Peer(raw), Direct);
    } else {
      SlotOnly(l, m);
    }
  }

  lemma PutInOrder(l: Ledger, m: Ledger, text: Text, prev: Text)
    requires OrderInv(l) && PutMoves(l, m, text, prev)
    ensures OrderInv(m)
  {
    hide Begin, LandedInOrder, LogInOrder;
    SlotOnly(l, Numbered(l));
    if m == Begin(Numbered(l), text, prev, l.arrivalNum + 1, None, Own, Direct) {
      BeginInOrder(Numbered(l), text, prev, l.arrivalNum + 1, None, Own, Direct);
    } else {
      SlotOnly(l, m);
    }
  }

  lemma SlotMoveInOrder(l: Ledger, m: Ledger, prev: Text, cause: Cause)
    requires OrderInv(l) && SlotMoves(l, m, prev, cause)
    ensures OrderInv(m)
  {
    hide Begin, LandedInOrder, LogInOrder;
    var held := l.pending.value;
    SlotOnly(l, l.(pending := None));
    BeginInOrder(l.(pending := None), held.text, prev, held.num, Some(Owed(held.risk, l.gen)), held.origin, cause);
  }

  lemma MovesInOrder(danger: Danger, l: Ledger, m: Ledger)
    requires OrderInv(l) && Moves(danger, l, m)
    ensures OrderInv(m)
  {
    hide OrderInv, ArrivalMoves, PutMoves, SlotMoves, Landed, Settled, Resumed;
    SlotOnlyCases(l);
    if raw, prev :| ArrivalMoves(danger, l, m, raw, prev) {
      ArrivalInOrder(danger, l, m, raw, prev);
    } else if text, prev :| PutMoves(l, m, text, prev) {
      PutInOrder(l, m, text, prev);
    } else if prev, cause :| SlotMoves(l, m, prev, cause) {
      SlotMoveInOrder(l, m, prev, cause);
    } else if w :| w in l.writes && !l.writes[w].landed && !l.writes[w].refused && m == Landed(l, w) {
      LandedKeepsOrder(l, w);
    } else if w :| w in l.writes && !l.writes[w].refused && m == Settled(l, w) {
      SettledInOrder(l, w);
    } else if w :| w in l.writes && l.writes[w].refused && m == Resumed(l, w) {
      ResumedInOrder(l, w);
    }
  }

  lemma SlotOnlyCases(l: Ledger)
    requires OrderInv(l)
    ensures OrderInv(l.(pending := None)) && OrderInv(l.(gen := l.gen + 1, pending := None)) && OrderInv(Numbered(l))
  {
    hide LandedInOrder, LogInOrder;
    SlotOnly(l, l.(pending := None));
    SlotOnly(l, l.(gen := l.gen + 1, pending := None));
    SlotOnly(l, Numbered(l));
  }

  // ------------------------------------------------------------------
  // What a peer's text goes through.
  // ------------------------------------------------------------------

  /** Defused on arrival, and never without a click if it is flagged. */
  ghost predicate Safe(danger: Danger, text: Text, origin: Origin, cause: Cause) {
    origin.Peer? ==> text == Defuse(origin.raw) && (Flagged(danger, text) ==> cause.Confirmed?)
  }

  ghost predicate Marked(danger: Danger, text: Text, origin: Origin, risk: bool) {
    origin.Peer? ==> text == Defuse(origin.raw) && (Flagged(danger, text) ==> risk)
  }

  ghost predicate SafeWrite(danger: Danger, w: Write) {
    && Safe(danger, w.text, w.origin, w.cause)
    && (w.owed.Some? ==> Marked(danger, w.text, w.origin, w.owed.value.risk))
  }

  ghost predicate SafeInv(danger: Danger, l: Ledger) {
    && (l.pending.Some? ==> Marked(danger, l.pending.value.text, l.pending.value.origin, l.pending.value.risk))
    && (forall w :: w in l.writes ==> SafeWrite(danger, l.writes[w]))
    && (forall k :: 0 <= k < |l.log| ==> Safe(danger, l.log[k].text, l.log[k].origin, l.log[k].cause))
  }

  lemma BeginSafe(danger: Danger, l: Ledger, text: Text, prev: Text, num: nat, owed: Option<Owed>, origin: Origin, cause: Cause)
    requires SafeInv(danger, l) && Safe(danger, text, origin, cause)
    requires owed.Some? ==> Marked(danger, text, origin, owed.value.risk)
    ensures SafeInv(danger, Begin(l, text, prev, num, owed, origin, cause))
  {
    hide Safe, Marked;
    var m := Begin(l, text, prev, num, owed, origin, cause);
    forall w | w in m.writes
      ensures SafeWrite(danger, m.writes[w])
    {
      if w != l.nextWrite {
        assert SafeWrite(danger, l.writes[w]);
      }
    }
  }

  lemma MovesSafe(danger: Danger, l: Ledger, m: Ledger)
    requires SafeInv(danger, l) && Moves(danger, l, m)
    ensures SafeInv(danger, m)
  {
    hide SafeWrite, Safe, Marked, ArrivalMoves, PutMoves, SlotMoves, Landed, Settled, Resumed;
    if raw, prev :| ArrivalMoves(danger, l, m, raw, prev) {
      ArrivalSafe(danger, l, m, raw, prev);
    } else if text, prev :| PutMoves(l, m, text, prev) {
      PutSafe(danger, l, m, text, prev);
    } else if prev, cause :| SlotMoves(l, m, prev, cause) {
      SlotMoveSafe(danger, l, m, prev, cause);
    } else if w :| w in l.writes && !l.writes[w].landed && !l.writes[w].refused && m == Landed(l, w) {
      ProgressSafe(danger, l, w);
    } else if w :| w in l.writes && !l.writes[w].refused && m == Settled(l, w) {
      ProgressSafe(danger, l, w);
    } else if w :| w in l.writes && l.writes[w].refused && m == Resumed(l, w) {
      ProgressSafe(danger, l, w);
    }
  }

  /** A write moving on takes its text and its flag with it. */
  lemma ProgressSafe(danger: Danger, l: Ledger, w: nat)
    requires SafeInv(danger, l) && w in l.writes
    ensures SafeInv(danger, Landed(l, w)) && SafeInv(danger, Settled(l, w)) && SafeInv(danger, Resumed(l, w))
  {
    hide Safe, Marked;
    assert SafeWrite(danger, l.writes[w]);
  }

  lemma ArrivalSafe(danger: Danger, l: Ledger, m: Ledger, raw: Text, prev: Text)
    requires SafeInv(danger, l) && ArrivalMoves(danger, l, m, raw, prev)
    ensures SafeInv(danger, m)
  {
    hide Begin, Defuse, Flagged;
    if !Flagged(danger, Defuse(raw)) {
      BeginSafe(danger, Numbered(l), Defuse(raw), prev, l.arrivalNum + 1, None, Peer(raw), Direct);
    }
  }

  lemma PutSafe(danger: Danger, l: Ledger, m: Ledger, text: Text, prev: Text)
    requires SafeInv(danger, l) && PutMoves(l, m, text, prev)
    ensures SafeInv(danger, m)
  {
    hide Begin;
    BeginSafe(danger, Numbered(l), text, prev, l.arrivalNum + 1, None, Own, Direct);
  }

  lemma SlotMoveSafe(danger: Danger, l: Ledger, m: Ledger, prev: Text, cause: Cause)
    requires SafeInv(danger, l) && SlotMoves(l, m, prev, cause)
    ensures SafeInv(danger, m)
  {
    hide Begin, Defuse, Flagged;
    var held := l.pending.value;
    BeginSafe(danger, l.(pending := None), held.text, prev, held.num, Some(Owed(held.risk, l.gen)), held.origin, cause);
  }

  // ------------------------------------------------------------------
  // Leaving a room.
  // ------------------------------------------------------------------

  /** Nothing numbered up to `bound` can be started again, if the session is at least `gen`. */
  ghost predicate Forgotten(l: Ledger, gen: nat, bound: nat, from: nat) {
    && l.gen >= gen && l.arrivalNum >= bound && |l.log| >= from
    && (l.pending.Some? ==> l.pending.value.num > bound)
    && (forall w :: w in l.writes && l.writes[w].owed.Some? && l.writes[w].owed.value.gen >= gen ==> l.writes[w].num > bound)
    && (forall k :: from <= k < |l.log| ==> l.log[k].num > bound)
  }

  lemma BeginForgotten(l: Ledger, gen: nat, bound: nat, from: nat, text: Text, prev: Text, num: nat, owed: Option<Owed>, origin: Origin, cause: Cause)
    requires Forgotten(l, gen, bound, from) && num > bound
    ensures Forgotten(Begin(l, text, prev, num, owed, origin, cause), gen, bound, from)
  {
  }

  lemma ArrivalForgotten(danger: Danger, l: Ledger, m: Ledger, raw: Text, prev: Text, gen: nat, bound: nat, from: nat)
    requires Forgotten(l, gen, bound, from) && ArrivalMoves(danger, l, m, raw, prev)
    ensures Forgotten(m, gen, bound, from)
  {
    hide Begin, Defuse, Flagged;
    BeginForgotten(Numbered(l), gen, bound, from, Defuse(raw), prev, l.arrivalNum + 1, None, Peer(raw), Direct);
  }

  lemma PutForgotten(l: Ledger, m: Ledger, text: Text, prev: Text, gen: nat, bound: nat, from: nat)
    requires Forgotten(l, gen, bound, from) && PutMoves(l, m, text, prev)
    ensures Forgotten(m, gen, bound, from)
  {
    hide Begin;
    BeginForgotten(Numbered(l), gen, bound, from, text, prev, l.arrivalNum + 1, None, Own, Direct);
  }

  lemma SlotForgotten(l: Ledger, m: Ledger, prev: Text, cause: Cause, gen: nat, bound: nat, from: nat)
    requires Forgotten(l, gen, bound, from) && SlotMoves(l, m, prev, cause)
    ensures Forgotten(m, gen, bound, from)
  {
    hide Begin;
    var held := l.pending.value;
    BeginForgotten(l.(pending := None), gen, bound, from, held.text, prev, held.num, Some(Owed(held.risk, l.gen)), held.origin, cause);
  }

  lemma MovesForgotten(danger: Danger, l: Ledger, m: Ledger, gen: nat, bound: nat, from: nat)
    requires Forgotten(l, gen, bound, from) && Moves(danger, l, m)
    ensures Forgotten(m, gen, bound, from)
  {
    hide ArrivalMoves, PutMoves, SlotMoves, Landed, Settled, Resumed;
    if raw, prev :| ArrivalMoves(danger, l, m, raw, prev) {
      ArrivalForgotten(danger, l, m, raw, prev, gen, bound, from);
    } else if text, prev :| PutMoves(l, m, text, prev) {
      PutForgotten(l, m, text, prev, gen, bound, from);
    } else if prev, cause :| SlotMoves(l, m, prev, cause) {
      SlotForgotten(l, m, prev, cause, gen, bound, from);
    } else if w :| w in l.writes && !l.writes[w].landed && !l.writes[w].refused && m == Landed(l, w) {
      ProgressForgotten(l, w, gen, bound, from);
    } else if w :| w in l.writes && !l.writes[w].refused && m == Settled(l, w) {
      ProgressForgotten(l, w, gen, bound, from);
    } else if w :| w in l.writes && l.writes[w].refused && m == Resumed(l, w) {
      ProgressForgotten(l, w, gen, bound, from);
    }
  }

  /** A write goes back to the slot only in its own session. */
  lemma ProgressForgotten(l: Ledger, w: nat, gen: nat, bound: nat, from: nat)
    requires Forgotten(l, gen, bound, from) && w in l.writes
    ensures Forgotten(Landed(l, w), gen, bound, from) && Forgotten(Settled(l, w), gen, bound, from)
    ensures Forgotten(Resumed(l, w), gen, bound, from)
  {
  }

  /** What an old write still in flight owes, it owes to an old session. */
  ghost predicate GensInOrder(l: Ledger) {
    forall w :: w in l.writes && l.writes[w].owed.Some? ==> l.writes[w].owed.value.gen <= l.gen
  }

  lemma BeginGens(l: Ledger, text: Text, prev: Text, num: nat, owed: Option<Owed>, origin: Origin, cause: Cause)
    requires GensInOrder(l) && (owed.Some? ==> owed.value.gen <= l.gen)
    ensures GensInOrder(Begin(l, text, prev, num, owed, origin, cause))
  {
  }

  lemma MovesGens(danger: Danger, l: Ledger, m: Ledger)
    requires GensInOrder(l) && Moves(danger, l, m)
    ensures GensInOrder(m)
  {
    hide ArrivalMoves, PutMoves, SlotMoves;
    if raw, prev :| ArrivalMoves(danger, l, m, raw, prev) {
      ArrivalGens(danger, l, m, raw, prev);
    } else if text, prev :| PutMoves(l, m, text, prev) {
      PutGens(l, m, text, prev);
    } else if prev, cause :| SlotMoves(l, m, prev, cause) {
      SlotGens(l, m, prev, cause);
    }
  }

  lemma ArrivalGens(danger: Danger, l: Ledger, m: Ledger, raw: Text, prev: Text)
    requires GensInOrder(l) && ArrivalMoves(danger, l, m, raw, prev)
    ensures GensInOrder(m)
  {
    hide Begin, Defuse, Flagged;
    BeginGens(Numbered(l), Defuse(raw), prev, l.arrivalNum + 1, None, Peer(raw), Direct);
  }

  lemma PutGens(l: Ledger, m: Ledger, text: Text, prev: Text)
    requires GensInOrder(l) && PutMoves(l, m, text, prev)
    ensures GensInOrder(m)
  {
    hide Begin;
    BeginGens(Numbered(l), text, prev, l.arrivalNum + 1, None, Own, Direct);
  }

  lemma SlotGens(l: Ledger, m: Ledger, prev: Text, cause: Cause)
    requires GensInOrder(l) && SlotMoves(l, m, prev, cause)
    ensures GensInOrder(m)
  {
    hide Begin;
    var held := l.pending.value;
    BeginGens(l.(pending := None), held.text, prev, held.num, Some(Owed(held.risk, l.gen)), held.origin, cause);
  }

  // ------------------------------------------------------------------
  // Every run.
  // ------------------------------------------------------------------

  predicate Feasible(danger: Danger, d: Device, run: seq<Event>)
    decreases |run|
  {
    run == [] || (Possible(d, run[0]) && Feasible(danger, Next(danger, d, run[0]), run[1..]))
  }

  function After(danger: Danger, d: Device, run: seq<Event>): Device
    requires Feasible(danger, d, run)
    decreases |run|
  {
    if run == [] then d else After(danger, Next(danger, d, run[0]), run[1..])
  }

  ghost predicate Inv(danger: Danger, l: Ledger) {
    OrderInv(l) && SafeInv(danger, l) && GensInOrder(l)
  }

  predicate Unused(l: Ledger) {
    l == Ledger(None, 0, 0, 0, map[], 0, 0, [])
  }

  lemma {:induction false} RunInv(danger: Danger, d: Device, run: seq<Event>)
    requires Inv(danger, d.l) && Feasible(danger, d, run)
    ensures Inv(danger, After(danger, d, run).l)
    decreases |run|
  {
    hide Next, Moves, OrderInv, SafeInv, GensInOrder, Possible;
    if run != [] {
      var d1 := Next(danger, d, run[0]);
      NextMoves(danger, d, run[0]);
      MovesInOrder(danger, d.l, d1.l);
      MovesSafe(danger, d.l, d1.l);
      MovesGens(danger, d.l, d1.l);
      RunInv(danger, d1, run[1..]);
    }
  }

  lemma {:induction false} RunForgotten(danger: Danger, d: Device, run: seq<Event>, gen: nat, bound: nat, from: nat)
    requires Forgotten(d.l, gen, bound, from) && Feasible(danger, d, run)
    ensures Forgotten(After(danger, d, run).l, gen, bound, from)
    decreases |run|
  {
    hide Next, Moves, Forgotten, Possible;
    if run != [] {
      NextMoves(danger, d, run[0]);
      MovesForgotten(danger, d.l, Next(danger, d, run[0]).l, gen, bound, from);
      RunForgotten(danger, Next(danger, d, run[0]), run[1..], gen, bound, from);
    }
  }

  /**
   At any time: a pending clip is newer than anything known to have landed, and every
   write that ever started was newer than anything known to have landed by then.
   */
  lemma NeverBackwards(danger: Danger, d: Device, run: seq<Event>)
    requires Unused(d.l) && Feasible(danger, d, run)
    ensures var l := After(danger, d, run).l;
            && (l.pending.Some? ==> l.writtenNum < l.pending.value.num <= l.arrivalNum)
            && forall k :: 0 <= k < |l.log| ==> l.log[k].written < l.log[k].num
  {
    hide After, Feasible, WritesInOrder, LandedInOrder, SafeInv;
    UnusedInv(danger, d.l);
    RunInv(danger, d, run);
  }

  lemma UnusedInv(danger: Danger, l: Ledger)
    requires Unused(l)
    ensures Inv(danger, l)
  {
  }

  /** A write no other write overlapped lands above everything that landed before it. */
  lemma AloneRises(danger: Danger, d: Device, run: seq<Event>, w: nat)
    requires Unused(d.l) && Feasible(danger, d, run)
    requires var l := After(danger, d, run).l; w in l.writes && l.writes[w].alone && !l.writes[w].landed
    ensures After(danger, d, run).l.top < After(danger, d, run).l.writes[w].num
  {
    hide After, Feasible, WritesInOrder, SafeInv;
    UnusedInv(danger, d.l);
    RunInv(danger, d, run);
  }

  /** Two overlapping writes may land the other way round, and the clipboard goes back. */
  lemma {:induction false} OverlappingMayFall(danger: Danger, d: Device, a: Text, b: Text)
    requires Unused(d.l) && d.binds && a != [] && b != []
    ensures var run := [Puts(a, true), Puts(b, true), Lands(1)];
            && Feasible(danger, d, run)
            && 0 in After(danger, d, run).l.writes && !After(danger, d, run).l.writes[0].landed
            && After(danger, d, run).l.writes[0].num < After(danger, d, run).l.top
            && Land(After(danger, d, run), 0).os == a
  {
    var d1 := Next(danger, d, Puts(a, true));
    var d2 := Next(danger, d1, Puts(b, true));
    var d3 := Next(danger, d2, Lands(1));
    assert d2.l.writes.Keys == {0, 1};
    var run := [Puts(a, true), Puts(b, true), Lands(1)];
    assert run[1..] == [Puts(b, true), Lands(1)] && run[1..][1..] == [Lands(1)] && run[1..][1..][1..] == [];
    assert After(danger, d3, []) == d3;
    assert After(danger, d2, [Lands(1)]) == d3;
    assert After(danger, d1, run[1..]) == d3;
  }

  /** Whatever lands for a peer is defused, and was confirmed by hand if it is flagged. */
  lemma PeerTextIsSafe(danger: Danger, d: Device, run: seq<Event>, w: nat)
    requires Unused(d.l) && Feasible(danger, d, run)
    requires w in After(danger, d, run).l.writes && After(danger, d, run).l.writes[w].origin.Peer?
    ensures var os, write := Land(After(danger, d, run), w).os, After(danger, d, run).l.writes[w];
            os == Defuse(write.origin.raw) && Clean(os) && (Flagged(danger, os) ==> write.cause.Confirmed?)
  {
    hide After, Feasible, OrderInv, Defuse, Flagged;
    UnusedInv(danger, d.l);
    RunInv(danger, d, run);
    var write := After(danger, d, run).l.writes[w];
    assert SafeWrite(danger, write);
    DefusedIsClean(write.origin.raw);
  }

  /** Nothing that had arrived when the session was forgotten is ever started after it. */
  lemma ForgottenStaysForgotten(danger: Danger, d: Device, before: seq<Event>, after: seq<Event>, k: nat)
    requires Unused(d.l) && Feasible(danger, d, before)
    requires Feasible(danger, ForgetSession(After(danger, d, before)), after)
    requires var start, end := After(danger, d, before), After(danger, ForgetSession(After(danger, d, before)), after);
             |start.l.log| <= k < |end.l.log|
    ensures After(danger, ForgetSession(After(danger, d, before)), after).l.log[k].num > After(danger, d, before).l.arrivalNum
  {
    hide After, Feasible, OrderInv, SafeInv;
    UnusedInv(danger, d.l);
    RunInv(danger, d, before);
    var start := After(danger, d, before);
    RunForgotten(danger, ForgetSession(start), after, start.l.gen + 1, start.l.arrivalNum, |start.l.log|);
  }
}
