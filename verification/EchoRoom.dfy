/**
 No echo: a room of Live devices, each a `Clipboard.Device`, joined by the relay. One
 device copies; polls, focus reads, native reports, pastes, flushes, confirms and
 arrivals come in any order, and any of them may have been under way at the copy.

 Two things are asked of the operating system: the suppression window does not end while
 a write, or a read that was out when a write ended, is still out; and writes on one
 device do not overlap. Then a device that did not copy never captures anything, and the
 one that did captures the copied text at most once. What may follow is a read that had
 sampled before the copy and answers after the text was captured, and nothing else.
 */
module EchoRoom {

  import opened Options
  import opened Guard
  import opened Clipboard
  import ClipboardDelivery

  /** `inbox` is what the relay has still to deliver to each device. */
  datatype Room = Room(devices: seq<Device>, inbox: seq<seq<Text>>)

  datatype Event = Happens(i: nat, e: Clipboard.Event) | Receives(i: nat, focus: bool)

  predicate WellFormed(r: Room) {
    |r.devices| == |r.inbox|
  }

  predicate NothingStale(d: Device) {
    forall k :: k in d.looks ==> !d.looks[k].stale
  }

  /** No write is under way, though one may just have been refused. */
  predicate Resting(l: Ledger) {
    forall w :: w in l.writes ==> l.writes[w].refused
  }

  /** A write starts only when none is under way. */
  predicate Apart(d: Device, z: Device) {
    z.l.nextWrite != d.l.nextWrite ==> Resting(d.l)
  }

  /** Nobody copies again, types, leaves or leaves Live; the window lasts, and writes keep apart. */
  predicate Allowed(danger: Danger, d: Device, e: Clipboard.Event) {
    && Clipboard.Possible(d, e)
    && !e.Arrives? && !e.Puts? && !e.Copies? && !e.Leaves? && !e.Mode?
    && (e.WindowEnds? ==> d.l.writes == map[] && NothingStale(d))
    && Apart(d, Clipboard.Next(danger, d, e))
  }

  predicate Possible(danger: Danger, r: Room, e: Event) {
    && WellFormed(r) && e.i < |r.devices|
    && match e
       case Happens(i, ev) => Allowed(danger, r.devices[i], ev)
       case Receives(i, focus) => |r.inbox[i]| > 0 && Apart(r.devices[i], Apply(danger, r.devices[i], r.inbox[i][0], focus))
  }

  /** What a device captures goes to everybody else. */
  function Spread(inbox: seq<seq<Text>>, from: nat, news: seq<Text>): (after: seq<seq<Text>>)
    ensures |after| == |inbox|
    ensures forall j :: 0 <= j < |inbox| ==> after[j] == if j == from then inbox[j] else inbox[j] + news
  {
    seq(|inbox|, j requires 0 <= j < |inbox| => if j == from then inbox[j] else inbox[j] + news)
  }

  function Next(danger: Danger, r: Room, e: Event): (after: Room)
    requires Possible(danger, r, e)
    ensures WellFormed(after) && |after.devices| == |r.devices|
  {
    match e
    case Happens(i, ev) =>
      var d := r.devices[i];
      var z := Clipboard.Next(danger, d, ev);
      Room(r.devices[i := z], Spread(r.inbox, i, if |d.sent| <= |z.sent| then z.sent[|d.sent|..] else []))
    case Receives(i, focus) =>
      Room(r.devices[i := Apply(danger, r.devices[i], r.inbox[i][0], focus)], r.inbox[i := r.inbox[i][1..]])
  }

  function Frames(devices: seq<Device>): nat {
    if devices == [] then 0 else |devices[0].sent| + Frames(devices[1..])
  }

  // ------------------------------------------------------------------
  // At the copy.
  // ------------------------------------------------------------------

  /**
   A Live device whose clipboard is what it last sent or applied. Reads may be out, not
   yet sampled or sampled at that; a clip may be held; clips may be on their way.
   */
  predicate Calm(d: Device) {
    && d.binds && d.l.writes == map[] && d.sent == []
    && Trim(d.os) == Trim(d.lastSent)
    && (forall k :: k in d.looks && !d.looks[k].stale && d.looks[k].value.Some? ==> Trim(d.looks[k].value.value) == Trim(d.lastSent))
    && (!NothingStale(d) ==> d.suppressed)
  }

  predicate CalmRoom(r: Room) {
    WellFormed(r) && forall i :: 0 <= i < |r.devices| ==> Calm(r.devices[i])
  }

  /** The one copy. */
  function Copied(r: Room, c: nat, text: Text): Room
    requires c < |r.devices|
  {
    r.(devices := r.devices[c := r.devices[c].(os := text)])
  }

  /** The reads that had sampled by then. */
  function Early(d: Device): set<nat> {
    set k | k in d.looks && d.looks[k].value.Some?
  }

  /**
   A read that had sampled before the copy answers after the copied text was captured,
   outside the window, with something visible that is not what was last sent.
   */
  predicate Late(d: Device, early: set<nat>, e: Clipboard.Event) {
    && e.Answers? && e.r in early && e.r in d.looks
    && d.sent != [] && !d.suppressed
    && d.looks[e.r].value.Some?
    && Trim(d.looks[e.r].value.value) != [] && Trim(d.looks[e.r].value.value) != Trim(d.lastSent)
  }

  // ------------------------------------------------------------------
  // A device whose clipboard holds what it last sent or applied.
  // ------------------------------------------------------------------

  /** A write has made its claim, and the clipboard holds its text or what was there before. */
  ghost predicate Claimed(d: Device, w: nat) {
    && w in d.l.writes && !d.l.writes[w].refused && d.suppressed
    && (forall v :: v in d.l.writes && v != w ==> d.l.writes[v].refused)
    && d.lastSent == d.l.writes[w].text
    && (if d.l.writes[w].landed then d.os == d.l.writes[w].text else Trim(d.os) == Trim(d.l.writes[w].prev))
  }

  /** Whatever it can read, but for the reads of `early`, is what it last sent. */
  ghost predicate Matches(d: Device, early: set<nat>) {
    && Trim(d.os) == Trim(d.lastSent)
    && (forall k :: k in d.looks && k !in early && !d.looks[k].stale && d.looks[k].value.Some? ==>
          Trim(d.looks[k].value.value) == Trim(d.lastSent))
  }

  ghost predicate InStep(d: Device, early: set<nat>, sent: seq<Text>) {
    && d.binds && d.sent == sent
    && (Resting(d.l) ==> Matches(d, early))
    && (!Resting(d.l) ==> exists w :: Claimed(d, w))
    && (!NothingStale(d) ==> d.suppressed)
  }

  lemma InStepCapture(d: Device, early: set<nat>, sent: seq<Text>, text: Text, deliberate: bool)
    requires InStep(d, early, sent)
    requires d.suppressed || Trim(text) == Trim(d.lastSent) || Trim(text) == []
    ensures InStep(FromClipboard(d, text, deliberate), early, sent)
  {
    hide Trim;
    var z := FromClipboard(d, text, deliberate);
    assert z == d.(recent := z.recent);
    SameInStep(d, z, early, sent);
  }

  lemma SameInStep(d: Device, z: Device, early: set<nat>, sent: seq<Text>)
    requires InStep(d, early, sent)
    requires z.binds && z.sent == d.sent && z.lastSent == d.lastSent && z.suppressed == d.suppressed && z.os == d.os
    requires z.l.writes == d.l.writes
    requires forall k :: k in z.looks ==>
               || (k in d.looks && z.looks[k] == d.looks[k])
               || (!z.looks[k].stale && (z.looks[k].value.Some? && Resting(z.l) ==> Trim(z.looks[k].value.value) == Trim(d.lastSent)))
    ensures InStep(z, early, sent)
  {
    hide Trim;
    if !Resting(d.l) {
      var w :| Claimed(d, w);
      assert Claimed(z, w);
    }
    if !NothingStale(z) {
      var k :| k in z.looks && z.looks[k].stale;
      assert d.looks[k].stale;
    }
  }

  lemma InStepWriteNow(d: Device, early: set<nat>, sent: seq<Text>, text: Text, num: nat, owed: Option<Owed>, origin: Origin, cause: Cause)
    requires InStep(d, early, sent) && Resting(d.l)
    ensures InStep(WriteNow(d, text, num, owed, origin, cause), early, sent)
  {
    hide Trim;
    var z := WriteNow(d, text, num, owed, origin, cause);
    assert !z.l.writes[d.l.nextWrite].refused;
    assert Claimed(z, d.l.nextWrite);
  }

  lemma InStepWritePending(d: Device, early: set<nat>, sent: seq<Text>, cause: Cause)
    requires InStep(d, early, sent) && Apart(d, WritePending(d, cause))
    ensures InStep(WritePending(d, cause), early, sent)
  {
    hide Trim, WriteNow;
    if d.l.pending.Some? {
      var held := d.l.pending.value;
      var d1 := d.(l := d.l.(pending := None), graceTimer := false);
      SameInStep(d, d1, early, sent);
      if held.num > d.l.writtenNum {
        WriteNowStarts(d1, held.text, held.num, Some(Owed(held.risk, d.l.gen)), held.origin, cause);
        InStepWriteNow(d1, early, sent, held.text, held.num, Some(Owed(held.risk, d.l.gen)), held.origin, cause);
      }
    }
  }

  lemma WriteNowStarts(d: Device, text: Text, num: nat, owed: Option<Owed>, origin: Origin, cause: Cause)
    ensures WriteNow(d, text, num, owed, origin, cause).l.nextWrite == d.l.nextWrite + 1
  {
  }

  lemma InStepGrace(d: Device, early: set<nat>, sent: seq<Text>, focus: bool)
    requires InStep(d, early, sent) && Apart(d, GraceFires(d, focus))
    ensures InStep(GraceFires(d, focus), early, sent)
  {
    hide Trim, WritePending, InStep;
    var d1 := d.(graceTimer := false);
    GraceUnset(d, early, sent);
    if d.graceTimer && d.l.pending.Some? && !d.l.pending.value.risk && !d.recent && focus {
      InStepWritePending(d1, early, sent, Flushed);
    }
  }

  lemma GraceUnset(d: Device, early: set<nat>, sent: seq<Text>)
    requires InStep(d, early, sent)
    ensures InStep(d.(graceTimer := false), early, sent)
  {
    SameInStep(d, d.(graceTimer := false), early, sent);
  }

  lemma InStepTryRead(d: Device, early: set<nat>, sent: seq<Text>, deliberate: bool)
    requires InStep(d, early, sent) && Apart(d, TryRead(d, deliberate))
    ensures InStep(TryRead(d, deliberate), early, sent)
  {
    hide Trim, WritePending;
    if d.binds && !d.suppressed {
      if d.l.pending.Some? && !d.l.pending.value.risk && !d.recent {
        InStepWritePending(d, early, sent, Flushed);
      } else {
        SameInStep(d, TryRead(d, deliberate), early, sent);
      }
    }
  }

  lemma InStepReport(d: Device, early: set<nat>, sent: seq<Text>)
    requires InStep(d, early, sent)
    ensures InStep(NativeReport(d), early, sent)
  {
    hide Trim;
    SameInStep(d, NativeReport(d), early, sent);
  }

  lemma InStepSample(d: Device, early: set<nat>, sent: seq<Text>, k: nat)
    requires InStep(d, early, sent) && k in d.looks
    ensures InStep(Sample(d, k), early, sent)
  {
    hide Trim;
    var z := Sample(d, k);
    assert z.looks.Keys == d.looks.Keys;
    if !Resting(d.l) {
      var w :| Claimed(d, w);
      assert Claimed(z, w);
    }
    if !NothingStale(z) {
      var j :| j in z.looks && z.looks[j].stale;
      assert d.looks[j].stale;
    }
  }

  /** An answer captures nothing, unless it is late. */
  lemma InStepAnswer(d: Device, early: set<nat>, sent: seq<Text>, k: nat)
    requires InStep(d, early, sent) && k in d.looks
    requires k in early ==> sent != [] && !Late(d, early, Answers(k))
    ensures InStep(ReadDone(d, k), early, sent)
  {
    hide Trim, FromClipboard;
    var d1 := d.(looks := d.looks - {k});
    SameInStep(d, d1, early, sent);
    var read := d.looks[k];
    if read.value.Some? && read.value.value != [] && !(read.native && d.suppressed) {
      InStepCapture(d1, early, sent, read.value.value, read.deliberate);
    }
  }

  lemma InStepPaste(d: Device, early: set<nat>, sent: seq<Text>)
    requires InStep(d, early, sent)
    ensures InStep(Paste(d), early, sent)
  {
    hide Trim, FromClipboard;
    if d.os != [] { InStepCapture(d, early, sent, d.os, true); }
  }

  lemma InStepLand(d: Device, early: set<nat>, sent: seq<Text>, w: nat)
    requires InStep(d, early, sent) && w in d.l.writes && !d.l.writes[w].landed && !d.l.writes[w].refused
    ensures InStep(Land(d, w), early, sent)
  {
    hide Trim;
    var z := Land(d, w);
    var v :| Claimed(d, v);
    assert v == w;
    assert z.l.writes.Keys == d.l.writes.Keys;
    assert Claimed(z, w) && !z.l.writes[w].refused;
  }

  lemma InStepDone(d: Device, early: set<nat>, sent: seq<Text>, w: nat)
    requires InStep(d, early, sent) && w in d.l.writes && !d.l.writes[w].refused
    ensures InStep(Done(d, w), early, sent)
  {
    hide Trim;
    var z := Done(d, w);
    var v :| Claimed(d, v);
    assert v == w;
    assert d.suppressed && z.suppressed;
    DoneRests(d, w);
    assert Trim(z.os) == Trim(z.lastSent);
  }

  /** When the one write ends, none is under way, and every read that is out is stale. */
  lemma DoneRests(d: Device, w: nat)
    requires w in d.l.writes && !d.l.writes[w].refused && forall v :: v in d.l.writes && v != w ==> d.l.writes[v].refused
    ensures Resting(Done(d, w).l) && forall k :: k in Done(d, w).looks ==> Done(d, w).looks[k].stale
  {
  }

  /** A refused clip goes back to the slot, or not: the clipboard does not change. */
  lemma InStepResume(d: Device, early: set<nat>, sent: seq<Text>, w: nat)
    requires InStep(d, early, sent) && w in d.l.writes && d.l.writes[w].refused
    ensures InStep(Resume(d, w), early, sent)
  {
    hide Trim;
    var z := Resume(d, w);
    assert z.l.writes == d.l.writes - {w};
    if Resting(z.l) {
      assert forall v :: v in d.l.writes ==> v == w || v in z.l.writes;
      assert Resting(d.l);
    } else {
      var v :| Claimed(d, v);
      assert Claimed(z, v);
    }
  }

  lemma InStepEvent(danger: Danger, d: Device, early: set<nat>, sent: seq<Text>, e: Clipboard.Event)
    requires InStep(d, early, sent) && Allowed(danger, d, e)
    requires early != {} ==> sent != []
    requires !Late(d, early, e)
    ensures InStep(Clipboard.Next(danger, d, e), early, sent)
  {
    hide InStep, Trim, WritePending, GraceFires, TryRead, NativeReport, Sample, ReadDone, Paste, Land, Done, Resume;
    match e {
      case Focuses => if d.l.pending.Some? && !d.l.pending.value.risk { InStepWritePending(d, early, sent, Flushed); }
      case Confirms => InStepWritePending(d, early, sent, Confirmed);
      case GraceEnds(focus) => InStepGrace(d, early, sent, focus);
      case Looks(deliberate) => InStepTryRead(d, early, sent, deliberate);
      case Reports => InStepReport(d, early, sent);
      case Samples(k) => InStepSample(d, early, sent, k);
      case Answers(k) => InStepAnswer(d, early, sent, k);
      case Pastes => InStepPaste(d, early, sent);
      case Lands(w) => InStepLand(d, early, sent, w);
      case Ends(w) => InStepDone(d, early, sent, w);
      case Resumes(w) => InStepResume(d, early, sent, w);
      case _ => InStepQuiet(danger, d, early, sent, e);
    }
  }

  lemma InStepQuiet(danger: Danger, d: Device, early: set<nat>, sent: seq<Text>, e: Clipboard.Event)
    requires InStep(d, early, sent) && Allowed(danger, d, e) && (e.Declines? || e.WindowEnds? || e.RecentEnds?)
    ensures InStep(Clipboard.Next(danger, d, e), early, sent)
  {
    hide Trim;
    var z := Clipboard.Next(danger, d, e);
    if !e.WindowEnds? {
      SameInStep(d, z, early, sent);
    }
  }

  /** A clip arrives. */
  lemma InStepReceive(danger: Danger, d: Device, early: set<nat>, sent: seq<Text>, raw: Text, focus: bool)
    requires InStep(d, early, sent) && Apart(d, Apply(danger, d, raw, focus))
    ensures InStep(Apply(danger, d, raw, focus), early, sent)
  {
    hide Trim, Defuse, Flagged, WriteNow;
    var d1 := d.(l := Numbered(d.l));
    SameInStep(d, d1, early, sent);
    if Defuse(raw) != [] {
      if Flagged(danger, Defuse(raw)) || !focus || d.recent {
        SameInStep(d, Apply(danger, d, raw, focus), early, sent);
      } else {
        WriteNowStarts(d1, Defuse(raw), d1.l.arrivalNum, None, Peer(raw), Direct);
        InStepWriteNow(d1, early, sent, Defuse(raw), d1.l.arrivalNum, None, Peer(raw), Direct);
      }
    }
  }

  // ------------------------------------------------------------------
  // The device that copied, until its text is captured or replaced.
  // ------------------------------------------------------------------

  /** Worth sending: visible, and not what the room already has. */
  predicate News(text: Text, had: Text) {
    Trim(text) != [] && Trim(text) != Trim(had)
  }

  /** A write of an arriving clip has made its claim over the copied text, and has not landed. */
  ghost predicate Threatened(d: Device, had: Text, w: nat) {
    && w in d.l.writes && !d.l.writes[w].refused && !d.l.writes[w].landed && d.suppressed
    && (forall v :: v in d.l.writes && v != w ==> d.l.writes[v].refused)
    && d.lastSent == d.l.writes[w].text && d.l.writes[w].prev == had
  }

  ghost predicate Primed(d: Device, early: set<nat>, text: Text, had: Text) {
    && d.binds && d.sent == [] && d.os == text
    && (forall k :: k in d.looks && !d.looks[k].stale && d.looks[k].value.Some? ==>
          d.looks[k].value.value == text || (k in early && Trim(d.looks[k].value.value) == Trim(had)))
    && (Resting(d.l) ==> d.lastSent == had)
    && (!Resting(d.l) ==> exists w :: Threatened(d, had, w))
    && (!NothingStale(d) ==> d.suppressed)
  }

  /** Still there, or captured, or replaced by a clip that arrived. */
  ghost predicate Copier(d: Device, early: set<nat>, text: Text, had: Text) {
    || Primed(d, early, text, had)
    || (InStep(d, early, [text]) && News(text, had))
    || InStep(d, {}, [])
  }

  lemma SamePrimed(d: Device, z: Device, early: set<nat>, text: Text, had: Text)
    requires Primed(d, early, text, had)
    requires z.binds && z.sent == d.sent && z.lastSent == d.lastSent && z.suppressed == d.suppressed && z.os == d.os
    requires z.l.writes == d.l.writes
    requires forall k :: k in z.looks ==>
               || (k in d.looks && z.looks[k] == d.looks[k])
               || (!z.looks[k].stale && (z.looks[k].value.Some? ==> z.looks[k].value.value == text))
    ensures Primed(z, early, text, had)
  {
    hide Trim;
    if !Resting(d.l) {
      var w :| Threatened(d, had, w);
      assert Threatened(z, had, w);
    }
    if !NothingStale(z) {
      var k :| k in z.looks && z.looks[k].stale;
      assert d.looks[k].stale;
    }
  }

  lemma PrimedWriteNow(d: Device, early: set<nat>, text: Text, had: Text, other: Text, num: nat, owed: Option<Owed>, origin: Origin, cause: Cause)
    requires Primed(d, early, text, had) && Resting(d.l)
    ensures Primed(WriteNow(d, other, num, owed, origin, cause), early, text, had)
  {
    hide Trim;
    var z := WriteNow(d, other, num, owed, origin, cause);
    assert !z.l.writes[d.l.nextWrite].refused;
    assert Threatened(z, had, d.l.nextWrite);
  }

  lemma PrimedWritePending(d: Device, early: set<nat>, text: Text, had: Text, cause: Cause)
    requires Primed(d, early, text, had) && Apart(d, WritePending(d, cause))
    ensures Primed(WritePending(d, cause), early, text, had)
  {
    hide Trim, WriteNow;
    if d.l.pending.Some? {
      var held := d.l.pending.value;
      var d1 := d.(l := d.l.(pending := None), graceTimer := false);
      SamePrimed(d, d1, early, text, had);
      if held.num > d.l.writtenNum {
        WriteNowStarts(d1, held.text, held.num, Some(Owed(held.risk, d.l.gen)), held.origin, cause);
        PrimedWriteNow(d1, early, text, had, held.text, held.num, Some(Owed(held.risk, d.l.gen)), held.origin, cause);
      }
    }
  }

  lemma PrimedGrace(d: Device, early: set<nat>, text: Text, had: Text, focus: bool)
    requires Primed(d, early, text, had) && Apart(d, GraceFires(d, focus))
    ensures Primed(GraceFires(d, focus), early, text, had)
  {
    hide Trim, WritePending;
    var d1 := d.(graceTimer := false);
    SamePrimed(d, d1, early, text, had);
    if d.graceTimer && d.l.pending.Some? && !d.l.pending.value.risk && !d.recent && focus {
      PrimedWritePending(d1, early, text, had, Flushed);
    }
  }

  lemma PrimedTryRead(d: Device, early: set<nat>, text: Text, had: Text, deliberate: bool)
    requires Primed(d, early, text, had) && Apart(d, TryRead(d, deliberate))
    ensures Primed(TryRead(d, deliberate), early, text, had)
  {
    hide Trim, WritePending;
    if d.binds && !d.suppressed {
      if d.l.pending.Some? && !d.l.pending.value.risk && !d.recent {
        PrimedWritePending(d, early, text, had, Flushed);
      } else {
        SamePrimed(d, TryRead(d, deliberate), early, text, had);
      }
    }
  }

  lemma PrimedSample(d: Device, early: set<nat>, text: Text, had: Text, k: nat)
    requires Primed(d, early, text, had) && k in d.looks
    ensures Primed(Sample(d, k), early, text, had)
  {
    hide Trim;
    var z := Sample(d, k);
    assert z.looks.Keys == d.looks.Keys;
    if !Resting(d.l) {
      var w :| Threatened(d, had, w);
      assert Threatened(z, had, w);
    }
    if !NothingStale(z) {
      var j :| j in z.looks && z.looks[j].stale;
      assert d.looks[j].stale;
    }
  }

  /** A look at the copied text: nothing if it is no news or the window is on, and else it is captured. */
  lemma PrimedCaptures(d: Device, early: set<nat>, text: Text, had: Text, deliberate: bool)
    requires Primed(d, early, text, had)
    ensures var z := FromClipboard(d, text, deliberate);
            if !d.suppressed && News(text, had) then InStep(z, early, [text]) else Primed(z, early, text, had)
  {
    hide Trim;
    var z := FromClipboard(d, text, deliberate);
    if !d.suppressed && News(text, had) {
      assert Resting(d.l);
      assert z == d.(recent := z.recent, lastSent := text, sent := [text]);
    } else {
      assert z == d.(recent := z.recent);
      SamePrimed(d, z, early, text, had);
    }
  }

  lemma PrimedNothing(d: Device, early: set<nat>, text: Text, had: Text, other: Text, deliberate: bool)
    requires Primed(d, early, text, had) && (d.suppressed || Trim(other) == Trim(had) || Trim(other) == [])
    ensures Primed(FromClipboard(d, other, deliberate), early, text, had)
  {
    hide Trim;
    var z := FromClipboard(d, other, deliberate);
    if !d.suppressed { assert Resting(d.l); }
    assert z == d.(recent := z.recent);
    SamePrimed(d, z, early, text, had);
  }

  lemma PrimedAnswer(d: Device, early: set<nat>, text: Text, had: Text, k: nat)
    requires Primed(d, early, text, had) && k in d.looks
    ensures Copier(ReadDone(d, k), early, text, had)
    ensures !d.suppressed && d.looks[k].value == Some(text) && News(text, had) ==> InStep(ReadDone(d, k), early, [text])
  {
    hide Trim, FromClipboard, InStep, Primed;
    TrimNothing(text);
    PrimedWithout(d, early, text, had, k);
    var d1 := d.(looks := d.looks - {k});
    var read := d.looks[k];
    if read.value.Some? && read.value.value != [] && !(read.native && d.suppressed) {
      if read.value.value == text {
        PrimedCaptures(d1, early, text, had, read.deliberate);
      } else {
        PrimedNothing(d1, early, text, had, read.value.value, read.deliberate);
      }
    }
  }

  lemma PrimedWithout(d: Device, early: set<nat>, text: Text, had: Text, k: nat)
    requires Primed(d, early, text, had) && k in d.looks
    ensures Primed(d.(looks := d.looks - {k}), early, text, had) && d.binds
    ensures d.looks[k].value.Some? ==>
              d.suppressed || d.looks[k].value.value == text || Trim(d.looks[k].value.value) == Trim(had)
  {
    hide Trim;
    SamePrimed(d, d.(looks := d.looks - {k}), early, text, had);
  }

  lemma TrimNothing(text: Text)
    ensures text == [] ==> Trim(text) == []
  {
  }

  /** The write of an arriving clip lands: the copied text is gone before anybody captured it. */
  lemma PrimedLand(d: Device, early: set<nat>, text: Text, had: Text, w: nat)
    requires Primed(d, early, text, had) && w in d.l.writes && !d.l.writes[w].landed && !d.l.writes[w].refused
    ensures InStep(Land(d, w), {}, [])
  {
    hide Trim;
    var z := Land(d, w);
    var v :| Threatened(d, had, v);
    assert v == w;
    assert z.l.writes.Keys == d.l.writes.Keys;
    assert Claimed(z, w) && !z.l.writes[w].refused;
  }

  lemma PrimedDone(d: Device, early: set<nat>, text: Text, had: Text, w: nat)
    requires Primed(d, early, text, had) && w in d.l.writes && !d.l.writes[w].refused
    ensures Primed(Done(d, w), early, text, had)
  {
    hide Trim;
    var v :| Threatened(d, had, v);
    assert v == w;
    DoneRests(d, w);
    assert Done(d, w).lastSent == had;
  }

  lemma PrimedResume(d: Device, early: set<nat>, text: Text, had: Text, w: nat)
    requires Primed(d, early, text, had) && w in d.l.writes && d.l.writes[w].refused
    ensures Primed(Resume(d, w), early, text, had)
  {
    hide Trim;
    var z := Resume(d, w);
    assert z.l.writes == d.l.writes - {w};
    if Resting(z.l) {
      assert forall v :: v in d.l.writes ==> v == w || v in z.l.writes;
      assert Resting(d.l);
    } else {
      var v :| Threatened(d, had, v);
      assert Threatened(z, had, v);
    }
  }

  lemma PrimedEvent(danger: Danger, d: Device, early: set<nat>, text: Text, had: Text, e: Clipboard.Event)
    requires Primed(d, early, text, had) && Allowed(danger, d, e)
    ensures Copier(Clipboard.Next(danger, d, e), early, text, had)
  {
    hide Primed, InStep, Trim, News, WritePending, GraceFires, TryRead, NativeReport, Sample, ReadDone, Paste, Land, Done, Resume;
    match e {
      case Focuses => if d.l.pending.Some? && !d.l.pending.value.risk { PrimedWritePending(d, early, text, had, Flushed); }
      case Confirms => PrimedWritePending(d, early, text, had, Confirmed);
      case GraceEnds(focus) => PrimedGrace(d, early, text, had, focus);
      case Looks(deliberate) => PrimedTryRead(d, early, text, had, deliberate);
      case Samples(k) => PrimedSample(d, early, text, had, k);
      case Answers(k) => PrimedAnswer(d, early, text, had, k);
      case Pastes => PrimedPaste(d, early, text, had);
      case Lands(w) => PrimedLand(d, early, text, had, w);
      case Ends(w) => PrimedDone(d, early, text, had, w);
      case Resumes(w) => PrimedResume(d, early, text, had, w);
      case _ => PrimedQuiet(danger, d, early, text, had, e);
    }
  }

  lemma PrimedPaste(d: Device, early: set<nat>, text: Text, had: Text)
    requires Primed(d, early, text, had)
    ensures Copier(Paste(d), early, text, had)
    ensures !d.suppressed && News(text, had) ==> InStep(Paste(d), early, [text])
  {
    hide Trim, FromClipboard, InStep;
    TrimNothing(text);
    PrimedCaptures(d, early, text, had, true);
  }

  lemma PrimedQuiet(danger: Danger, d: Device, early: set<nat>, text: Text, had: Text, e: Clipboard.Event)
    requires Primed(d, early, text, had) && Allowed(danger, d, e)
    requires e.Declines? || e.WindowEnds? || e.RecentEnds? || e.Reports?
    ensures Primed(Clipboard.Next(danger, d, e), early, text, had)
  {
    hide Trim;
    var z := Clipboard.Next(danger, d, e);
    if !e.WindowEnds? {
      SamePrimed(d, z, early, text, had);
    }
  }

  lemma PrimedReceive(danger: Danger, d: Device, early: set<nat>, text: Text, had: Text, raw: Text, focus: bool)
    requires Primed(d, early, text, had) && Apart(d, Apply(danger, d, raw, focus))
    ensures Primed(Apply(danger, d, raw, focus), early, text, had)
  {
    hide Trim, Defuse, Flagged, WriteNow;
    var d1 := d.(l := Numbered(d.l));
    SamePrimed(d, d1, early, text, had);
    if Defuse(raw) != [] {
      if Flagged(danger, Defuse(raw)) || !focus || d.recent {
        SamePrimed(d, Apply(danger, d, raw, focus), early, text, had);
      } else {
        WriteNowStarts(d1, Defuse(raw), d1.l.arrivalNum, None, Peer(raw), Direct);
        PrimedWriteNow(d1, early, text, had, Defuse(raw), d1.l.arrivalNum, None, Peer(raw), Direct);
      }
    }
  }

  /** Every step of the copying device, unless a late answer comes. */
  lemma CopierEvent(danger: Danger, d: Device, early: set<nat>, text: Text, had: Text, e: Clipboard.Event)
    requires Copier(d, early, text, had) && Allowed(danger, d, e) && !Late(d, early, e)
    ensures Copier(Clipboard.Next(danger, d, e), early, text, had)
  {
    hide Primed, InStep, News, Clipboard.Next, Allowed, Late;
    if Primed(d, early, text, had) {
      PrimedEvent(danger, d, early, text, had, e);
    } else if InStep(d, early, [text]) && News(text, had) {
      InStepEvent(danger, d, early, [text], e);
    } else {
      NotLate(d, e);
      InStepEvent(danger, d, {}, [], e);
    }
  }

  lemma NotLate(d: Device, e: Clipboard.Event)
    ensures !Late(d, {}, e)
  {
  }

  /** A late answer does capture: the old text, after the new. */
  lemma LateCaptures(danger: Danger, d: Device, early: set<nat>, text: Text, had: Text, e: Clipboard.Event)
    requires Copier(d, early, text, had) && Allowed(danger, d, e) && Late(d, early, e)
    ensures Clipboard.Next(danger, d, e).sent == [text, d.looks[e.r].value.value]
  {
    hide Trim;
    TrimNothing(d.looks[e.r].value.value);
    assert d.sent == [text] && d.binds;
  }

  // ------------------------------------------------------------------
  // The room.
  // ------------------------------------------------------------------

  ghost predicate Inv(r: Room, c: nat, early: set<nat>, text: Text, had: Text) {
    && WellFormed(r) && c < |r.devices|
    && Copier(r.devices[c], early, text, had)
    && forall j :: 0 <= j < |r.devices| && j != c ==> InStep(r.devices[j], {}, [])
  }

  lemma CopiedInv(r: Room, c: nat, text: Text)
    requires CalmRoom(r) && c < |r.devices|
    ensures Inv(Copied(r, c, text), c, Early(r.devices[c]), text, r.devices[c].lastSent)
  {
    hide Trim;
    var z := Copied(r, c, text);
    assert Calm(r.devices[c]);
    assert Primed(z.devices[c], Early(r.devices[c]), text, r.devices[c].lastSent);
    forall j | 0 <= j < |z.devices| && j != c
      ensures InStep(z.devices[j], {}, [])
    {
      assert Calm(r.devices[j]);
    }
  }

  predicate LateAt(r: Room, c: nat, early: set<nat>, e: Event) {
    e.Happens? && e.i == c && c < |r.devices| && Late(r.devices[c], early, e.e)
  }

  lemma NextInv(danger: Danger, r: Room, c: nat, early: set<nat>, text: Text, had: Text, e: Event)
    requires Inv(r, c, early, text, had) && Possible(danger, r, e) && !LateAt(r, c, early, e)
    ensures Inv(Next(danger, r, e), c, early, text, had)
  {
    hide Copier, InStep, Clipboard.Next, Allowed, Late, Apply, Apart;
    match e {
      case Happens(i, ev) =>
        if i == c {
          CopierEvent(danger, r.devices[c], early, text, had, ev);
        } else {
          NotLate(r.devices[i], ev);
          InStepEvent(danger, r.devices[i], {}, [], ev);
        }
      case Receives(i, focus) =>
        if i == c {
          CopierReceive(danger, r.devices[c], early, text, had, r.inbox[i][0], focus);
        } else {
          InStepReceive(danger, r.devices[i], {}, [], r.inbox[i][0], focus);
        }
    }
  }

  lemma CopierReceive(danger: Danger, d: Device, early: set<nat>, text: Text, had: Text, raw: Text, focus: bool)
    requires Copier(d, early, text, had) && Apart(d, Apply(danger, d, raw, focus))
    ensures Copier(Apply(danger, d, raw, focus), early, text, had)
  {
    hide Primed, InStep, News, Apply, Apart;
    if Primed(d, early, text, had) {
      PrimedReceive(danger, d, early, text, had, raw, focus);
    } else if InStep(d, early, [text]) && News(text, had) {
      InStepReceive(danger, d, early, [text], raw, focus);
    } else {
      InStepReceive(danger, d, {}, [], raw, focus);
    }
  }

  predicate Feasible(danger: Danger, r: Room, run: seq<Event>)
    decreases |run|
  {
    run == [] || (Possible(danger, r, run[0]) && Feasible(danger, Next(danger, r, run[0]), run[1..]))
  }

  function After(danger: Danger, r: Room, run: seq<Event>): (z: Room)
    requires Feasible(danger, r, run)
    ensures |z.devices| == |r.devices|
    decreases |run|
  {
    if run == [] then r else After(danger, Next(danger, r, run[0]), run[1..])
  }

  /** No read of `early` answers late in this run. */
  predicate NoneLate(danger: Danger, r: Room, c: nat, early: set<nat>, run: seq<Event>)
    requires Feasible(danger, r, run)
    decreases |run|
  {
    run == [] || (!LateAt(r, c, early, run[0]) && NoneLate(danger, Next(danger, r, run[0]), c, early, run[1..]))
  }

  lemma {:induction false} RunInv(danger: Danger, r: Room, c: nat, early: set<nat>, text: Text, had: Text, run: seq<Event>)
    requires Inv(r, c, early, text, had) && Feasible(danger, r, run) && NoneLate(danger, r, c, early, run)
    ensures Inv(After(danger, r, run), c, early, text, had)
    decreases |run|
  {
    hide Inv, Next, Possible, LateAt;
    if run != [] {
      NextInv(danger, r, c, early, text, had, run[0]);
      RunInv(danger, Next(danger, r, run[0]), c, early, text, had, run[1..]);
    }
  }

  /** What a device captured it captured. */
  lemma SentGrows(danger: Danger, r: Room, c: nat, e: Event)
    requires Possible(danger, r, e) && c < |r.devices|
    ensures |Next(danger, r, e).devices[c].sent| >= |r.devices[c].sent|
  {
    hide Trim, Defuse, Flagged, Apart;
    match e {
      case Happens(i, ev) => if i == c { DeviceSentGrows(danger, r.devices[i], ev); }
      case Receives(i, focus) =>
    }
  }

  lemma DeviceSentGrows(danger: Danger, d: Device, e: Clipboard.Event)
    requires Clipboard.Possible(d, e)
    ensures |Clipboard.Next(danger, d, e).sent| >= |d.sent|
  {
    hide WritePending, Apply, PutOnClipboard, FromClipboard, Done, Land, Resume, Discard, GraceFires, TryRead, ReadDone, Paste;
    WritingSendsNothing(danger, d);
    TimedSendsNothing(danger, d);
    LookingSends(d);
  }

  lemma TimedSendsNothing(danger: Danger, d: Device)
    ensures forall focus :: GraceFires(d, focus).sent == d.sent
    ensures forall deliberate :: TryRead(d, deliberate).sent == d.sent
  {
    hide WritePending;
    WritingSendsNothing(danger, d);
    WritingSendsNothing(danger, d.(graceTimer := false));
  }

  lemma LookingSends(d: Device)
    ensures |Paste(d).sent| >= |d.sent|
    ensures forall r :: r in d.looks ==> |ReadDone(d, r).sent| >= |d.sent|
  {
    hide FromClipboard;
    CapturingSends();
  }

  lemma WritingSendsNothing(danger: Danger, d: Device)
    ensures forall cause :: WritePending(d, cause).sent == d.sent
    ensures forall raw, focus :: Apply(danger, d, raw, focus).sent == d.sent
    ensures forall text, focus :: PutOnClipboard(d, text, focus).sent == d.sent
    ensures forall w :: w in d.l.writes ==> Done(d, w).sent == d.sent && Land(d, w).sent == d.sent && Resume(d, w).sent == d.sent
    ensures Discard(d).sent == d.sent && Discard(d.(binds := false)).sent == d.sent
    ensures Discard(d.(l := d.l.(gen := d.l.gen + 1))).sent == d.sent
  {
    hide Defuse, Flagged, Begin, Clipboard.Settled;
  }

  lemma CapturingSends()
    ensures forall d, text, deliberate :: |FromClipboard(d, text, deliberate).sent| >= |d.sent|
  {
    hide Trim;
  }

  lemma {:induction false} RunSentGrows(danger: Danger, r: Room, c: nat, run: seq<Event>)
    requires Feasible(danger, r, run) && c < |r.devices|
    ensures |After(danger, r, run).devices[c].sent| >= |r.devices[c].sent|
    decreases |run|
  {
    hide Next, Possible;
    if run != [] {
      SentGrows(danger, r, c, run[0]);
      RunSentGrows(danger, Next(danger, r, run[0]), c, run[1..]);
    }
  }

  lemma {:induction false} RunLate(danger: Danger, r: Room, c: nat, early: set<nat>, text: Text, had: Text, run: seq<Event>)
    requires Inv(r, c, early, text, had) && Feasible(danger, r, run) && !NoneLate(danger, r, c, early, run)
    ensures |After(danger, r, run).devices[c].sent| >= 2
    decreases |run|
  {
    hide Inv, Possible, Late, Clipboard.Next, Apply;
    if LateAt(r, c, early, run[0]) {
      LateSends(danger, r, c, early, text, had, run[0]);
      RunSentGrows(danger, Next(danger, r, run[0]), c, run[1..]);
    } else {
      NextInv(danger, r, c, early, text, had, run[0]);
      hide Next;
      RunLate(danger, Next(danger, r, run[0]), c, early, text, had, run[1..]);
    }
  }

  lemma LateSends(danger: Danger, r: Room, c: nat, early: set<nat>, text: Text, had: Text, e: Event)
    requires Inv(r, c, early, text, had) && Possible(danger, r, e) && LateAt(r, c, early, e)
    ensures |Next(danger, r, e).devices[c].sent| == 2
  {
    hide Copier, Late, Clipboard.Next, Apply, InStep;
    LateCaptures(danger, r.devices[c], early, text, had, e.e);
  }

  lemma {:induction false} FramesOf(devices: seq<Device>, c: nat)
    requires c < |devices| && forall j :: 0 <= j < |devices| && j != c ==> devices[j].sent == []
    ensures Frames(devices) == |devices[c].sent|
  {
    if c == 0 {
      NoFrames(devices[1..]);
    } else {
      FramesOf(devices[1..], c - 1);
    }
  }

  lemma {:induction false} NoFrames(devices: seq<Device>)
    requires forall j :: 0 <= j < |devices| ==> devices[j].sent == []
    ensures Frames(devices) == 0
  {
    if devices != [] { NoFrames(devices[1..]); }
  }

  lemma {:induction false} FramesAtLeast(devices: seq<Device>, c: nat)
    requires c < |devices|
    ensures Frames(devices) >= |devices[c].sent|
  {
    if c > 0 { FramesAtLeast(devices[1..], c - 1); }
  }

  lemma CopierSent(r: Room, c: nat, early: set<nat>, text: Text, had: Text)
    requires Inv(r, c, early, text, had)
    ensures Frames(r.devices) == |r.devices[c].sent| <= 1
    ensures r.devices[c].sent == [text] || r.devices[c].sent == []
    ensures !News(text, had) ==> r.devices[c].sent == []
  {
    hide Trim, News, Matches;
    FramesOf(r.devices, c);
  }

  /**
   One copy, one clip at most, ever, and it is the copied text, and nobody else sends
   anything: in every run in which no early read answers late.
   */
  lemma NoEcho(danger: Danger, r: Room, c: nat, text: Text, run: seq<Event>)
    requires CalmRoom(r) && c < |r.devices| && Feasible(danger, Copied(r, c, text), run)
    requires NoneLate(danger, Copied(r, c, text), c, Early(r.devices[c]), run)
    ensures var z := After(danger, Copied(r, c, text), run);
            && Frames(z.devices) == |z.devices[c].sent| <= 1
            && (z.devices[c].sent == [text] || z.devices[c].sent == [])
            && (!News(text, r.devices[c].lastSent) ==> Frames(z.devices) == 0)
  {
    hide After, Feasible, NoneLate, News, Inv;
    CopiedInv(r, c, text);
    RunInv(danger, Copied(r, c, text), c, Early(r.devices[c]), text, r.devices[c].lastSent, run);
    CopierSent(After(danger, Copied(r, c, text), run), c, Early(r.devices[c]), text, r.devices[c].lastSent);
  }

  /** And in no other: a second frame crosses exactly when an early read answers late. */
  lemma EchoOnlyIfLate(danger: Danger, r: Room, c: nat, text: Text, run: seq<Event>)
    requires CalmRoom(r) && c < |r.devices| && Feasible(danger, Copied(r, c, text), run)
    ensures Frames(After(danger, Copied(r, c, text), run).devices) <= 1
       <==> NoneLate(danger, Copied(r, c, text), c, Early(r.devices[c]), run)
  {
    hide After, Feasible, NoneLate, News, Inv;
    if NoneLate(danger, Copied(r, c, text), c, Early(r.devices[c]), run) {
      NoEcho(danger, r, c, text, run);
    } else {
      CopiedInv(r, c, text);
      RunLate(danger, Copied(r, c, text), c, Early(r.devices[c]), text, r.devices[c].lastSent, run);
      FramesAtLeast(After(danger, Copied(r, c, text), run).devices, c);
    }
  }

  /** A device that was asked nothing before the copy has no early read, so none is late. */
  lemma {:induction false} NoneEarlyNoneLate(danger: Danger, r: Room, c: nat, run: seq<Event>)
    requires Feasible(danger, r, run)
    ensures NoneLate(danger, r, c, {}, run)
    decreases |run|
  {
    hide Next, Possible;
    if run != [] { NoneEarlyNoneLate(danger, Next(danger, r, run[0]), c, run[1..]); }
  }

  // ------------------------------------------------------------------
  // Exactly one.
  // ------------------------------------------------------------------

  /** A look at the copied text: a read that sampled it since the copy, answering now, or a paste. */
  predicate Seen(d: Device, early: set<nat>, text: Text, e: Clipboard.Event) {
    || (e.Answers? && e.r in d.looks && e.r !in early && d.looks[e.r].value == Some(text))
    || (e.Pastes? && d.os == text && text != [])
  }

  /** No arriving clip has taken its place: what was last sent is still what it was, or the text itself was. */
  predicate StillThere(d: Device, had: Text) {
    d.sent != [] || d.lastSent == had
  }

  lemma SeenSends(danger: Danger, d: Device, early: set<nat>, text: Text, had: Text, e: Clipboard.Event)
    requires Copier(d, early, text, had) && Allowed(danger, d, e) && Seen(d, early, text, e) && !d.suppressed && StillThere(d, had)
    ensures Clipboard.Next(danger, d, e).sent == if News(text, had) then [text] else []
    ensures Copier(Clipboard.Next(danger, d, e), early, text, had)
  {
    hide Trim, ReadDone, Paste, News, Primed, Matches;
    SeenIsNotLate(d, early, text, e);
    CopierEvent(danger, d, early, text, had, e);
    if Primed(d, early, text, had) {
      PrimedSends(d, early, text, had, e);
    } else if InStep(d, early, [text]) && News(text, had) {
      InStepEvent(danger, d, early, [text], e);
    } else {
      NotLate(d, e);
      InStepEvent(danger, d, {}, [], e);
      ReplacedMeans(d, early, text, had, e);
    }
  }

  lemma SeenIsNotLate(d: Device, early: set<nat>, text: Text, e: Clipboard.Event)
    requires Seen(d, early, text, e)
    ensures !Late(d, early, e)
  {
  }

  lemma PrimedSends(d: Device, early: set<nat>, text: Text, had: Text, e: Clipboard.Event)
    requires Primed(d, early, text, had) && Seen(d, early, text, e) && !d.suppressed
    requires e.Answers? || e.Pastes?
    ensures (if e.Answers? then ReadDone(d, e.r) else Paste(d)).sent == if News(text, had) then [text] else []
  {
    hide Trim;
    TrimNothing(text);
    assert Resting(d.l);
  }

  /** If a clip that arrived has taken its place and the text is seen all the same, it was no news. */
  lemma ReplacedMeans(d: Device, early: set<nat>, text: Text, had: Text, e: Clipboard.Event)
    requires InStep(d, {}, []) && Seen(d, early, text, e) && !d.suppressed && d.lastSent == had
    ensures !News(text, had)
  {
    hide Trim;
    assert Resting(d.l);
  }

  /** Sent is sent, and no news stays no news. */
  lemma {:induction false} RunSent(danger: Danger, r: Room, c: nat, early: set<nat>, text: Text, had: Text, run: seq<Event>)
    requires Inv(r, c, early, text, had) && Feasible(danger, r, run) && NoneLate(danger, r, c, early, run)
    requires r.devices[c].sent == if News(text, had) then [text] else []
    ensures Frames(After(danger, r, run).devices) == if News(text, had) then 1 else 0
    decreases |run|
  {
    hide After, News, Possible, LateAt, Inv, Next;
    RunInv(danger, r, c, early, text, had, run);
    CopierSent(After(danger, r, run), c, early, text, had);
    InvHere(r, c, early, text, had);
    RunSentGrows(danger, r, c, run);
  }

  lemma InvHere(r: Room, c: nat, early: set<nat>, text: Text, had: Text)
    requires Inv(r, c, early, text, had)
    ensures c < |r.devices|
  {
  }

  /**
   Exactly one, if it was worth sending, from the first look at the copied text outside
   the window on, unless a clip that arrived took its place before that look.
   */
  lemma SentOnceLooked(danger: Danger, r: Room, c: nat, text: Text, run: seq<Event>, e: Clipboard.Event, more: seq<Event>)
    requires CalmRoom(r) && c < |r.devices| && Feasible(danger, Copied(r, c, text), run)
    requires NoneLate(danger, Copied(r, c, text), c, Early(r.devices[c]), run)
    requires var y := After(danger, Copied(r, c, text), run);
             && Possible(danger, y, Happens(c, e)) && !y.devices[c].suppressed
             && Seen(y.devices[c], Early(r.devices[c]), text, e) && StillThere(y.devices[c], r.devices[c].lastSent)
             && Feasible(danger, Next(danger, y, Happens(c, e)), more)
             && NoneLate(danger, Next(danger, y, Happens(c, e)), c, Early(r.devices[c]), more)
    ensures Frames(After(danger, Next(danger, After(danger, Copied(r, c, text), run), Happens(c, e)), more).devices)
         == if News(text, r.devices[c].lastSent) then 1 else 0
  {
    hide After, Feasible, NoneLate, Trim, News, Inv, Next, Possible, Seen, StillThere;
    var had, early := r.devices[c].lastSent, Early(r.devices[c]);
    CopiedInv(r, c, text);
    RunInv(danger, Copied(r, c, text), c, early, text, had, run);
    var y := After(danger, Copied(r, c, text), run);
    SeenStep(danger, y, c, early, text, had, e);
    RunSent(danger, Next(danger, y, Happens(c, e)), c, early, text, had, more);
  }

  lemma SeenStep(danger: Danger, y: Room, c: nat, early: set<nat>, text: Text, had: Text, e: Clipboard.Event)
    requires Inv(y, c, early, text, had) && Possible(danger, y, Happens(c, e)) && !y.devices[c].suppressed
    requires Seen(y.devices[c], early, text, e) && StillThere(y.devices[c], had)
    ensures Inv(Next(danger, y, Happens(c, e)), c, early, text, had)
    ensures Next(danger, y, Happens(c, e)).devices[c].sent == if News(text, had) then [text] else []
  {
    hide Copier, Late, Clipboard.Next, InStep, Seen, StillThere, News, Allowed;
    SeenIsNotLate(y.devices[c], early, text, e);
    SeenSends(danger, y.devices[c], early, text, had, e);
  }

  // ------------------------------------------------------------------
  // With nothing on its way to the copying device, nothing takes its place.
  // ------------------------------------------------------------------

  predicate Undisturbed(r: Room, c: nat) {
    && WellFormed(r) && c < |r.devices|
    && r.inbox[c] == [] && r.devices[c].l.pending.None? && r.devices[c].l.writes == map[]
  }

  lemma UndisturbedStep(danger: Danger, r: Room, c: nat, early: set<nat>, text: Text, had: Text, e: Event)
    requires Inv(r, c, early, text, had) && Undisturbed(r, c) && StillThere(r.devices[c], had)
    requires Possible(danger, r, e) && !LateAt(r, c, early, e)
    ensures Undisturbed(Next(danger, r, e), c) && StillThere(Next(danger, r, e).devices[c], had)
  {
    hide Copier, Late, Apply, InStep;
    if e.Happens? {
      if e.i == c {
        AloneStep(danger, r.devices[c], had, e.e);
        DeviceSentGrows(danger, r.devices[c], e.e);
      } else {
        FollowerSends(danger, r, c, early, text, had, e.i, e.e);
      }
    }
  }

  lemma AloneStep(danger: Danger, d: Device, had: Text, e: Clipboard.Event)
    requires d.l.pending.None? && d.l.writes == map[] && StillThere(d, had) && Allowed(danger, d, e)
    ensures var z := Clipboard.Next(danger, d, e); z.l.pending.None? && z.l.writes == map[] && StillThere(z, had)
  {
    hide Trim;
  }

  lemma FollowerSends(danger: Danger, r: Room, c: nat, early: set<nat>, text: Text, had: Text, i: nat, e: Clipboard.Event)
    requires Inv(r, c, early, text, had) && i != c && Possible(danger, r, Happens(i, e))
    ensures Clipboard.Next(danger, r.devices[i], e).sent == r.devices[i].sent == []
  {
    hide Copier, Late, Allowed, Clipboard.Next, Matches;
    NotLate(r.devices[i], e);
    InStepEvent(danger, r.devices[i], {}, [], e);
  }

  /** So there the condition of `SentOnceLooked` holds for ever. */
  lemma {:induction false} NothingTakesItsPlace(danger: Danger, r: Room, c: nat, early: set<nat>, text: Text, had: Text, run: seq<Event>)
    requires Inv(r, c, early, text, had) && Undisturbed(r, c) && StillThere(r.devices[c], had)
    requires Feasible(danger, r, run) && NoneLate(danger, r, c, early, run)
    ensures c < |After(danger, r, run).devices| && StillThere(After(danger, r, run).devices[c], had)
    decreases |run|
  {
    hide Inv, Next, Possible, LateAt, Undisturbed, StillThere;
    InvHere(r, c, early, text, had);
    if run != [] {
      NextInv(danger, r, c, early, text, had, run[0]);
      UndisturbedStep(danger, r, c, early, text, had, run[0]);
      NothingTakesItsPlace(danger, Next(danger, r, run[0]), c, early, text, had, run[1..]);
    }
  }

  /**
   So a copy in a calm room, with no clip on its way to the copying device or held there,
   is sent exactly once from the first look outside the window on.
   */
  lemma {:induction false} CopySentOnce(danger: Danger, r: Room, c: nat, text: Text, run: seq<Event>, e: Clipboard.Event, more: seq<Event>)
    requires CalmRoom(r) && c < |r.devices| && r.inbox[c] == [] && r.devices[c].l.pending.None?
    requires Feasible(danger, Copied(r, c, text), run)
    requires NoneLate(danger, Copied(r, c, text), c, Early(r.devices[c]), run)
    requires var y := After(danger, Copied(r, c, text), run);
             && Possible(danger, y, Happens(c, e)) && !y.devices[c].suppressed
             && Seen(y.devices[c], Early(r.devices[c]), text, e)
             && Feasible(danger, Next(danger, y, Happens(c, e)), more)
             && NoneLate(danger, Next(danger, y, Happens(c, e)), c, Early(r.devices[c]), more)
    ensures Frames(After(danger, Next(danger, After(danger, Copied(r, c, text), run), Happens(c, e)), more).devices)
         == if News(text, r.devices[c].lastSent) then 1 else 0
  {
    hide After, Feasible, NoneLate, Trim, News, Inv, Next, Possible, Seen;
    var had, early := r.devices[c].lastSent, Early(r.devices[c]);
    CopiedInv(r, c, text);
    NothingTakesItsPlace(danger, Copied(r, c, text), c, early, text, had, run);
    SentOnceLooked(danger, r, c, text, run, e, more);
  }

  // ------------------------------------------------------------------
  // What is captured reaches everybody else.
  // ------------------------------------------------------------------

  /** What a step captures. */
  function CapturedBy(danger: Danger, r: Room, e: Event): seq<Text>
    requires Possible(danger, r, e)
  {
    var d, z := r.devices[e.i], Next(danger, r, e).devices[e.i];
    if e.Happens? && |d.sent| <= |z.sent| then z.sent[|d.sent|..] else []
  }

  /** What the other devices capture in a run, in order. */
  function Elsewhere(danger: Danger, r: Room, run: seq<Event>, j: nat): seq<Text>
    requires Feasible(danger, r, run)
    decreases |run|
  {
    if run == [] then []
    else (if run[0].i != j then CapturedBy(danger, r, run[0]) else []) + Elsewhere(danger, Next(danger, r, run[0]), run[1..], j)
  }

  /** What arrives at a device in a run, in order. */
  function Heard(danger: Danger, r: Room, run: seq<Event>, j: nat): seq<Text>
    requires Feasible(danger, r, run) && j < |r.inbox|
    decreases |run|
  {
    if run == [] then []
    else (if run[0].Receives? && run[0].i == j then [r.inbox[j][0]] else []) + Heard(danger, Next(danger, r, run[0]), run[1..], j)
  }

  lemma StepCarries(danger: Danger, r: Room, e: Event, j: nat)
    requires Possible(danger, r, e) && j < |r.inbox|
    ensures (if e.Receives? && e.i == j then [r.inbox[j][0]] else []) + Next(danger, r, e).inbox[j]
         == r.inbox[j] + (if e.i != j then CapturedBy(danger, r, e) else [])
  {
    hide Allowed, Apply, Clipboard.Next;
  }

  /**
   Between any two moments, what arrives at a device and what is still on its way to it is
   what was on its way before and what every other device captured since, in order: none is
   lost, none is repeated, none goes back to where it came from.
   */
  lemma {:induction false} EveryCaptureArrives(danger: Danger, r: Room, run: seq<Event>, j: nat)
    requires Feasible(danger, r, run) && WellFormed(r) && j < |r.inbox|
    ensures j < |After(danger, r, run).inbox|
    ensures Heard(danger, r, run, j) + After(danger, r, run).inbox[j] == r.inbox[j] + Elsewhere(danger, r, run, j)
    decreases |run|
  {
    hide Possible, Next, CapturedBy;
    if run != [] {
      var e, z := run[0], Next(danger, r, run[0]);
      StepCarries(danger, r, e, j);
      EveryCaptureArrives(danger, z, run[1..], j);
      Conserved(if e.Receives? && e.i == j then [r.inbox[j][0]] else [], Heard(danger, z, run[1..], j), After(danger, z, run[1..]).inbox[j],
                z.inbox[j], r.inbox[j], if e.i != j then CapturedBy(danger, r, e) else [], Elsewhere(danger, z, run[1..], j));
    }
  }

  lemma Conserved(popped: seq<Text>, heard: seq<Text>, end: seq<Text>, mid: seq<Text>, start: seq<Text>, news: seq<Text>, later: seq<Text>)
    requires popped + mid == start + news && heard + end == mid + later
    ensures popped + heard + end == start + (news + later)
  {
    assert popped + heard + end == popped + (heard + end);
    assert popped + (mid + later) == popped + mid + later;
    assert start + news + later == start + (news + later);
  }

  /** And what arrives with anything visible in it is written at once or held. */
  lemma ArrivalIsTaken(danger: Danger, r: Room, j: nat, focus: bool)
    requires Possible(danger, r, Receives(j, focus)) && r.devices[j].binds && Defuse(r.inbox[j][0]) != []
    ensures var d, z, raw := r.devices[j], Next(danger, r, Receives(j, focus)).devices[j], r.inbox[j][0];
            || ClipboardDelivery.Writing(d, z, Defuse(raw), d.l.arrivalNum + 1, Peer(raw), Direct)
            || z.l.pending == Some(Held(Defuse(raw), Flagged(danger, Defuse(raw)), d.l.arrivalNum + 1, Peer(raw)))
  {
    hide Apply, Defuse, Flagged;
    ClipboardDelivery.ArrivalIsTaken(danger, r.devices[j], r.inbox[j][0], focus);
    assert Clipboard.Next(danger, r.devices[j], Arrives(r.inbox[j][0], focus)) == Apply(danger, r.devices[j], r.inbox[j][0], focus);
  }

  // ------------------------------------------------------------------
  // Why the conditions are there.
  // ------------------------------------------------------------------

  /** A poll `k` sampled before the copy; a focus read samples after it and answers first. */
  function PollOvertaken(d: Device, k: nat, text: Text): Device {
    var d1 := TryRead(d.(os := text), true);
    var d2 := if d.nextRead in d1.looks then Sample(d1, d.nextRead) else d1;
    var d3 := if d.nextRead in d2.looks then ReadDone(d2, d.nextRead) else d2;
    if k in d3.looks then ReadDone(d3, k) else d3
  }

  /** Two frames from one copy: the new text, and then the old. */
  lemma OvertakenPollEchoes(d: Device, k: nat, text: Text)
    requires Calm(d) && !d.suppressed && d.l.pending.None? && d.nextRead !in d.looks
    requires k in d.looks && d.looks[k] == Read(false, false, Some(d.os), false)
    requires News(text, d.lastSent) && Trim(d.os) != []
    ensures PollOvertaken(d, k, text).sent == [text, d.os]
  {
    hide Trim;
    TrimNothing(text);
    TrimNothing(d.os);
    var d1 := TryRead(d.(os := text), true);
    assert d.nextRead in d1.looks && k != d.nextRead;
    var d2 := Sample(d1, d.nextRead);
    assert d2.looks[d.nextRead].value == Some(text) && d2.looks[k] == d.looks[k];
    var d3 := ReadDone(d2, d.nextRead);
    assert d3.sent == [text] && d3.lastSent == text && k in d3.looks;
  }

  /** A poll that sampled before an arriving clip was written, and answers after the window. */
  function LateAnswer(danger: Danger, d: Device, raw: Text): Device
    requires d.looks == map[] && d.l.writes == map[]
  {
    var d1 := TryRead(d, false);
    var d2 := if d.nextRead in d1.looks then Sample(d1, d.nextRead) else d1;
    var d3 := Apply(danger, d2, raw, true);
    var d4 := if d.l.nextWrite in d3.l.writes then Done(Land(d3, d.l.nextWrite), d.l.nextWrite) else d3;
    var d5 := d4.(suppressed := false);
    if d.nextRead in d5.looks then ReadDone(d5, d.nextRead) else d5
  }

  /** It sends the value the clip replaced back to the room. */
  lemma LateAnswerEchoes(danger: Danger, d: Device, raw: Text)
    requires Calm(d) && d.looks == map[] && d.l.pending.None? && !d.suppressed && !d.recent && Trim(d.os) != []
    requires !Flagged(danger, Defuse(raw)) && Defuse(raw) != [] && Trim(Defuse(raw)) != Trim(d.os)
    ensures LateAnswer(danger, d, raw).sent == [d.os]
  {
    hide Trim, Defuse, Flagged;
    TrimNothing(d.os);
    var d1 := TryRead(d, false);
    var d2 := Sample(d1, d.nextRead);
    assert d2.looks[d.nextRead].value == Some(d.os);
    var d3 := Apply(danger, d2, raw, true);
    assert d3 == WriteNow(d2.(l := Numbered(d2.l)), Defuse(raw), d2.l.arrivalNum + 1, None, Peer(raw), Direct);
    assert d.l.nextWrite in d3.l.writes && d3.l.writes[d.l.nextWrite].text == Defuse(raw);
    var d4 := Done(Land(d3, d.l.nextWrite), d.l.nextWrite);
    assert d.nextRead in d4.looks && d4.looks[d.nextRead].value == Some(d.os);
    assert d4.lastSent == Defuse(raw) && d4.sent == [] && d4.binds;
  }

  /** Two arriving clips written at once, landing the other way round; then a look after the window. */
  function OverlappingWrites(danger: Danger, d: Device, first: Text, second: Text): Device
    requires d.l.writes == map[]
  {
    var a, b := d.l.nextWrite, d.l.nextWrite + 1;
    var d1 := Apply(danger, Apply(danger, d, first, true), second, true);
    var d2 := if b in d1.l.writes then Done(Land(d1, b), b) else d1;
    var d3 := if a in d2.l.writes then Done(Land(d2, a), a) else d2;
    Paste(d3.(suppressed := false))
  }

  /** The older clip is on the clipboard, the newer is what was last applied, and the older goes out again. */
  lemma OverlappingWritesEcho(danger: Danger, d: Device, first: Text, second: Text)
    requires Calm(d) && d.l.pending.None? && !d.recent && d.l.writtenNum <= d.l.arrivalNum
    requires !Flagged(danger, Defuse(first)) && !Flagged(danger, Defuse(second))
    requires Defuse(first) != [] && Defuse(second) != [] && News(Defuse(first), Defuse(second))
    ensures OverlappingWrites(danger, d, first, second).sent == [Defuse(first)]
  {
    hide Trim, Defuse, Flagged;
    var a, b, n := d.l.nextWrite, d.l.nextWrite + 1, d.l.arrivalNum;
    var d0 := Apply(danger, d, first, true);
    assert d0 == WriteNow(d.(l := Numbered(d.l)), Defuse(first), n + 1, None, Peer(first), Direct);
    var d1 := Apply(danger, d0, second, true);
    assert d1 == WriteNow(d0.(l := Numbered(d0.l)), Defuse(second), n + 2, None, Peer(second), Direct);
    assert a in d1.l.writes && d1.l.writes[a].text == Defuse(first) && !d1.l.writes[a].landed;
    OverlapLands(d1, a, b, Defuse(first), Defuse(second));
  }

  lemma OverlapLands(d: Device, a: nat, b: nat, first: Text, second: Text)
    requires a != b && a in d.l.writes && b in d.l.writes && d.l.writes[a].text == first && d.l.writes[b].text == second
    requires d.lastSent == second && d.sent == [] && d.l.pending.None? && News(first, second) && first != []
    ensures var d2 := Done(Land(d, b), b);
            && a in d2.l.writes && Paste(Done(Land(d2, a), a).(suppressed := false)).sent == [first]
  {
    hide Trim;
    var d2 := Done(Land(d, b), b);
    assert a in d2.l.writes && d2.l.writes[a] == d.l.writes[a];
    assert d2.lastSent == second && d2.sent == [];
    var d3 := Done(Land(d2, a), a);
    assert d3.os == first && d3.lastSent == second && d3.sent == [];
  }
}
