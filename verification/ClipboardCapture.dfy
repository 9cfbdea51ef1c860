/**
 The clipboard module itself: the variables of src/clipboard/capture.js, changed in
 place. Each method leaves exactly the device that its step in `Clipboard` describes.
 Waiting for the operating system is left to the caller: a write is asked for here and
 settles in `WriteSettled`, a read is asked for here and answers in `ReadAnswered`.
 */
module ClipboardCaptures {

  import opened Options
  import opened Guard
  import opened Clipboard

  /** Outside the module: promises not yet settled, the clipboard itself, and history. */
  datatype World = World(
    writes: map<nat, Write>, nextWrite: nat, looks: map<nat, Read>, nextRead: nat,
    os: Text, top: nat, log: seq<Start>, sent: seq<Text>)

  function AskedToWrite(w: World, write: Write, written: nat): World {
    w.(writes := Crowd(w.writes)[w.nextWrite := write.(alone := w.writes == map[])], nextWrite := w.nextWrite + 1,
       log := w.log + [Start(write.text, write.num, written, write.origin, write.cause)])
  }

  class ClipboardCapture {
    const danger: Danger

    var binds: bool
    var lastSent: Text
    var suppressed: bool
    var recent: bool
    var graceTimer: bool

    var pending: Option<Text>
    var pendingRisk: bool
    var pendingSeq: nat
    var pendingFrom: Origin

    var arrivalSeq: nat
    var writtenSeq: nat
    var clipboardGen: nat

    var world: World

    ghost function Slot(): Option<Held>
      reads this
    {
      if pending.Some? then Some(Held(pending.value, pendingRisk, pendingSeq, pendingFrom)) else None
    }

    ghost function View(): Device
      reads this
    {
      Device(Ledger(Slot(), arrivalSeq, writtenSeq, clipboardGen, world.writes, world.nextWrite, world.top, world.log),
             binds, lastSent, suppressed, recent, graceTimer, world.looks, world.nextRead, world.os, world.sent)
    }

    constructor (danger: Danger, binds: bool, os: Text)
      ensures this.danger == danger && this.binds == binds && world.os == os && Unused(View().l)
    {
      this.danger, this.binds := danger, binds;
      lastSent, suppressed, recent, graceTimer := [], false, false, false;
      pending, pendingRisk, pendingSeq, pendingFrom := None, false, 0, Own;
      arrivalSeq, writtenSeq, clipboardGen := 0, 0, 0;
      world := World(map[], 0, map[], 0, os, 0, [], []);
    }

    method WriteNow(text: Text, seqNo: nat, owed: Option<Owed>, origin: Origin, cause: Cause)
      modifies this`lastSent, this`suppressed, this`world
      ensures View() == Clipboard.WriteNow(old(View()), text, seqNo, owed, origin, cause)
    {
      hide Crowd;
      var prev := lastSent;
      lastSent := text;
      suppressed := true;
      world := AskedToWrite(world, Write(text, prev, seqNo, owed, origin, cause, false, false, false), writtenSeq);
    }

    method Hold(text: Text, risk: bool, seqNo: nat, from: Origin)
      modifies this`pending, this`pendingRisk, this`pendingSeq, this`pendingFrom
      ensures View() == old(View()).(l := old(View()).l.(pending := Some(Held(text, risk, seqNo, from))))
    {
      pending, pendingRisk, pendingSeq, pendingFrom := Some(text), risk, seqNo, from;
    }

    method Apply(raw: Text, focus: bool)
      modifies this
      ensures View() == Clipboard.Apply(danger, old(View()), raw, focus)
    {
      hide Flagged, Defuse, Begin, Clipboard.WriteNow;
      if !binds {
        return;
      }
      arrivalSeq := arrivalSeq + 1;
      var text := Defuse(raw);
      if text == [] {
        return;
      }
      var risk := LooksExecutable(danger, text);
      if risk || !focus || recent {
        Hold(text, risk, arrivalSeq, Peer(raw));
        if !risk && focus {
          graceTimer := true;
        }
        return;
      }
      WriteNow(text, arrivalSeq, None, Peer(raw), Direct);
    }

    method PutOnClipboard(text: Text, focus: bool)
      modifies this
      ensures View() == Clipboard.PutOnClipboard(old(View()), text, focus)
    {
      hide Clipboard.WriteNow;
      if !binds || text == [] {
        return;
      }
      arrivalSeq := arrivalSeq + 1;
      if !focus {
        Hold(text, false, arrivalSeq, Own);
        return;
      }
      recent := true;
      WriteNow(text, arrivalSeq, None, Own, Direct);
    }

    method DiscardPending()
      modifies this`pending, this`pendingRisk, this`graceTimer
      ensures View() == Discard(old(View()))
    {
      if pending.None? {
        return;
      }
      graceTimer := false;
      pending, pendingRisk := None, false;
    }

    method WritePending(cause: Cause)
      requires pending.Some?
      modifies this
      ensures View() == Clipboard.WritePending(old(View()), cause)
    {
      hide Clipboard.WriteNow;
      if !binds {
        DiscardPending();
        return;
      }
      graceTimer := false;
      var text, risk, seqNo, from := pending.value, pendingRisk, pendingSeq, pendingFrom;
      pending, pendingRisk := None, false;
      if seqNo <= writtenSeq {
        return;
      }
      WriteNow(text, seqNo, Some(Owed(risk, clipboardGen)), from, cause);
    }

    method FlushPending()
      modifies this
      ensures View() == Flush(old(View()))
    {
      if pending.None? || pendingRisk {
        return;
      }
      WritePending(Flushed);
    }

    method ConfirmPending()
      modifies this
      ensures View() == Confirm(old(View()))
    {
      if pending.None? {
        return;
      }
      WritePending(Confirmed);
    }

    method GraceTimer(focus: bool)
      requires graceTimer
      modifies this
      ensures View() == GraceFires(old(View()), focus)
    {
      graceTimer := false;
      if pending.None? || pendingRisk {
        return;
      }
      if recent {
        graceTimer := true;
        return;
      }
      if !focus {
        return;
      }
      FlushPending();
    }

    /** The tail of `writeNow` for a write that succeeded. */
    method WriteTaken(seqNo: nat)
      modifies this`writtenSeq, this`pending, this`pendingRisk, this`graceTimer
      ensures View().l == Taken(old(View()).l, seqNo)
      ensures View() == old(View()).(l := View().l, graceTimer := old(graceTimer) && !(old(pending).Some? && pending.None?))
    {
      if seqNo > writtenSeq {
        writtenSeq := seqNo;
        if pending.Some? && pendingSeq < seqNo {
          DiscardPending();
        }
      }
    }

    /** The rest of `writeNow` once the write has settled. */
    method WriteSettled(w: nat)
      requires w in world.writes && !world.writes[w].refused
      modifies this
      ensures View() == Done(old(View()), w)
    {
      hide Aged, Taken;
      var write := world.writes[w];
      var ok := write.landed;
      world := world.(looks := Aged(world.looks));
      if !ok && lastSent == write.text {
        lastSent := write.prev;
      }
      if ok || write.owed.None? {
        world := world.(writes := world.writes - {w});
      } else {
        world := world.(writes := world.writes[w := write.(refused := true)]);
      }
      if ok {
        WriteTaken(write.num);
      }
    }

    /** The rest of `writePending` after a refusal: the clip is owed, unless something newer or the session says no. */
    method WriteRefused(w: nat)
      requires w in world.writes && world.writes[w].refused
      modifies this`pending, this`pendingRisk, this`pendingSeq, this`pendingFrom, this`world
      ensures View() == Resume(old(View()), w)
    {
      var write := world.writes[w];
      world := world.(writes := world.writes - {w});
      if write.owed.Some? && write.owed.value.gen == clipboardGen && pending.None? && write.num > writtenSeq {
        Hold(write.text, write.owed.value.risk, write.num, write.origin);
      }
    }

    method Capture(text: Text)
      modifies this
      ensures View() == Clipboard.Capture(old(View()), text)
    {
      var t := Trim(text);
      if t == [] || t == Trim(lastSent) {
        return;
      }
      if suppressed {
        return;
      }
      lastSent := text;
      world := world.(sent := world.sent + [text]);
    }

    method FromClipboard(text: Text, deliberate: bool)
      modifies this
      ensures View() == Clipboard.FromClipboard(old(View()), text, deliberate)
    {
      if deliberate || Trim(text) != Trim(lastSent) {
        recent := true;
      }
      Capture(text);
    }

    method TryRead(deliberate: bool)
      modifies this
      ensures View() == Clipboard.TryRead(old(View()), deliberate)
    {
      if !binds || suppressed {
        return;
      }
      if pending.Some? && !pendingRisk && !recent {
        FlushPending();
        return;
      }
      world := world.(looks := world.looks[world.nextRead := Read(false, deliberate, None, false)], nextRead := world.nextRead + 1);
    }

    /** The rest of `tryRead`, or of the native listener, once the text is known. */
    method ReadAnswered(r: nat)
      requires r in world.looks
      modifies this
      ensures View() == ReadDone(old(View()), r)
    {
      var read := world.looks[r];
      world := world.(looks := world.looks - {r});
      if !binds || (read.native && suppressed) {
        return;
      }
      if read.value.Some? && read.value.value != [] {
        FromClipboard(read.value.value, read.deliberate);
      }
    }

    method ForgetSession()
      modifies this
      ensures View() == Clipboard.ForgetSession(old(View()))
    {
      clipboardGen := clipboardGen + 1;
      DiscardPending();
    }

    method ApplyMode(now: bool)
      modifies this
      ensures View() == SetMode(old(View()), now)
    {
      binds := now;
      if !now {
        DiscardPending();
      }
    }
  }
}
