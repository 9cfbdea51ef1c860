/**
 The two ends of a transfer as src/files/transfer.js writes them: one object per
 entry of `live`, its fields changed in place by handlers and loop turns. Each method
 is one uninterrupted stretch of the code, and does to the object what the step
 function of module Transfer does to its value; everything that is proved there of
 whole runs is therefore about these methods.
 */
module TransferSides {
  import opened Options
  import opened Crc32
  import opened Chunks
  import opened Transfer

  class HolderTransfer {
    const file: Bytes
    const relayChunk: nat
    const directChunk: nat
    const crc: Checksummer

    var path: Path
    var done: bool
    var rtc: bool
    var iceTimer: bool
    var next: nat
    var queued: bool
    var waiting: bool
    var confirmed: bool
    var report: Report

    ghost function View(): Sender
      reads this
    {
      Sender(path, done, rtc, iceTimer, next, queued, waiting, confirmed, report)
    }

    ghost predicate Valid()
      reads this, crc, crc.table
    {
      relayChunk > 0 && directChunk > 0 && crc.Valid()
    }

    ghost function What(): Attempt {
      Attempt(file, relayChunk, directChunk)
    }

    constructor (file: Bytes, relayChunk: nat, directChunk: nat, crc: Checksummer)
      requires relayChunk > 0 && directChunk > 0 && crc.Valid()
      ensures Valid() && this.crc == crc
      ensures What() == Attempt(file, relayChunk, directChunk)
      ensures View() == Start(What()).s
    {
      this.file, this.relayChunk, this.directChunk, this.crc := file, relayChunk, directChunk, crc;
      path, done, rtc, iceTimer := Undecided, false, false, false;
      next, queued, waiting, confirmed, report := 0, false, false, false, NoReport;
    }

    method CloseRtc()
      modifies this`rtc, this`iceTimer
      ensures !rtc && !iceTimer
    {
      iceTimer := false;
      rtc := false;
    }

    /** The one exit route. */
    method Finish(why: Report)
      modifies this
      ensures View() == SenderFinish(old(View()), why)
    {
      done := true;
      waiting := false;
      CloseRtc();
      report := why;
    }

    method Abort() returns (out: SenderOut)
      modifies this
      ensures (View(), out) == SenderAbort(old(View()))
    {
      if done {
        return SILENT;
      }
      Finish(SendFailed);
      return SenderOut([SenderError], [], true);
    }

    method FallBack() returns (out: SenderOut)
      modifies this
      ensures (View(), out) == ToRelay(old(View()))
    {
      if done || path != Undecided {
        return SILENT;
      }
      CloseRtc();
      path := Relay;
      return SenderOut([], [], true);
    }

    method StartIceRace(built: bool) returns (out: SenderOut)
      requires Valid()
      modifies this
      ensures Valid() && (View(), out) == SenderStep(What(), old(View()), RaceStarts(built))
    {
      if done || rtc || path != Undecided {
        return SILENT;
      }
      if !built {
        out := FallBack();
        return;
      }
      rtc := true;
      iceTimer := true;
      return SILENT;
    }

    method OnIceTimeout() returns (out: SenderOut)
      requires Valid()
      modifies this
      ensures Valid() && (View(), out) == SenderStep(What(), old(View()), IceTimeout)
    {
      if !iceTimer {
        return SILENT;
      }
      iceTimer := false;
      out := FallBack();
    }

    method OnRtcFailed() returns (out: SenderOut)
      requires Valid()
      modifies this
      ensures Valid() && (View(), out) == SenderStep(What(), old(View()), RtcFails)
    {
      if !rtc {
        return SILENT;
      }
      out := FallBack();
    }

    /** The offer was made: it is signalled while there is a connection to offer. */
    method OnOfferReady() returns (out: SenderOut)
      requires Valid()
      ensures (View(), out) == SenderStep(What(), View(), OfferReady)
    {
      if !rtc {
        return SILENT;
      }
      return SenderOut([RtcOffer], [], false);
    }

    method OnChannelOpen() returns (out: SenderOut)
      requires Valid()
      modifies this
      ensures Valid() && (View(), out) == SenderStep(What(), old(View()), ChannelOpens)
    {
      if !rtc || path != Undecided {
        return SILENT;
      }
      iceTimer := false;
      path := P2P;
      return SenderOut([], [Header(PlanFor(file, directChunk))], false);
    }

    /** One turn of a streaming loop reads and checks one slice. */
    method CutNext(chunkBytes: nat) returns (m: Message)
      requires Valid() && chunkBytes > 0
      modifies crc
      ensures crc.Valid() && m == Cut(file, chunkBytes, next)
    {
      var bytes := Chunk(file, chunkBytes, next);
      var sum := crc.Crc32(bytes);
      m := Message(next, bytes, Some(sum));
    }

    method ChannelTurn(open: bool) returns (out: SenderOut)
      requires Valid()
      modifies this, crc
      ensures Valid() && (View(), out) == SenderStep(What(), old(View()), SenderEvent.ChannelTurn(open))
    {
      if path != P2P || done || queued {
        return SILENT;
      }
      if next < ChunkCount(|file|, directChunk) {
        if !open {
          out := Abort();
          return;
        }
        var m := CutNext(directChunk);
        next := next + 1;
        return SenderOut([], [Data(m)], false);
      }
      queued := true;
      return SenderOut([], if open then [Fin] else [], false);
    }

    method OnFlushed()
      requires Valid()
      modifies this
      ensures Valid() && (View(), SILENT) == SenderStep(What(), old(View()), Flushed)
    {
      if path == P2P && queued && !done {
        waiting := true;
      }
    }

    method OnChannelStall() returns (out: SenderOut)
      requires Valid()
      modifies this
      ensures Valid() && (View(), out) == SenderStep(What(), old(View()), ChannelStalls)
    {
      out := SILENT;
      if path == P2P && !waiting {
        out := Abort();
      }
    }

    method OnChannelClose() returns (out: SenderOut)
      requires Valid()
      modifies this
      ensures Valid() && (View(), out) == SenderStep(What(), old(View()), ChannelCloses)
    {
      out := SILENT;
      if rtc && path == P2P && !queued {
        out := Abort();
      }
    }

    method RelayTurn(accepted: bool) returns (out: SenderOut)
      requires Valid()
      modifies this, crc
      ensures Valid() && (View(), out) == SenderStep(What(), old(View()), SenderEvent.RelayTurn(accepted))
    {
      if path != Relay || done || waiting {
        return SILENT;
      }
      if next < ChunkCount(|file|, relayChunk) {
        if !accepted {
          out := Abort();
          return;
        }
        var m := CutNext(relayChunk);
        next := next + 1;
        return SenderOut([FileChunk(m)], [], false);
      }
      waiting := true;
      return SenderOut([FileDone], [], false);
    }

    /** A streaming loop finds the file no longer announced. */
    method OnFileGone() returns (out: SenderOut)
      requires Valid()
      modifies this
      ensures Valid() && (View(), out) == SenderStep(What(), old(View()), FileGone)
    {
      if path == Undecided || waiting {
        return SILENT;
      }
      out := Abort();
    }

    method OnReceiptSettled(ok: bool) returns (out: SenderOut)
      requires Valid()
      modifies this
      ensures Valid() && (View(), out) == SenderStep(What(), old(View()), ReceiptSettles(ok))
    {
      if !waiting || done || ok != confirmed {
        return SILENT;
      }
      Finish(if ok then SentConfirmed else SentUnconfirmed);
      return SenderOut([], [], true);
    }

    method OnBackFrame(frame: BackFrame) returns (out: SenderOut)
      requires Valid()
      modifies this
      ensures Valid() && (View(), out) == SenderStep(What(), old(View()), HearBack(frame))
    {
      if done {
        return SILENT;
      }
      match frame {
        case FileOk =>
          confirmed := true;
          return SILENT;
        case ReceiverError =>
          Finish(SendFailed);
        case ReceiverCancel =>
          Finish(SendCancelled);
      }
      return SenderOut([], [], true);
    }

    method Cancel() returns (out: SenderOut)
      requires Valid()
      modifies this
      ensures Valid() && (View(), out) == SenderStep(What(), old(View()), CancelSend)
    {
      if done {
        return SILENT;
      }
      Finish(SendCancelled);
      return SenderOut([SenderCancel], [], true);
    }
  }

  class RequesterTransfer {
    const crc: Checksummer

    var live: bool
    var path: Path
    var meta: Option<Plan>
    var rx: Reassembler?
    var done: bool
    var rtc: bool
    var attached: bool
    var iceTimer: bool
    var deadline: bool
    var verifying: Option<Finished>
    var result: Result

    ghost function View(): Receiver
      reads this, rx, if rx != null then {rx.buffer, rx.have} else {}
    {
      Receiver(live, path, meta, if rx != null then Some(rx.View()) else None,
               done, rtc, attached, iceTimer, deadline, verifying, result)
    }

    ghost predicate Valid()
      reads this, crc, crc.table, rx, if rx != null then {rx.buffer, rx.have, rx.crc, rx.crc.table} else {}
    {
      && crc.Valid()
      && (meta.Some? ==> meta.value.chunkBytes > 0)
      && (rx != null ==> rx.Valid() && rx.crc == crc)
      && ReceiverOk(View())
    }

    constructor (crc: Checksummer)
      requires crc.Valid()
      ensures Valid() && rx == null && this.crc == crc
      ensures View() == Receiver(true, Undecided, None, None, false, false, false, false, true, None, NoResult)
    {
      this.crc := crc;
      live, path, meta, rx, done := true, Undecided, None, null, false;
      rtc, attached, iceTimer, deadline := false, false, false, true;
      verifying, result := None, NoResult;
    }

    method CloseRtc()
      requires Valid()
      modifies this`rtc, this`attached, this`iceTimer
      ensures Valid() && View() == Transfer.CloseRtc(old(View()))
    {
      rtc, attached, iceTimer := false, false, false;
    }

    /** The one exit route. The buffer of an unfinished file is let go. */
    method Finish(r: Result)
      requires Valid()
      modifies this
      ensures Valid() && View() == ReceiverFinish(old(View()), r)
    {
      CloseRtc();
      done := true;
      deadline := false;
      rx := null;
      live := false;
      result := r;
    }

    method Abort(why: Why) returns (out: ReceiverOut)
      requires Valid()
      modifies this
      ensures Valid() && (View(), out) == ReceiverAbort(old(View()), why)
    {
      if done {
        return QUIET;
      }
      Finish(Lost(why));
      return ReceiverOut([ReceiverError], true);
    }

    /** A handler that threw: the transfer ends here without a word to the holder. */
    method Fail(why: Why) returns (out: ReceiverOut)
      requires Valid()
      modifies this
      ensures Valid() && (View(), out) == GiveUp(old(View()), why)
    {
      Finish(Lost(why));
      return ReceiverOut([], true);
    }

    method Begin(p: Plan)
      requires Valid() && p.chunkBytes > 0
      modifies this
      ensures Valid() && rx != null && fresh(rx) && fresh(rx.buffer) && fresh(rx.have)
      ensures View() == old(View()).(rx := Some(StartRx(p)))
    {
      rx := new Reassembler(p.size, p.chunkBytes, p.total, Some(p.digest), crc);
    }

    method Verify()
      requires Valid() && rx != null
      modifies this
      ensures Valid() && View() == Complete(old(View()))
    {
      if !done {
        done := true;
        var outcome := rx.Finish();
        verifying := Some(outcome);
      }
    }

    method OnAccept(p: Plan, announced: Option<nat>) returns (out: ReceiverOut)
      requires Valid()
      modifies this
      ensures Valid() && (View(), out) == HearStep(old(View()), FileAccept(p), announced)
    {
      if !live {
        return QUIET;
      }
      if !PlanAccepted(p, announced) {
        out := Fail(BadPlan);
        return;
      }
      deadline := false;
      meta := Some(p);
      return QUIET;
    }

    method OnOffer() returns (out: ReceiverOut)
      requires Valid()
      modifies this
      ensures Valid() && forall announced :: (View(), out) == HearStep(old(View()), RtcOffer, announced)
    {
      if live && !rtc && path != Relay {
        rtc := true;
      }
      return QUIET;
    }

    /** Store one chunk; `error` is what accept() threw. */
    method Take(m: Message) returns (error: Option<Why>)
      requires Valid()
      modifies this, crc, rx, if rx != null then {rx.buffer, rx.have} else {}
      ensures Valid() && (View(), error) == TakeChunk(old(View()), m)
    {
      hide WellFormed, FinishResult, Judge, Fresh;
      if done {
        return None;
      }
      if rx == null {
        if meta.None? {
          return Some(NoHeader);
        }
        Begin(meta.value);
      }
      var outcome := rx.Accept(m);
      if outcome in {OutsidePlan, WrongLength, BadChecksum, OutOfBounds} {
        return Some(ChunkRefused(outcome));
      }
      if !rx.aborted && rx.received >= rx.total {
        Verify();
      }
      return None;
    }

    /** A relay chunk: the first one settles the path on this side too. */
    method OnChunk(m: Message) returns (out: ReceiverOut)
      requires Valid()
      modifies this, crc, rx, if rx != null then {rx.buffer, rx.have} else {}
      ensures Valid() && forall announced :: (View(), out) == HearStep(old(View()), FileChunk(m), announced)
    {
      hide WellFormed, TakeChunk;
      if !live {
        return QUIET;
      }
      var fell := path != Relay;
      if fell {
        CloseRtc();
        path := Relay;
      }
      var error := Take(m);
      if error.Some? {
        out := Fail(error.value);
        return;
      }
      return ReceiverOut([], fell);
    }

    method OnDone() returns (out: ReceiverOut)
      requires Valid()
      modifies this
      ensures Valid() && forall announced :: (View(), out) == HearStep(old(View()), FileDone, announced)
    {
      hide WellFormed, FinishResult, Fresh;
      if !live || done {
        return QUIET;
      }
      if rx == null && meta.Some? {
        Begin(meta.value);
      }
      if rx == null {
        out := Abort(NothingCame);
        return;
      }
      if !rx.aborted && rx.received >= rx.total {
        Verify();
        return QUIET;
      }
      out := Abort(ChunksMissing);
    }

    method OnGoodbye(cancelled: bool) returns (out: ReceiverOut)
      requires Valid()
      modifies this
      ensures Valid()
      ensures cancelled ==> forall announced :: (View(), out) == HearStep(old(View()), SenderCancel, announced)
      ensures !cancelled ==> forall announced :: (View(), out) == HearStep(old(View()), SenderError, announced)
    {
      if !live {
        return QUIET;
      }
      if cancelled {
        Finish(Withdrawn);
        return ReceiverOut([], true);
      }
      out := Fail(PeerFailed);
    }

    method OnChannelHeader(p: Plan, announced: Option<nat>) returns (out: ReceiverOut)
      requires Valid()
      modifies this
      ensures Valid() && (View(), out) == TakeStep(old(View()), Header(p), announced)
    {
      hide WellFormed, FinishResult, Fresh;
      if !attached {
        return QUIET;
      }
      if !PlanAccepted(p, announced) {
        out := Abort(BadPlan);
        return;
      }
      meta := Some(p);
      Begin(p);
      if !rx.aborted && rx.received >= rx.total {
        Verify();
      }
      return QUIET;
    }

    method OnChannelData(m: Message) returns (out: ReceiverOut)
      requires Valid()
      modifies this, crc, rx, if rx != null then {rx.buffer, rx.have} else {}
      ensures Valid() && forall announced :: (View(), out) == TakeStep(old(View()), Data(m), announced)
    {
      hide WellFormed, TakeChunk;
      if !attached {
        return QUIET;
      }
      var error := Take(m);
      if error.Some? {
        out := Abort(error.value);
        return;
      }
      return QUIET;
    }

    method OnChannelFin() returns (out: ReceiverOut)
      requires Valid()
      modifies this
      ensures Valid() && forall announced :: (View(), out) == TakeStep(old(View()), Fin, announced)
    {
      if !attached || done {
        return QUIET;
      }
      if rx == null {
        out := Abort(NothingCame);
        return;
      }
      Verify();
      return QUIET;
    }

    method OnChannelArrived()
      requires Valid()
      modifies this
      ensures Valid() && (View(), QUIET) == ReceiverStep(old(View()), ChannelArrives)
    {
      if rtc {
        attached := true;
        if path != Relay {
          iceTimer := false;
          path := P2P;
        }
      }
    }

    method OnAnswered()
      requires Valid()
      modifies this
      ensures Valid() && (View(), QUIET) == ReceiverStep(old(View()), Answered)
    {
      if rtc {
        iceTimer := true;
      }
    }

    /** No direct connection: let WebRTC go, but wait for the relay rather than fail. */
    method OnIceTimeout(channelOpen: bool) returns (out: ReceiverOut)
      requires Valid()
      modifies this
      ensures Valid() && (View(), out) == ReceiverStep(old(View()), ReceiverIceTimeout(channelOpen))
    {
      if !iceTimer {
        return QUIET;
      }
      iceTimer := false;
      if path != Undecided || rx != null || (attached && channelOpen) {
        return QUIET;
      }
      CloseRtc();
      return ReceiverOut([], true);
    }

    method OnChannelDropped() returns (out: ReceiverOut)
      requires Valid()
      modifies this
      ensures Valid() && (View(), out) == ReceiverStep(old(View()), ChannelDrops)
    {
      out := QUIET;
      if attached && path == P2P {
        out := Abort(Dropped);
      }
    }

    /** The digest came back: store the file or say that it is broken. */
    method OnDigest() returns (out: ReceiverOut)
      requires Valid()
      modifies this
      ensures Valid() && (View(), out) == ReceiverStep(old(View()), DigestDone)
    {
      if verifying.None? {
        return QUIET;
      }
      var outcome := verifying.value;
      verifying := None;
      if outcome.Whole? {
        Finish(Saved(outcome.bytes));
        return ReceiverOut([FileOk], true);
      }
      Finish(Lost(BadFile(outcome)));
      return ReceiverOut([ReceiverError], true);
    }

    method OnIdle() returns (out: ReceiverOut)
      requires Valid()
      modifies this
      ensures Valid() && (View(), out) == ReceiverStep(old(View()), Idle)
    {
      out := QUIET;
      if live && !done {
        out := Abort(Stalled);
      }
    }

    method OnDeadline() returns (out: ReceiverOut)
      requires Valid()
      modifies this
      ensures Valid() && (View(), out) == ReceiverStep(old(View()), DeadlinePasses)
    {
      if !deadline {
        return QUIET;
      }
      Finish(Lost(NoAnswer));
      return ReceiverOut([ReceiverCancel], true);
    }

    method Cancel() returns (out: ReceiverOut)
      requires Valid()
      modifies this
      ensures Valid() && (View(), out) == ReceiverStep(old(View()), CancelReceive)
    {
      if !live {
        return QUIET;
      }
      Finish(Withdrawn);
      return ReceiverOut([ReceiverCancel], true);
    }
  }
}
