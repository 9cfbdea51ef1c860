/**
 What an attempt that nothing hurts comes to: src/files/transfer.js, from the same two
 machines as `Transfer`.

 Safety says what may not happen. Here is what must: a stored file is reported to the
 holder, a report that reached it is what it tells its user, and an attempt whose frames
 all arrive and which nobody gives up has the file stored and confirmed by the time
 neither side has anything left to do, whichever path won.
 */
module Delivery {
  import opened Options
  import opened Crc32
  import opened Chunks
  import opened Transfer

  // ------------------------------------------------------------------
  // The receiver's word.
  // ------------------------------------------------------------------

  predicate Told(back: seq<BackFrame>) {
    exists j :: 0 <= j < |back| && back[j].FileOk?
  }

  /** What a step of the requester reports, and how it can end. */
  ghost predicate Reports(r: Receiver, z: Receiver, out: ReceiverOut) {
    && (z.result.Saved? ==> r.result.Saved? || (out.back == [FileOk] && r.verifying.Some?))
    && (out.back == [] || out.back == [FileOk] || z.result.Lost? || z.result.Withdrawn?)
  }

  lemma HearReports(r: Receiver, frame: RelayFrame, announced: Option<nat>)
    requires ReceiverOk(r)
    ensures Reports(r, HearStep(r, frame, announced).0, HearStep(r, frame, announced).1)
  {
    hide ChunkCount, WellFormed, TakeChunk, FinishResult, StartRx, PlanAccepted;
    if frame.FileChunk? {
      TakeReports(OnRelay(r), frame.chunk);
    }
  }

  lemma TakeReports(r: Receiver, m: Message)
    requires ReceiverOk(r)
    ensures TakeChunk(r, m).0.result == r.result
  {
    hide ChunkCount, WellFormed, Judge, AfterAccept, FinishResult, StartRx;
  }

  lemma ChannelReports(r: Receiver, message: ChannelMessage, announced: Option<nat>)
    requires ReceiverOk(r)
    ensures Reports(r, TakeStep(r, message, announced).0, TakeStep(r, message, announced).1)
  {
    hide ChunkCount, WellFormed, TakeChunk, FinishResult, StartRx, PlanAccepted;
    if message.Data? { TakeReports(r, message.chunk); }
  }

  lemma StepReports(r: Receiver, e: ReceiverEvent)
    requires ReceiverOk(r)
    ensures Reports(r, ReceiverStep(r, e).0, ReceiverStep(r, e).1)
  {
    hide HearStep, TakeStep, WellFormed;
    match e {
      case Hear(frame, announced) => HearReports(r, frame, announced);
      case Take(message, announced) => ChannelReports(r, message, announced);
      case _ =>
    }
  }

  /** A stored file has been reported. */
  lemma {:induction false} SavedIsTold(a: Attempt, events: seq<Event>)
    requires Legal(a)
    ensures Run(a, events).r.result.Saved? ==> Told(Run(a, events).back)
    decreases |events|
  {
    hide Next, ReceiverOk;
    if events != [] {
      var n := |events| - 1;
      SavedIsTold(a, events[..n]);
      NextOk(a, Run(a, events[..n]), events[n]);
      NextTells(a, Run(a, events[..n]), events[n]);
    }
  }

  lemma NextTells(a: Attempt, y: System, e: Event)
    requires Legal(a) && ReceiverOk(y.r) && (y.r.result.Saved? ==> Told(y.back))
    ensures Next(a, y, e).r.result.Saved? ==> Told(Next(a, y, e).back)
  {
    hide ReceiverStep, SenderStep, ReceiverOk, Told;
    match e {
      case AtReceiver(re) => ReceiverTells(y, re);
      case DeliverRelay(i) =>
        if i < |y.relay| { ReceiverTells(Bumped(y, i), Hear(y.relay[i], Some(|a.file|))); }
      case DeliverDirect =>
        if y.directSeen < |y.direct| { ReceiverTells(Advanced(y), Take(y.direct[y.directSeen], Some(|a.file|))); }
      case _ =>
    }
  }

  lemma ReceiverTells(y: System, e: ReceiverEvent)
    requires ReceiverOk(y.r) && (y.r.result.Saved? ==> Told(y.back))
    ensures AfterReceiver(y, e).r.result.Saved? ==> Told(AfterReceiver(y, e).back)
  {
    hide ReceiverStep, ReceiverOk;
    StepReports(y.r, e);
    var z := AfterReceiver(y, e);
    if z.r.result.Saved? {
      if y.r.result.Saved? {
        var j :| 0 <= j < |y.back| && y.back[j].FileOk?;
        assert z.back[j].FileOk?;
      } else {
        assert z.back[|y.back|].FileOk?;
      }
    }
  }

  /** The word is in, and "not confirmed" will not be said. */
  predicate Believes(s: Sender) {
    s.confirmed && !s.report.SentUnconfirmed? && (s.done ==> !s.report.NoReport?)
  }

  lemma StepBelieves(a: Attempt, s: Sender, e: SenderEvent)
    requires a.relayChunk > 0 && a.directChunk > 0 && Believes(s)
    ensures Believes(SenderStep(a, s, e).0)
  {
    hide ChunkCount, Cut, PlanFor;
  }

  lemma NextBelieves(a: Attempt, y: System, e: Event)
    requires Legal(a) && ReceiverOk(y.r) && Believes(y.s)
    ensures Believes(Next(a, y, e).s)
  {
    hide ReceiverStep, SenderStep, ReceiverOk, Believes;
    match e {
      case AtSender(se) => StepBelieves(a, y.s, se);
      case DeliverBack(j) => if j < |y.back| { StepBelieves(a, y.s, HearBack(y.back[j])); }
      case _ =>
    }
  }

  lemma {:induction false} RunBelieves(a: Attempt, events: seq<Event>, more: seq<Event>)
    requires Legal(a) && Believes(Run(a, events).s)
    ensures Believes(Run(a, events + more).s)
    decreases |more|
  {
    hide Run, Believes, Next;
    if more == [] {
      assert events + more == events;
    } else {
      var n := |more| - 1;
      RunBelieves(a, events, more[..n]);
      assert events + more == (events + more[..n]) + [more[n]];
      Unfold(a, events + more[..n], more[n]);
      NextBelieves(a, Run(a, events + more[..n]), more[n]);
    }
  }

  /**
   Once the receiver's word has reached a holder that is still at it, however early, "not
   confirmed" is never said: it is "sent" if it says anything but that it failed or was
   cancelled, and a holder that waits says so at its next settling.
   */
  lemma {:induction false} HeardIsConfirmed(a: Attempt, events: seq<Event>, j: nat, more: seq<Event>)
    requires Legal(a) && !Run(a, events).s.done
    requires j < |Run(a, events).back| && j <= Run(a, events).backSeen && Run(a, events).back[j].FileOk?
    ensures var z := Run(a, events + [DeliverBack(j)] + more);
            && z.s.report != SentUnconfirmed
            && (z.s.done ==> z.s.report in {SentConfirmed, SendFailed, SendCancelled})
            && (z.s.waiting && !z.s.done ==>
                  && Next(a, z, AtSender(ReceiptSettles(false))) == z
                  && Next(a, z, AtSender(ReceiptSettles(true))).s.report == SentConfirmed)
  {
    hide Run, SenderInv, ReceiverInv, AgreementInv, LossInv, ChunkCount, Cut, PlanFor, ReceiverOk;
    RunSpeaks(a, events);
    Unfold(a, events, DeliverBack(j));
    RunBelieves(a, events + [DeliverBack(j)], more);
  }

  /** A holder says something exactly when it is done. */
  lemma StepSpeaks(a: Attempt, s: Sender, e: SenderEvent)
    requires a.relayChunk > 0 && a.directChunk > 0 && (s.done <==> s.report != NoReport)
    ensures SenderStep(a, s, e).0.done <==> SenderStep(a, s, e).0.report != NoReport
  {
    hide ChunkCount, Cut, PlanFor;
  }

  lemma {:induction false} RunSpeaks(a: Attempt, events: seq<Event>)
    requires Legal(a)
    ensures Run(a, events).s.done <==> Run(a, events).s.report != NoReport
    decreases |events|
  {
    hide ReceiverStep, SenderStep, ReceiverOk;
    if events != [] {
      var y := Run(a, events[..|events| - 1]);
      RunSpeaks(a, events[..|events| - 1]);
      match events[|events| - 1] {
        case AtSender(se) => StepSpeaks(a, y.s, se);
        case DeliverBack(j) => if j < |y.back| { StepSpeaks(a, y.s, HearBack(y.back[j])); }
        case _ =>
      }
    }
  }

  /**
   End to end: the receiver has stored the file, its word reaches the holder in time, and
   the holder ends without failing or being cancelled. Then it says "sent", and it is true.
   */
  lemma {:induction false} SavedIsConfirmed(a: Attempt, events: seq<Event>, more: seq<Event>)
    requires Legal(a) && Run(a, events).r.result.Saved? && !Run(a, events).s.done
    ensures exists j :: 0 <= j < |Run(a, events).back| && Run(a, events).back[j].FileOk?
    ensures forall j: nat :: j < |Run(a, events).back| && Run(a, events).back[j].FileOk? && j <= Run(a, events).backSeen ==>
      var z := Run(a, events + [DeliverBack(j)] + more);
      z.s.done && z.s.report != SendFailed && z.s.report != SendCancelled ==>
        z.s.report == SentConfirmed && z.r.result == Saved(a.file)
  {
    hide Run;
    SavedIsTold(a, events);
    forall j: nat | j < |Run(a, events).back| && Run(a, events).back[j].FileOk? && j <= Run(a, events).backSeen
      ensures var z := Run(a, events + [DeliverBack(j)] + more);
              z.s.done && z.s.report != SendFailed && z.s.report != SendCancelled ==>
                z.s.report == SentConfirmed && z.r.result == Saved(a.file)
    {
      HeardIsConfirmed(a, events, j, more);
      AttemptIsSafe(a, events + [DeliverBack(j)] + more);
    }
  }

  // ------------------------------------------------------------------
  // An attempt that nothing hurts.
  // ------------------------------------------------------------------

  /**
   What can end an attempt or cost it a frame: a loss, a send that is not accepted, a
   channel that stalls or closes under a file, a timer that gives up, a cancel. The
   requester's race timer hurts only once the holder has chosen the channel.
   */
  predicate Hurts(y: System, e: Event) {
    match e
    case AtSender(se) =>
      se == RelayTurn(false) || se == ReceiptSettles(false) || se.ChannelStalls? || se.ChannelCloses?
      || se.FileGone? || se.CancelSend?
    case AtReceiver(re) =>
      re.ChannelDrops? || re.Idle? || re.DeadlinePasses? || re.CancelReceive?
      || (re.ReceiverIceTimeout? && y.s.path.P2P?)
    case LoseRelay => true
    case LoseBack => true
    case _ => false
  }

  ghost predicate HolderWell(y: System) {
    && y.s.report in {NoReport, SentConfirmed}
    && (y.s.done <==> y.s.report.SentConfirmed?)
    && (forall i :: 0 <= i < |y.relay| ==> !y.relay[i].SenderError? && !y.relay[i].SenderCancel?)
    && (y.s.path.Relay? && y.s.waiting ==> exists i :: 0 <= i < |y.relay| && y.relay[i].FileDone?)
    && (!y.s.done ==> forall j :: 0 <= j < y.backSeen && j < |y.back| && y.back[j].FileOk? ==> y.s.confirmed)
  }

  ghost predicate RequesterWell(a: Attempt, y: System)
    requires Legal(a)
  {
    && y.missed == {}
    && (y.r.result.Saved? || y.r.result.NoResult?)
    && (forall j :: 0 <= j < |y.back| ==> y.back[j].FileOk?)
    && (y.r.result.Saved? ==> Told(y.back))
    && (y.s.path.Undecided? ==> !y.r.done)
    && (y.s.path.P2P? && y.r.done ==> y.directSeen > ChunkCount(|a.file|, a.directChunk))
  }

  ghost predicate ChannelWell(y: System) {
    && (y.channel.Open? ==> y.r.rtc && y.s.rtc)
    && (y.s.path.P2P? && !y.s.done && y.r.live ==> y.channel.Open?)
  }

  ghost predicate Well(a: Attempt, y: System)
    requires Legal(a)
  {
    HolderWell(y) && RequesterWell(a, y) && ChannelWell(y)
  }

  lemma StartWell(a: Attempt)
    requires Legal(a)
    ensures Well(a, Start(a))
  {
    hide ChunkCount;
  }

  // ---- the holder's steps

  /** A channel that is closed under the holder has delivered everything first. */
  lemma ClosedWhenAllSent(a: Attempt, y: System)
    requires Legal(a) && Inv(a, y) && Well(a, y) && y.s.path.P2P? && !y.s.done && !y.channel.Open?
    ensures y.s.next == ChunkCount(|a.file|, a.directChunk)
  {
    hide ChunkCount, Cut, PlanFor, AgreementInv, LossInv, RxFollows, ReceiverOk, NoChunkCame;
  }

  lemma HolderStays(a: Attempt, y: System, e: SenderEvent)
    requires Legal(a) && Inv(a, y) && Well(a, y) && !Hurts(y, AtSender(e)) && !e.HearBack?
    requires e.ChannelOpens? ==> y.channel.Open?
    requires e.ChannelTurn? ==> e.open == y.channel.Open?
    ensures HolderWell(AfterSender(a, y, e))
  {
    hide ChunkCount, Cut, PlanFor, ReceiverInv, AgreementInv, LossInv, RelayStream, DirectStream, RelayIdle, RequesterWell, ChannelWell;
    if e.ChannelTurn? && y.s.path.P2P? && !y.s.done && !e.open { ClosedWhenAllSent(a, y); }
    var z := AfterSender(a, y, e);
    RelayGrows(a, y, e);
    if z.s.path.Relay? && z.s.waiting {
      if y.s.path.Relay? && y.s.waiting {
        var i :| 0 <= i < |y.relay| && y.relay[i].FileDone?;
        assert z.relay[i].FileDone?;
      } else {
        assert z.relay[|y.relay|].FileDone?;
      }
    }
  }

  lemma SenderKeepsRest(a: Attempt, y: System, e: SenderEvent)
    requires Legal(a) && Inv(a, y) && Well(a, y) && !Hurts(y, AtSender(e))
    requires e.ChannelOpens? ==> y.channel.Open?
    requires HolderWell(AfterSender(a, y, e))
    ensures RequesterWell(a, AfterSender(a, y, e)) && ChannelWell(AfterSender(a, y, e))
  {
    hide ChunkCount, Cut, PlanFor, ReceiverInv, AgreementInv, LossInv, RelayStream, DirectStream, RelayIdle, Told;
  }

  lemma HolderHears(a: Attempt, y: System, j: nat)
    requires Legal(a) && Inv(a, y) && Well(a, y) && j < |y.back| && j <= y.backSeen
    ensures Well(a, AfterSender(a, BackBumped(y, j), HearBack(y.back[j])))
  {
    hide ChunkCount, Cut, PlanFor, ReceiverInv, AgreementInv, LossInv, RelayStream, DirectStream, RelayIdle, Told;
    assert y.back[j].FileOk?;
    var z := AfterSender(a, BackBumped(y, j), HearBack(y.back[j]));
    if z.s.path.Relay? && z.s.waiting {
      var i :| 0 <= i < |y.relay| && y.relay[i].FileDone?;
      assert z.relay[i].FileDone?;
    }
  }

  // ---- the requester's steps

  /** How a step of the requester ends it, if it does. */
  ghost predicate EndsBy(e: ReceiverEvent, r: Receiver, z: Receiver) {
    z.result == r.result || z.result.Saved?
    || (z.result.Lost? && z.result.why !in {Dropped, Stalled, NoAnswer, PeerFailed})
    || (e.Hear? && (e.frame.SenderError? || e.frame.SenderCancel?))
  }

  lemma HearEnds(r: Receiver, frame: RelayFrame, announced: Option<nat>)
    requires ReceiverOk(r)
    ensures EndsBy(Hear(frame, announced), r, HearStep(r, frame, announced).0)
  {
    hide ChunkCount, WellFormed, TakeChunk, FinishResult, StartRx, PlanAccepted;
    if frame.FileChunk? {
      TakeReports(OnRelay(r), frame.chunk);
      RefusedBy(OnRelay(r), frame.chunk);
    }
  }

  lemma RefusedBy(r: Receiver, m: Message)
    requires ReceiverOk(r)
    ensures var why := TakeChunk(r, m).1; why.Some? ==> why.value.NoHeader? || why.value.ChunkRefused?
  {
    hide ChunkCount, WellFormed, Judge, AfterAccept, FinishResult, StartRx;
  }

  lemma TakeEnds(r: Receiver, message: ChannelMessage, announced: Option<nat>)
    requires ReceiverOk(r)
    ensures EndsBy(Take(message, announced), r, TakeStep(r, message, announced).0)
  {
    hide ChunkCount, WellFormed, TakeChunk, FinishResult, StartRx, PlanAccepted;
    if message.Data? {
      TakeReports(r, message.chunk);
      RefusedBy(r, message.chunk);
    }
  }

  lemma StepEnds(y: System, e: ReceiverEvent)
    requires ReceiverOk(y.r) && !Hurts(y, AtReceiver(e))
    ensures EndsBy(e, y.r, ReceiverStep(y.r, e).0)
  {
    hide HearStep, TakeStep, WellFormed;
    match e {
      case Hear(frame, announced) => HearEnds(y.r, frame, announced);
      case Take(message, announced) => TakeEnds(y.r, message, announced);
      case _ =>
    }
  }

  /** So an unhurt one ends by storing the file, and says nothing else. */
  lemma RequesterEnds(a: Attempt, y: System, e: ReceiverEvent)
    requires Legal(a) && ReceiverOk(y.r) && RequesterWell(a, y) && !Hurts(y, AtReceiver(e))
    requires e.Hear? ==> !e.frame.SenderError? && !e.frame.SenderCancel?
    requires Inv(a, AfterReceiver(y, e))
    ensures var z := AfterReceiver(y, e);
            && (z.r.result.Saved? || z.r.result.NoResult?)
            && (forall j :: 0 <= j < |z.back| ==> z.back[j].FileOk?)
            && (z.r.result.Saved? ==> Told(z.back))
  {
    hide ReceiverStep, SenderInv, ReceiverInv, AgreementInv, EndHeard, ReceiverOk, Told, ChunkCount;
    StepEnds(y, e);
    StepReports(y.r, e);
    ReceiverTells(y, e);
    var z := AfterReceiver(y, e);
    assert z.r.result.Lost? ==> Excused(z, z.r.result.why);
  }

  /** A closed channel is let go of, and the other way round. */
  ghost predicate LetsGo(e: ReceiverEvent, r: Receiver, z: Receiver, out: ReceiverOut) {
    && (r.rtc && !z.rtc ==> out.closes)
    && (out.closes ==> !z.live || e.ReceiverIceTimeout? || (e.Hear? && e.frame.FileChunk?))
    && (z.live ==> r.live)
  }

  lemma StepLetsGo(r: Receiver, e: ReceiverEvent)
    requires ReceiverOk(r)
    ensures LetsGo(e, r, ReceiverStep(r, e).0, ReceiverStep(r, e).1)
  {
    hide HearStep, TakeStep, WellFormed;
    match e {
      case Hear(frame, announced) => HearLetsGo(r, frame, announced);
      case Take(message, announced) => TakeLetsGo(r, message, announced);
      case _ =>
    }
  }

  lemma ChunkKeepsLine(r: Receiver, m: Message)
    requires ReceiverOk(r)
    ensures var z := TakeChunk(r, m).0; z.rtc == r.rtc && z.live == r.live
  {
    hide ChunkCount, WellFormed, Judge, AfterAccept, FinishResult, StartRx;
  }

  lemma HearLetsGo(r: Receiver, frame: RelayFrame, announced: Option<nat>)
    requires ReceiverOk(r)
    ensures LetsGo(Hear(frame, announced), r, HearStep(r, frame, announced).0, HearStep(r, frame, announced).1)
  {
    hide ChunkCount, WellFormed, TakeChunk, FinishResult, StartRx, PlanAccepted;
    if frame.FileChunk? { ChunkKeepsLine(OnRelay(r), frame.chunk); }
  }

  lemma TakeLetsGo(r: Receiver, message: ChannelMessage, announced: Option<nat>)
    requires ReceiverOk(r)
    ensures LetsGo(Take(message, announced), r, TakeStep(r, message, announced).0, TakeStep(r, message, announced).1)
  {
    hide ChunkCount, WellFormed, TakeChunk, FinishResult, StartRx, PlanAccepted;
    if message.Data? { ChunkKeepsLine(r, message.chunk); }
  }

  lemma RequesterKeepsChannel(a: Attempt, y: System, e: ReceiverEvent)
    requires Legal(a) && ReceiverOk(y.r) && ChannelWell(y) && !Hurts(y, AtReceiver(e))
    requires e.Hear? && e.frame.FileChunk? ==> y.s.path.Relay?
    ensures ChannelWell(AfterReceiver(y, e))
  {
    hide ReceiverStep, ReceiverOk;
    StepLetsGo(y.r, e);
  }

  /** Setting up the transfer finishes nothing. */
  lemma SetupFinishesNothing(r: Receiver, e: ReceiverEvent)
    requires ReceiverOk(r) && !r.done && r.verifying.None?
    requires (e.Hear? && (e.frame.FileAccept? || e.frame.RtcOffer?)) || e.Answered? || e.ChannelArrives? || e.ReceiverIceTimeout? || e.DigestDone?
    ensures var z := ReceiverStep(r, e).0; z.done ==> z.result.Lost?
  {
    hide PlanAccepted, WellFormed;
  }

  /** Whoever is done over the channel has had every chunk of it. */
  ghost predicate DoneInTime(a: Attempt, y: System)
    requires Legal(a)
  {
    && (y.s.path.Undecided? ==> !y.r.done)
    && (y.s.path.P2P? && y.r.done ==> y.directSeen > ChunkCount(|a.file|, a.directChunk))
  }

  lemma LocalInTime(a: Attempt, y: System, e: ReceiverEvent)
    requires Legal(a) && Inv(a, y) && DoneInTime(a, y) && !Hurts(y, AtReceiver(e)) && !e.Hear? && !e.Take?
    requires !AfterReceiver(y, e).r.result.Lost?
    ensures DoneInTime(a, AfterReceiver(y, e))
  {
    hide ReceiverStep, SenderInv, AgreementInv, LossInv, RxFollows, ReceiverOk, NoChunkCame, ChunkCount;
    if !y.r.done { SetupFinishesNothing(y.r, e); }
  }

  lemma HearInTime(a: Attempt, y: System, i: nat)
    requires Legal(a) && Inv(a, y) && DoneInTime(a, y) && i < |y.relay| && i <= y.relaySeen
    requires !y.relay[i].SenderError? && !y.relay[i].SenderCancel?
    requires !AfterReceiver(Bumped(y, i), Hear(y.relay[i], Some(|a.file|))).r.result.Lost?
    ensures DoneInTime(a, AfterReceiver(Bumped(y, i), Hear(y.relay[i], Some(|a.file|))))
  {
    hide ReceiverStep, SenderInv, AgreementInv, LossInv, RxFollows, ReceiverOk, NoChunkCame, ChunkCount;
    RelayPlaces(a, y, i);
    if !y.r.done && (y.relay[i].FileAccept? || y.relay[i].RtcOffer?) {
      SetupFinishesNothing(y.r, Hear(y.relay[i], Some(|a.file|)));
    }
  }

  lemma TakeInTime(a: Attempt, y: System)
    requires Legal(a) && Inv(a, y) && DoneInTime(a, y) && y.directSeen < |y.direct| && y.r.attached
    ensures DoneInTime(a, AfterReceiver(Advanced(y), Take(y.direct[y.directSeen], Some(|a.file|))))
  {
    hide ReceiverStep, SenderInv, AgreementInv, LossInv, RxFollows, ReceiverOk, NoChunkCame, ChunkCount, Cut, PlanFor;
    DirectPlaces(a, y, y.directSeen);
    if !y.r.done {
      match y.direct[y.directSeen] {
        case Header(_) => HeaderInTime(a, y);
        case Data(_) => DataInTime(a, y);
        case Fin =>
      }
    }
  }

  lemma HeaderInTime(a: Attempt, y: System)
    requires Legal(a) && Inv(a, y) && y.directSeen < |y.direct| && y.r.attached && !y.r.done && y.direct[y.directSeen].Header?
    ensures AfterReceiver(Advanced(y), Take(y.direct[y.directSeen], Some(|a.file|))).r.done ==>
              y.directSeen + 1 > ChunkCount(|a.file|, a.directChunk)
  {
    hide ChunkCount, Matches, WellFormed, FinishResult, SenderInv, AgreementInv, LossInv, StartRx, PlanFor, PlanAccepted, RxFollows, NoChunkCame;
    DirectPlaces(a, y, y.directSeen);
    PlanForShape(a.file, a.directChunk);
    HonestPlan(a, a.directChunk);
    FreshFollows(a.file, a.directChunk);
  }

  lemma DataInTime(a: Attempt, y: System)
    requires Legal(a) && Inv(a, y) && y.directSeen < |y.direct| && y.r.attached && !y.r.done && y.direct[y.directSeen].Data?
    ensures AfterReceiver(Advanced(y), Take(y.direct[y.directSeen], Some(|a.file|))).r.done ==>
              y.directSeen + 1 > ChunkCount(|a.file|, a.directChunk)
  {
    hide ChunkCount, Matches, WellFormed, FinishResult, SenderInv, AgreementInv, LossInv, TakeChunk, Cut, PlanFor, NoChunkCame;
    DirectPlaces(a, y, y.directSeen);
    var x := RxOf(y.r);
    MatchesMeans(x, a.file);
    TakeOwnChunk(y.r, a.file, y.directSeen - 1);
    var x2 := AfterAccept(x, Cut(a.file, a.directChunk, y.directSeen - 1));
    MatchesMeans(x2, a.file);
    assert y.directSeen < x.total ==> x2.have[y.directSeen] == x.have[y.directSeen];
  }

  // ---- every step

  lemma RequesterStays(a: Attempt, y: System, x: System, e: ReceiverEvent)
    requires Legal(a) && Inv(a, y) && Well(a, y) && !Hurts(y, AtReceiver(e))
    requires x == y.(relaySeen := x.relaySeen, directSeen := x.directSeen) && x.directSeen >= y.directSeen
    requires e.Hear? ==> !e.frame.SenderError? && !e.frame.SenderCancel? && (e.frame.FileChunk? ==> y.s.path.Relay?)
    requires ReceiverOk(x.r) && Inv(a, AfterReceiver(x, e))
    requires !AfterReceiver(x, e).r.result.Lost? ==> DoneInTime(a, AfterReceiver(x, e))
    ensures Well(a, AfterReceiver(x, e))
  {
    hide ReceiverStep, Inv, ReceiverOk, ChunkCount, Told, ChannelWell, HolderWell;
    RequesterEnds(a, x, e);
    assert ChannelWell(x) by { ChannelFrame(y, x); }
    RequesterKeepsChannel(a, x, e);
    HolderFrame(a, y, AfterReceiver(x, e));
  }

  lemma ChannelFrame(y: System, x: System)
    requires ChannelWell(y) && x == y.(relaySeen := x.relaySeen, directSeen := x.directSeen)
    ensures ChannelWell(x)
  {
  }

  lemma HolderFrame(a: Attempt, y: System, z: System)
    requires Legal(a) && Inv(a, y) && HolderWell(y) && z.s == y.s && z.relay == y.relay && z.backSeen == y.backSeen
    requires |z.back| >= |y.back| && forall j :: 0 <= j < |y.back| ==> z.back[j] == y.back[j]
    ensures HolderWell(z)
  {
    hide ReceiverInv, AgreementInv, LossInv, RelayStream, DirectStream, RelayIdle;
  }

  lemma HearStays(a: Attempt, y: System, i: nat)
    requires Legal(a) && Inv(a, y) && Well(a, y) && i < |y.relay| && i <= y.relaySeen && i !in y.missed
    ensures Well(a, Next(a, y, DeliverRelay(i)))
  {
    hide Inv, ReceiverOk, HearStep, AfterReceiver, RequesterWell, ChannelWell;
    NextInv(a, y, DeliverRelay(i));
    InvParts(a, y);
    RelayPlaces(a, y, i);
    var e, z := Hear(y.relay[i], Some(|a.file|)), Next(a, y, DeliverRelay(i));
    assert z == AfterReceiver(Bumped(y, i), e);
    if !z.r.result.Lost? { WellInTime(a, y); HearInTime(a, y, i); }
    RequesterStays(a, y, Bumped(y, i), e);
  }

  lemma WellInTime(a: Attempt, y: System)
    requires Legal(a) && Well(a, y)
    ensures DoneInTime(a, y)
  {
  }

  lemma InvParts(a: Attempt, y: System)
    requires Legal(a) && Inv(a, y)
    ensures SenderInv(a, y) && ReceiverOk(y.r)
  {
    hide SenderInv;
  }

  lemma TakeStays(a: Attempt, y: System)
    requires Legal(a) && Inv(a, y) && Well(a, y)
    ensures Well(a, Next(a, y, DeliverDirect))
  {
    hide Inv, ReceiverOk, TakeStep, AfterReceiver, RequesterWell, ChannelWell, HolderWell;
    if y.channel.Open? && y.r.attached && y.directSeen < |y.direct| {
      NextInv(a, y, DeliverDirect);
      InvParts(a, y);
      var e, z := Take(y.direct[y.directSeen], Some(|a.file|)), Next(a, y, DeliverDirect);
      assert z == AfterReceiver(Advanced(y), e);
      WellInTime(a, y);
      TakeInTime(a, y);
      RequesterStays(a, y, Advanced(y), e);
    }
  }

  lemma LocalStays(a: Attempt, y: System, e: ReceiverEvent)
    requires Legal(a) && Inv(a, y) && Well(a, y) && !Hurts(y, AtReceiver(e))
    ensures Well(a, Next(a, y, AtReceiver(e)))
  {
    hide Inv, ReceiverOk, ReceiverStep, AfterReceiver, RequesterWell, ChannelWell, HolderWell;
    InvParts(a, y);
    var z := Next(a, y, AtReceiver(e));
    if !e.Hear? && !e.Take? && (e.ChannelArrives? ==> y.channel.Open?) {
      NextInv(a, y, AtReceiver(e));
      InvParts(a, y);
      assert z == AfterReceiver(y, e);
      WellInTime(a, y);
      if !z.r.result.Lost? { LocalInTime(a, y, e); }
      RequesterStays(a, y, y, e);
    }
  }

  lemma SenderStays(a: Attempt, y: System, e: SenderEvent)
    requires Legal(a) && Inv(a, y) && Well(a, y) && !Hurts(y, AtSender(e))
    ensures Well(a, Next(a, y, AtSender(e)))
  {
    hide Inv, AfterSender, RequesterWell, ChannelWell, HolderWell, ReceiverOk;
    InvParts(a, y);
    if !e.HearBack? && (e.ChannelOpens? ==> y.channel.Open?) && (e.ChannelTurn? ==> e.open == y.channel.Open?) {
      HolderStays(a, y, e);
      SenderKeepsRest(a, y, e);
    }
  }

  lemma NextWell(a: Attempt, y: System, e: Event)
    requires Legal(a) && Inv(a, y) && Well(a, y) && !Hurts(y, e)
    ensures Well(a, Next(a, y, e))
  {
    hide Inv, RequesterWell, HolderWell, AfterSender, AfterReceiver, ReceiverOk, Well;
    InvParts(a, y);
    match e {
      case AtSender(se) => SenderStays(a, y, se);
      case AtReceiver(re) => LocalStays(a, y, re);
      case Connect => ConnectStays(a, y);
      case DeliverRelay(i) => if i < |y.relay| && i <= y.relaySeen && i !in y.missed { HearStays(a, y, i); }
      case DeliverDirect => TakeStays(a, y);
      case DeliverBack(j) => if j < |y.back| && j <= y.backSeen { HolderHears(a, y, j); }
      case _ =>
    }
  }

  lemma ConnectStays(a: Attempt, y: System)
    requires Legal(a) && ReceiverOk(y.r) && Well(a, y)
    ensures Well(a, Next(a, y, Connect))
  {
    hide ReceiverOk, Told, ChunkCount;
  }

  predicate Spared(a: Attempt, events: seq<Event>)
    requires Legal(a)
  {
    forall k :: 0 <= k < |events| ==> !Hurts(Run(a, events[..k]), events[k])
  }

  lemma {:induction false} RunWell(a: Attempt, events: seq<Event>)
    requires Legal(a) && Spared(a, events)
    ensures Well(a, Run(a, events))
    decreases |events|
  {
    hide Inv, Next, Start, Well, Hurts;
    if events == [] {
      StartWell(a);
    } else {
      var n := |events| - 1;
      forall k | 0 <= k < n
        ensures !Hurts(Run(a, events[..n][..k]), events[..n][k])
      {
        assert events[..n][..k] == events[..k];
      }
      RunWell(a, events[..n]);
      RunInv(a, events[..n]);
      NextWell(a, Run(a, events[..n]), events[n]);
    }
  }

  // ------------------------------------------------------------------
  // What is left to do.
  // ------------------------------------------------------------------

  /** The steps that carry an attempt on: whichever way the race ends, both sides send, and what was sent arrives. */
  predicate CarriesOn(y: System, e: Event) {
    e in {AtSender(RaceStarts(false)), AtSender(RtcFails), AtSender(RelayTurn(true)), AtSender(ChannelTurn(y.channel.Open?)),
          AtSender(Flushed), AtSender(ReceiptSettles(true)), AtReceiver(ChannelArrives), AtReceiver(DigestDone),
          DeliverRelay(y.relaySeen), DeliverDirect, DeliverBack(y.backSeen)}
  }

  ghost predicate NothingLeft(a: Attempt, y: System)
    requires Legal(a) && ReceiverOk(y.r)
  {
    forall e :: CarriesOn(y, e) ==> Next(a, y, e) == y
  }

  lemma EverythingArrived(a: Attempt, y: System)
    requires Legal(a) && Inv(a, y) && Well(a, y) && ReceiverOk(y.r) && NothingLeft(a, y)
    ensures y.relaySeen == |y.relay| && y.backSeen == |y.back|
  {
    hide SenderStep, ReceiverStep, ReceiverInv, AgreementInv, LossInv, RelayStream, DirectStream, RelayIdle, ReceiverOk, HolderWell, ChannelWell;
    assert CarriesOn(y, DeliverRelay(y.relaySeen)) && CarriesOn(y, DeliverBack(y.backSeen));
  }

  lemma PathChosen(a: Attempt, y: System)
    requires Legal(a) && Inv(a, y) && Well(a, y) && ReceiverOk(y.r) && NothingLeft(a, y)
    ensures !y.s.path.Undecided?
  {
    hide LossInv, RelayStream, DirectStream, RelayIdle, ReceiverOk, ChannelWell, ChunkCount, Cut, PlanFor, RxFollows;
    assert CarriesOn(y, AtSender(RaceStarts(false))) && CarriesOn(y, AtSender(RtcFails));
    assert Next(a, y, AtSender(RaceStarts(false))).s == y.s && Next(a, y, AtSender(RtcFails)).s == y.s;
  }

  /** A holder with nothing left to send is done, or waits for the word. */
  lemma HolderFinished(a: Attempt, y: System)
    requires Legal(a) && Inv(a, y) && Well(a, y) && ReceiverOk(y.r) && NothingLeft(a, y)
    ensures y.s.done || (y.s.waiting && !y.s.confirmed)
    ensures y.s.path.P2P? && !y.s.done ==> y.s.queued
  {
    hide Inv, ReceiverOk, RequesterWell, ChannelWell, ChunkCount, Cut, PlanFor, Hurts, HolderWell;
    PathChosen(a, y);
    assert CarriesOn(y, AtSender(RelayTurn(true))) && CarriesOn(y, AtSender(ChannelTurn(y.channel.Open?)));
    assert CarriesOn(y, AtSender(Flushed)) && CarriesOn(y, AtSender(ReceiptSettles(true)));
    assert Next(a, y, AtSender(RelayTurn(true))).s == y.s && Next(a, y, AtSender(ChannelTurn(y.channel.Open?))).s == y.s;
    assert Next(a, y, AtSender(Flushed)).s == y.s && Next(a, y, AtSender(ReceiptSettles(true))).s == y.s;
  }

  /** Over the channel: the requester is done with collecting. */
  lemma ChannelDrained(a: Attempt, y: System)
    requires Legal(a) && Inv(a, y) && Well(a, y) && ReceiverOk(y.r) && NothingLeft(a, y) && y.s.path.P2P? && !y.s.done && y.r.live
    ensures y.directSeen == |y.direct|
  {
    hide ReceiverInv, AgreementInv, LossInv, RelayStream, DirectStream, RelayIdle, ReceiverOk, RequesterWell, HolderWell, ChunkCount, TakeStep, SenderStep;
    assert CarriesOn(y, AtReceiver(ChannelArrives)) && CarriesOn(y, DeliverDirect);
    assert Next(a, y, AtReceiver(ChannelArrives)).r == y.r;
    assert Next(a, y, DeliverDirect).directSeen == y.directSeen;
  }

  lemma CollectingOver(a: Attempt, y: System)
    requires Legal(a) && Inv(a, y) && Well(a, y) && ReceiverOk(y.r) && NothingLeft(a, y) && !y.s.done
    ensures y.r.done
  {
    hide ReceiverOk, NothingLeft, ChannelWell, ChunkCount, Cut, PlanFor, Matches, Hurts, AgreementInv;
    PathChosen(a, y);
    HolderFinished(a, y);
    EverythingArrived(a, y);
    if y.s.path.Relay? {
      var i :| 0 <= i < |y.relay| && y.relay[i].FileDone?;
      assert Came(y, i) && Closing(y.relay[i]);
    } else if y.r.live && !y.r.done {
      ChannelDrained(a, y);
      FullChannel(a, y);
    }
  }

  lemma FullChannel(a: Attempt, y: System)
    requires Legal(a) && Inv(a, y) && y.s.path.P2P? && y.s.queued && y.directSeen == |y.direct|
    ensures y.r.done
  {
    hide Cut, PlanFor, Matches, AgreementInv, LossInv, ReceiverOk;
    if !y.r.done && y.r.rx.Some? { AllDirectChunksMeanComplete(a, y, y.r.rx.value); }
  }

  /** What was collected has been checked and stored. */
  lemma CollectedIsSaved(a: Attempt, y: System)
    requires Legal(a) && Inv(a, y) && Well(a, y) && ReceiverOk(y.r) && NothingLeft(a, y) && y.r.done
    ensures y.r.result == Saved(a.file)
  {
    hide ReceiverOk, ChannelWell, HolderWell, ChunkCount, Cut, PlanFor, SenderInv, LossInv, RxFollows, NoChunkCame;
    assert CarriesOn(y, AtReceiver(DigestDone)) && Next(a, y, AtReceiver(DigestDone)).r == y.r;
  }

  lemma SavedIsHeard(a: Attempt, y: System)
    requires Legal(a) && Well(a, y) && y.r.result.Saved? && !y.s.done && y.backSeen == |y.back|
    ensures y.s.confirmed
  {
    hide ChannelWell, ChunkCount;
    var j :| 0 <= j < |y.back| && y.back[j].FileOk?;
  }

  lemma SentIsSaved(a: Attempt, y: System)
    requires Legal(a) && Inv(a, y) && Well(a, y) && y.s.done
    ensures y.r.result == Saved(a.file) && y.s.report == SentConfirmed
  {
    hide SenderInv, ReceiverInv, LossInv, RequesterWell, ChannelWell;
  }

  /** So both sides have ended, and ended well. */
  lemma NothingLeftIsDelivered(a: Attempt, y: System)
    requires Legal(a) && Inv(a, y) && Well(a, y) && ReceiverOk(y.r) && NothingLeft(a, y)
    ensures y.r.result == Saved(a.file) && y.s.report == SentConfirmed
  {
    hide ReceiverOk, Inv, Well, NothingLeft;
    if y.s.done {
      SentIsSaved(a, y);
    } else {
      CollectingOver(a, y);
      CollectedIsSaved(a, y);
      EverythingArrived(a, y);
      SavedIsHeard(a, y);
      HolderFinished(a, y);
    }
  }

  /**
   An attempt that nothing hurts: whatever the race does, whatever is repeated and in
   whatever order timers and deliveries come, when neither side has anything left to do
   the file is stored and the holder says "sent".
   */
  lemma {:induction false} UnhurtIsDelivered(a: Attempt, events: seq<Event>)
    requires Legal(a) && Spared(a, events) && NothingLeft(a, Run(a, events))
    ensures Run(a, events).r.result == Saved(a.file) && Run(a, events).s.report == SentConfirmed
  {
    hide Inv, Well, Run, Spared, NothingLeft;
    RunInv(a, events);
    RunWell(a, events);
    NothingLeftIsDelivered(a, Run(a, events));
  }

  // ------------------------------------------------------------------
  // And there is always an end to it.
  // ------------------------------------------------------------------

  /** The sends and the wait that the holder still has before it. */
  function ToSend(a: Attempt, s: Sender): int
    requires a.relayChunk > 0 && a.directChunk > 0
  {
    if s.done then 0
    else
      match s.path
      case Undecided => ChunkCount(|a.file|, a.relayChunk) + 3
      case P2P => ChunkCount(|a.file|, a.directChunk) - s.next + (if s.queued then 0 else 1) + (if s.waiting then 0 else 1) + 1
      case Relay => ChunkCount(|a.file|, a.relayChunk) - s.next + (if s.waiting then 0 else 1) + 1
  }

  function ToReceive(r: Receiver): nat {
    (if !r.live then 0 else if r.done then 3 else 4)
    + (if r.rtc && r.attached && (r.path.Relay? || (r.path.P2P? && !r.iceTimer)) then 0 else 1)
  }

  function Remaining(a: Attempt, y: System): int
    requires a.relayChunk > 0 && a.directChunk > 0
  {
    4 * ToSend(a, y.s) + 3 * (|y.relay| - y.relaySeen) + 3 * (|y.direct| - y.directSeen) + (|y.back| - y.backSeen) + ToReceive(y.r)
  }

  lemma RemainingIsNat(a: Attempt, y: System)
    requires Legal(a) && Inv(a, y)
    ensures Remaining(a, y) >= 0
  {
    hide ChunkCount, Cut, PlanFor, ReceiverInv, AgreementInv, LossInv;
  }

  lemma SendingLeft(a: Attempt, y: System)
    requires Legal(a) && Inv(a, y)
    ensures ToSend(a, y.s) >= 0 && (!y.s.done ==> ToSend(a, y.s) >= 1)
  {
    hide ChunkCount, Cut, PlanFor, ReceiverInv, AgreementInv, LossInv;
  }

  lemma SendingShrinks(a: Attempt, y: System, e: SenderEvent)
    requires Legal(a) && Inv(a, y) && Well(a, y) && CarriesOn(y, AtSender(e)) && Next(a, y, AtSender(e)) != y
    ensures Remaining(a, Next(a, y, AtSender(e))) < Remaining(a, y)
  {
    hide ChunkCount, Cut, PlanFor, ReceiverInv, AgreementInv, LossInv, ReceiverOk, RequesterWell, ChannelWell, RelayStream, DirectStream, RelayIdle, ToReceive;
    assert y.relay + [] == y.relay && y.direct + [] == y.direct;
    SendingLeft(a, y);
    if e.ChannelTurn? && y.s.path.P2P? && !y.s.done && !e.open { ClosedWhenAllSent(a, y); }
  }

  /** However a step changes the requester, it has no more before it than one step of its own. */
  lemma ReceivingGrows(r: Receiver, e: ReceiverEvent)
    requires ReceiverOk(r)
    ensures var (z, out) := ReceiverStep(r, e); (z.live ==> r.live) && (z.live && r.done ==> z.done) && ToReceive(z) <= ToReceive(r) + 1
  {
    hide ReceiverStep, WellFormed;
    StepLetsGo(r, e);
    DoneStays(r, e);
  }

  lemma ArrivingShrinks(a: Attempt, y: System, i: nat)
    requires Legal(a) && Inv(a, y) && Well(a, y) && i == y.relaySeen < |y.relay|
    ensures Remaining(a, Next(a, y, DeliverRelay(i))) < Remaining(a, y)
  {
    hide ChunkCount, Cut, PlanFor, Inv, ReceiverStep, HolderWell, ChannelWell, ToSend, ToReceive, ReceiverOk, Well;
    InvParts(a, y);
    NextWell(a, y, DeliverRelay(i));
    WellParts(a, y);
    WellParts(a, Next(a, y, DeliverRelay(i)));
    ReceivingGrows(y.r, Hear(y.relay[i], Some(|a.file|)));
    StepReports(y.r, Hear(y.relay[i], Some(|a.file|)));
  }

  lemma WellParts(a: Attempt, y: System)
    requires Legal(a) && Well(a, y)
    ensures y.missed == {} && (y.r.result.Saved? || y.r.result.NoResult?)
  {
  }

  lemma TakingShrinks(a: Attempt, y: System)
    requires Legal(a) && Inv(a, y) && Well(a, y) && Next(a, y, DeliverDirect) != y
    ensures Remaining(a, Next(a, y, DeliverDirect)) < Remaining(a, y)
  {
    hide ChunkCount, Cut, PlanFor, Inv, ReceiverStep, HolderWell, ChannelWell, ToSend, ToReceive, ReceiverOk, Well;
    InvParts(a, y);
    NextWell(a, y, DeliverDirect);
    WellParts(a, Next(a, y, DeliverDirect));
    ReceivingGrows(y.r, Take(y.direct[y.directSeen], Some(|a.file|)));
    StepReports(y.r, Take(y.direct[y.directSeen], Some(|a.file|)));
  }

  lemma SettlingShrinks(a: Attempt, y: System, e: ReceiverEvent)
    requires Legal(a) && Inv(a, y) && Well(a, y) && (e.ChannelArrives? || e.DigestDone?) && Next(a, y, AtReceiver(e)) != y
    ensures Remaining(a, Next(a, y, AtReceiver(e))) < Remaining(a, y)
  {
    hide ChunkCount, Cut, PlanFor, SenderInv, AgreementInv, LossInv, RxFollows, NoChunkCame, HolderWell, ChannelWell, ToSend;
    assert y.back + [] == y.back;
  }

  lemma HearingShrinks(a: Attempt, y: System)
    requires Legal(a) && Inv(a, y) && Well(a, y) && y.backSeen < |y.back|
    ensures Remaining(a, Next(a, y, DeliverBack(y.backSeen))) < Remaining(a, y)
  {
    hide ChunkCount, Cut, PlanFor, Inv, HolderWell, ChannelWell, ToReceive, ReceiverOk;
    InvParts(a, y);
    assert y.back[y.backSeen].FileOk?;
  }

  /** Every step that carries an attempt on leaves less to do. */
  lemma CarryingOnShrinks(a: Attempt, y: System, e: Event)
    requires Legal(a) && Inv(a, y) && Well(a, y) && CarriesOn(y, e) && Next(a, y, e) != y
    ensures Remaining(a, Next(a, y, e)) < Remaining(a, y)
  {
    hide Inv, Well, Remaining, AfterSender, AfterReceiver, ReceiverOk;
    InvParts(a, y);
    match e {
      case AtSender(se) => SendingShrinks(a, y, se);
      case AtReceiver(re) => SettlingShrinks(a, y, re);
      case DeliverRelay(i) => ArrivingShrinks(a, y, i);
      case DeliverDirect => TakingShrinks(a, y);
      case DeliverBack(_) => HearingShrinks(a, y);
      case _ =>
    }
  }

  lemma CarryingOnSpares(a: Attempt, events: seq<Event>, e: Event)
    requires Legal(a) && Spared(a, events) && CarriesOn(Run(a, events), e)
    ensures Spared(a, events + [e])
  {
    hide Run;
    forall k | 0 <= k < |events + [e]|
      ensures !Hurts(Run(a, (events + [e])[..k]), (events + [e])[k])
    {
      if k < |events| {
        assert (events + [e])[..k] == events[..k];
      } else {
        assert (events + [e])[..k] == events;
      }
    }
  }

  /**
   Nor can it fail to get there: as long as there is anything left to do, doing any of it
   leaves less, so every attempt that nothing has hurt so far can be carried on to the end.
   */
  lemma {:induction false} UnhurtCanEnd(a: Attempt, events: seq<Event>) returns (more: seq<Event>)
    requires Legal(a) && Spared(a, events)
    ensures Spared(a, events + more)
    ensures Run(a, events + more).r.result == Saved(a.file) && Run(a, events + more).s.report == SentConfirmed
    decreases Remaining(a, Run(a, events)) + 1
  {
    hide Inv, Well, Run, Spared, Next, Remaining, CarriesOn;
    RunInv(a, events);
    RunWell(a, events);
    var y := Run(a, events);
    RemainingIsNat(a, y);
    if NothingLeft(a, y) {
      UnhurtIsDelivered(a, events);
      more := [];
      assert events + more == events;
    } else {
      var e :| CarriesOn(y, e) && Next(a, y, e) != y;
      CarryingOnSpares(a, events, e);
      CarryingOnShrinks(a, y, e);
      Unfold(a, events, e);
      RunInv(a, events + [e]);
      RemainingIsNat(a, Run(a, events + [e]));
      var rest := UnhurtCanEnd(a, events + [e]);
      more := [e] + rest;
      assert events + more == events + [e] + rest;
    }
  }

  // ------------------------------------------------------------------
  // Either path can win.
  // ------------------------------------------------------------------

  lemma SparesOneMore(a: Attempt, events: seq<Event>, e: Event)
    requires Legal(a) && Spared(a, events) && !Hurts(Run(a, events), e)
    ensures Spared(a, events + [e])
  {
    hide Run, Hurts;
    forall k | 0 <= k < |events + [e]|
      ensures !Hurts(Run(a, (events + [e])[..k]), (events + [e])[k])
    {
      if k < |events| {
        assert (events + [e])[..k] == events[..k];
      } else {
        assert (events + [e])[..k] == events;
      }
    }
  }

  /** The race has been offered and taken up, and the channel is there. */
  ghost predicate Connected(a: Attempt, y: System)
    requires Legal(a)
  {
    && y.s == Start(a).s.(rtc := true, iceTimer := true) && y.channel.Open?
  }

  lemma ChannelComesUp(a: Attempt) returns (events: seq<Event>)
    requires Legal(a)
    ensures Spared(a, events) && Connected(a, Run(a, events))
  {
    hide Run, ChunkCount, PlanFor, PlanAccepted;
    HonestPlan(a, a.relayChunk);
    var e0: seq<Event> := [];
    RunOfNothing(a);
    var e1 := e0 + [AtSender(RaceStarts(true))];
    SparesOneMore(a, e0, AtSender(RaceStarts(true)));
    Unfold(a, e0, AtSender(RaceStarts(true)));
    var e2 := e1 + [AtSender(OfferReady)];
    SparesOneMore(a, e1, AtSender(OfferReady));
    Unfold(a, e1, AtSender(OfferReady));
    var e3 := e2 + [DeliverRelay(0)];
    SparesOneMore(a, e2, DeliverRelay(0));
    Unfold(a, e2, DeliverRelay(0));
    PlanForShape(a.file, a.relayChunk);
    var e4 := e3 + [DeliverRelay(1)];
    SparesOneMore(a, e3, DeliverRelay(1));
    Unfold(a, e3, DeliverRelay(1));
    events := e4 + [Connect];
    SparesOneMore(a, e4, Connect);
    Unfold(a, e4, Connect);
  }

  lemma OpensThere(a: Attempt, y: System)
    requires Legal(a) && ReceiverOk(y.r) && Connected(a, y)
    ensures Next(a, y, AtSender(ChannelOpens)).s.path.P2P? && !Hurts(y, AtSender(ChannelOpens))
  {
    hide ChunkCount, PlanFor, ReceiverOk;
  }

  lemma {:induction false} RunPathStays(a: Attempt, events: seq<Event>, more: seq<Event>)
    requires Legal(a) && !Run(a, events).s.path.Undecided?
    ensures Run(a, events + more).s.path == Run(a, events).s.path
    decreases |more|
  {
    hide Run, Next;
    if more == [] {
      assert events + more == events;
    } else {
      var n := |more| - 1;
      RunPathStays(a, events, more[..n]);
      assert events + more == (events + more[..n]) + [more[n]];
      Unfold(a, events + more[..n], more[n]);
      OnePath(a, events + more[..n], more[n]);
    }
  }

  /** For every file: there is a run in which it is delivered over the channel, and one in which it is over the relay. */
  lemma EitherPathDelivers(a: Attempt, direct: bool) returns (events: seq<Event>)
    requires Legal(a)
    ensures Spared(a, events) && Run(a, events).s.path == (if direct then P2P else Relay)
    ensures Run(a, events).r.result == Saved(a.file) && Run(a, events).s.report == SentConfirmed
  {
    hide Run, Spared, Next, Connected, ChunkCount, PlanFor;
    var chosen: seq<Event>;
    if direct {
      var start := ChannelComesUp(a);
      OpensThere(a, Run(a, start));
      SparesOneMore(a, start, AtSender(ChannelOpens));
      Unfold(a, start, AtSender(ChannelOpens));
      chosen := start + [AtSender(ChannelOpens)];
    } else {
      NothingYetSpared(a);
      RunOfNothing(a);
      SparesOneMore(a, [], AtSender(RaceStarts(false)));
      Unfold(a, [], AtSender(RaceStarts(false)));
      FallBackStep(a, Start(a));
      chosen := [] + [AtSender(RaceStarts(false))];
    }
    var more := UnhurtCanEnd(a, chosen);
    RunPathStays(a, chosen, more);
    events := chosen + more;
  }

  lemma NothingYetSpared(a: Attempt)
    requires Legal(a)
    ensures Spared(a, [])
  {
  }

  /** A race that is on has a timer, and the timer ends it on the relay. */
  ghost predicate RaceTimed(s: Sender) {
    s.rtc && s.path.Undecided? && !s.done ==> s.iceTimer
  }

  lemma StepTimed(a: Attempt, s: Sender, e: SenderEvent)
    requires a.relayChunk > 0 && a.directChunk > 0 && RaceTimed(s)
    ensures RaceTimed(SenderStep(a, s, e).0)
  {
    hide ChunkCount, Cut, PlanFor;
  }

  lemma {:induction false} RaceEnds(a: Attempt, events: seq<Event>)
    requires Legal(a)
    ensures RaceTimed(Run(a, events).s)
    ensures var y := Run(a, events);
            y.s.rtc && y.s.path.Undecided? && !y.s.done ==>
              Next(a, y, AtSender(IceTimeout)).s.path.Relay? && Next(a, y, AtSender(RtcFails)).s.path.Relay?
              && Next(a, y, AtSender(IceTimeout)).channel.Closed?
    decreases |events|
  {
    hide ReceiverStep, SenderStep, ReceiverOk;
    if events != [] {
      var y := Run(a, events[..|events| - 1]);
      RaceEnds(a, events[..|events| - 1]);
      match events[|events| - 1] {
        case AtSender(se) => StepTimed(a, y.s, se);
        case DeliverBack(j) => if j < |y.back| { StepTimed(a, y.s, HearBack(y.back[j])); }
        case _ =>
      }
    }
    var z := Run(a, events);
    if z.s.rtc && z.s.path.Undecided? && !z.s.done { TimerFallsBack(a, z); }
  }

  lemma TimerFallsBack(a: Attempt, y: System)
    requires Legal(a) && ReceiverOk(y.r) && RaceTimed(y.s) && y.s.rtc && y.s.path.Undecided? && !y.s.done
    ensures Next(a, y, AtSender(IceTimeout)).s.path.Relay? && Next(a, y, AtSender(RtcFails)).s.path.Relay?
    ensures Next(a, y, AtSender(IceTimeout)).channel.Closed?
  {
    hide ReceiverOk, ChunkCount, PlanFor;
  }

  /**
   The requester has a timer of its own from its answer on. It gives the channel up only
   while nothing has been decided, nothing has come and no open channel is there.
   */
  lemma RequesterRaceEnds(a: Attempt, y: System, channelOpen: bool)
    requires Legal(a) && ReceiverOk(y.r) && y.r.rtc
    ensures var z := Next(a, y, AtReceiver(Answered)); var u := Next(a, z, AtReceiver(ReceiverIceTimeout(channelOpen)));
            && ReceiverOk(z.r) && z.r.iceTimer && !u.r.iceTimer
            && (if y.r.path.Undecided? && y.r.rx.None? && !(y.r.attached && channelOpen)
                then !u.r.rtc && !u.channel.Open?
                else u.r == y.r.(iceTimer := false) && u.channel == y.channel)
  {
    hide WellFormed;
  }

  /** A requester that is on the relay has let WebRTC go, and no offer brings it back. */
  predicate RelayAlone(r: Receiver) {
    r.path.Relay? ==> !r.rtc && !r.attached
  }

  lemma ChunkKeepsPath(r: Receiver, m: Message)
    requires ReceiverOk(r)
    ensures var z := TakeChunk(r, m).0; z.path == r.path && z.rtc == r.rtc && z.attached == r.attached
  {
    hide ChunkCount, WellFormed, Judge, AfterAccept, FinishResult, StartRx;
  }

  lemma HearAlone(r: Receiver, frame: RelayFrame, announced: Option<nat>)
    requires ReceiverOk(r) && RelayAlone(r)
    ensures RelayAlone(HearStep(r, frame, announced).0)
  {
    hide ChunkCount, WellFormed, TakeChunk, FinishResult, StartRx, PlanAccepted;
    if frame.FileChunk? { ChunkKeepsPath(OnRelay(r), frame.chunk); }
  }

  lemma TakeAlone(r: Receiver, message: ChannelMessage, announced: Option<nat>)
    requires ReceiverOk(r) && RelayAlone(r)
    ensures RelayAlone(TakeStep(r, message, announced).0)
  {
    hide ChunkCount, WellFormed, TakeChunk, FinishResult, StartRx, PlanAccepted;
    if message.Data? { ChunkKeepsPath(r, message.chunk); }
  }

  lemma LocalAlone(r: Receiver, e: ReceiverEvent)
    requires ReceiverOk(r) && RelayAlone(r) && !e.Hear? && !e.Take?
    ensures RelayAlone(ReceiverStep(r, e).0)
  {
    hide HearStep, TakeStep, WellFormed, FinishResult, ReceiverOk;
  }

  lemma StepAlone(r: Receiver, e: ReceiverEvent)
    requires ReceiverOk(r) && RelayAlone(r)
    ensures RelayAlone(ReceiverStep(r, e).0)
  {
    hide HearStep, TakeStep, ReceiverOk, RelayAlone;
    match e {
      case Hear(frame, announced) => HearAlone(r, frame, announced);
      case Take(message, announced) => TakeAlone(r, message, announced);
      case _ => LocalAlone(r, e);
    }
  }

  lemma NextAlone(a: Attempt, y: System, e: Event)
    requires Legal(a) && ReceiverOk(y.r) && RelayAlone(y.r)
    ensures RelayAlone(Next(a, y, e).r)
  {
    hide ReceiverStep, SenderStep, ReceiverOk, RelayAlone;
    match e {
      case AtReceiver(re) => StepAlone(y.r, re);
      case DeliverRelay(i) => if i < |y.relay| { StepAlone(y.r, Hear(y.relay[i], Some(|a.file|))); }
      case DeliverDirect => if y.directSeen < |y.direct| { StepAlone(y.r, Take(y.direct[y.directSeen], Some(|a.file|))); }
      case _ =>
    }
  }

  lemma {:induction false} RelayIsAlone(a: Attempt, events: seq<Event>)
    requires Legal(a)
    ensures RelayAlone(Run(a, events).r)
    decreases |events|
  {
    hide Next, RelayAlone;
    if events == [] {
      StartIsAlone(a);
    } else {
      RelayIsAlone(a, events[..|events| - 1]);
      NextAlone(a, Run(a, events[..|events| - 1]), events[|events| - 1]);
    }
  }

  lemma StartIsAlone(a: Attempt)
    requires Legal(a)
    ensures RelayAlone(Start(a).r)
  {
  }

  // ------------------------------------------------------------------
  // Giving up.
  // ------------------------------------------------------------------

  /** What makes a holder that is not done give up. */
  predicate HolderGivesUp(a: Attempt, s: Sender, e: SenderEvent)
    requires a.relayChunk > 0 && a.directChunk > 0
  {
    && !s.done
    && match e
       case CancelSend => true
       case FileGone => !s.path.Undecided? && !s.waiting
       case ChannelStalls => s.path.P2P? && !s.waiting
       case ChannelCloses => s.path.P2P? && s.rtc && !s.queued
       case ChannelTurn(open) => s.path.P2P? && !s.queued && s.next < ChunkCount(|a.file|, a.directChunk) && !open
       case RelayTurn(accepted) => s.path.Relay? && !s.waiting && s.next < ChunkCount(|a.file|, a.relayChunk) && !accepted
       case _ => false
  }

  /** Then it says so to its user and to the other side, and lets the channel go. */
  lemma GivingUpIsSaid(a: Attempt, y: System, e: SenderEvent)
    requires Legal(a) && ReceiverOk(y.r) && HolderGivesUp(a, y.s, e)
    requires e.ChannelTurn? ==> e.open == y.channel.Open?
    ensures var z := Next(a, y, AtSender(e));
            && z.s.done && !z.s.rtc && !z.s.iceTimer && z.channel.Closed?
            && z.s.report == (if e.CancelSend? then SendCancelled else SendFailed)
            && z.relay == y.relay + [if e.CancelSend? then SenderCancel else SenderError]
  {
    hide ReceiverOk, Cut, PlanFor;
  }

  /** Nothing else makes it: a stall or a close too early or too late, and a file gone when it is all sent, change nothing. */
  lemma OtherwiseItGoesOn(a: Attempt, y: System, e: SenderEvent)
    requires Legal(a) && ReceiverOk(y.r) && !HolderGivesUp(a, y.s, e)
    requires e.CancelSend? || e.FileGone? || e.ChannelStalls? || e.ChannelCloses?
    ensures Next(a, y, AtSender(e)) == y
  {
    hide ReceiverOk, Cut, PlanFor, ChunkCount;
    assert y.relay + [] == y.relay && y.direct + [] == y.direct;
  }

  /** After the last chunk comes the end mark, if the channel is still there. */
  lemma EndMarkFollows(a: Attempt, y: System)
    requires Legal(a) && ReceiverOk(y.r) && y.s.path.P2P? && !y.s.done && !y.s.queued
    requires y.s.next == ChunkCount(|a.file|, a.directChunk)
    ensures var z := Next(a, y, AtSender(ChannelTurn(y.channel.Open?)));
            z.s.queued && z.direct == y.direct + (if y.channel.Open? then [Fin] else [])
  {
    hide ReceiverOk, Cut, PlanFor, ChunkCount;
  }

  /** And a holder that is done sends nothing more. */
  lemma DoneIsSilent(a: Attempt, y: System, e: Event)
    requires Legal(a) && Inv(a, y) && ReceiverOk(y.r) && y.s.done
    ensures Next(a, y, e).relay == y.relay && Next(a, y, e).direct == y.direct && Next(a, y, e).s.path == y.s.path
  {
    hide ReceiverStep, ReceiverOk, ReceiverInv, AgreementInv, LossInv, RelayStream, DirectStream, RelayIdle, Cut, PlanFor, ChunkCount;
  }

  /** What makes a requester give up, and what it then says. */
  predicate RequesterGivesUp(r: Receiver, e: ReceiverEvent) {
    match e
    case Idle => r.live && !r.done
    case ChannelDrops => r.attached && r.path.P2P? && !r.done
    case DeadlinePasses => r.deadline
    case CancelReceive => r.live
    case _ => false
  }

  lemma WithdrawingIsSaid(a: Attempt, y: System, e: ReceiverEvent)
    requires Legal(a) && ReceiverOk(y.r) && RequesterGivesUp(y.r, e)
    ensures var z := Next(a, y, AtReceiver(e));
            && z.r.done && !z.r.live && !z.r.rtc && !z.channel.Open?
            && z.r.result == (match e case Idle => Lost(Stalled) case ChannelDrops => Lost(Dropped) case DeadlinePasses => Lost(NoAnswer) case _ => Withdrawn)
            && z.back == y.back + [if e.Idle? || e.ChannelDrops? then ReceiverError else ReceiverCancel]
  {
    hide ReceiverOk, FinishResult;
  }

  /** Nothing else makes it: silence and a drop after everything came, or on the other path, change nothing. */
  lemma OtherwiseItWaits(a: Attempt, y: System, e: ReceiverEvent)
    requires Legal(a) && ReceiverOk(y.r) && !RequesterGivesUp(y.r, e)
    requires e.Idle? || e.ChannelDrops? || e.DeadlinePasses? || e.CancelReceive?
    ensures Next(a, y, AtReceiver(e)) == y
  {
    hide ReceiverOk, FinishResult;
    assert y.back + [] == y.back;
  }

  /** The channel's end mark: what came is checked, be it complete or not; if nothing came, or it was done, that is that. */
  lemma FinDecides(r: Receiver, announced: Option<nat>)
    requires ReceiverOk(r) && r.attached
    ensures var (z, out) := TakeStep(r, Fin, announced);
            if r.done then z == r && out == QUIET
            else if r.rx.None? then z.result == Lost(NothingCame) && !z.live && out == ReceiverOut([ReceiverError], true)
            else z.done && z.verifying == Some(FinishResult(r.rx.value)) && z.live == r.live && out == QUIET
  {
    hide WellFormed, FinishResult;
  }

  /** A word of the other side's that it has given up ends the attempt here. */
  lemma HearingItEnds(a: Attempt, y: System, i: nat)
    requires Legal(a) && ReceiverOk(y.r)
    ensures i < |y.relay| && i <= y.relaySeen && i !in y.missed && y.r.live && y.relay[i].SenderError? ==>
              Next(a, y, DeliverRelay(i)).r.result == Lost(PeerFailed) && !Next(a, y, DeliverRelay(i)).r.live
    ensures i < |y.relay| && i <= y.relaySeen && i !in y.missed && y.r.live && y.relay[i].SenderCancel? ==>
              Next(a, y, DeliverRelay(i)).r.result == Withdrawn && !Next(a, y, DeliverRelay(i)).r.live
    ensures i < |y.back| && i <= y.backSeen && !y.s.done && y.back[i].ReceiverError? ==>
              Next(a, y, DeliverBack(i)).s.report == SendFailed && Next(a, y, DeliverBack(i)).s.done
    ensures i < |y.back| && i <= y.backSeen && !y.s.done && y.back[i].ReceiverCancel? ==>
              Next(a, y, DeliverBack(i)).s.report == SendCancelled && Next(a, y, DeliverBack(i)).s.done
  {
    hide ReceiverOk, FinishResult, ChunkCount, TakeChunk;
  }

  /** A plan is taken exactly if it adds up, is small enough and is of the announced file; otherwise the attempt ends. */
  lemma PlanDecides(r: Receiver, plan: Plan, announced: Option<nat>)
    requires ReceiverOk(r) && r.live
    ensures var (z, out) := HearStep(r, FileAccept(plan), announced);
            if plan.size <= 5_242_880 && plan.chunkBytes > 0 && (announced == None || announced == Some(plan.size))
               && plan.total == ChunkCount(plan.size, plan.chunkBytes)
            then z == r.(deadline := false, meta := Some(plan)) && out == QUIET
            else z.result == Lost(BadPlan) && !z.live && out.closes
  {
    hide ReceiverOk, ChunkCount;
  }

  /** A chunk that does not fit the plan, or is hurt, ends the attempt; over the channel the holder is told. */
  lemma DamageEndsIt(r: Receiver, file: Bytes, m: Message, announced: Option<nat>)
    requires ReceiverOk(r) && r.live && !r.done && r.rx.Some? && !r.rx.value.aborted && r.rx.value.size == |file|
    requires r.rx.value.total == ChunkCount(|file|, r.rx.value.chunkBytes) && Damaged(file, r.rx.value.chunkBytes, m)
    ensures var (z, out) := HearStep(r, FileChunk(m), announced);
            z.result.Lost? && z.result.why.ChunkRefused? && !z.live && out.closes
    ensures var (z, out) := TakeStep(r, Data(m), announced);
            r.attached ==> z.result.Lost? && z.result.why.ChunkRefused? && !z.live && out == ReceiverOut([ReceiverError], true)
  {
    hide WellFormed, Damaged, ChunkCount, Judge, AfterAccept, FinishResult;
    DamageRefused(r.rx.value, file, m);
  }

  /** What a holder has come to stays. */
  lemma {:induction false} HolderEndIsFinal(a: Attempt, events: seq<Event>, more: seq<Event>)
    requires Legal(a) && Run(a, events).s.done
    ensures Run(a, events + more).s.done && Run(a, events + more).s.report == Run(a, events).s.report
    decreases |more|
  {
    hide Run, Next;
    if more == [] {
      assert events + more == events;
    } else {
      var n := |more| - 1;
      HolderEndIsFinal(a, events, more[..n]);
      assert events + more == (events + more[..n]) + [more[n]];
      Unfold(a, events + more[..n], more[n]);
      DoneStaysDone(a, Run(a, events + more[..n]), more[n]);
    }
  }

  lemma DoneStaysDone(a: Attempt, y: System, e: Event)
    requires Legal(a) && ReceiverOk(y.r) && y.s.done
    ensures Next(a, y, e).s.done && Next(a, y, e).s.report == y.s.report
  {
    hide SenderStep, ReceiverStep, ReceiverOk;
    match e {
      case AtSender(se) => DoneSender(a, y.s, se);
      case DeliverBack(j) => if j < |y.back| { DoneSender(a, y.s, HearBack(y.back[j])); }
      case _ =>
    }
  }

  lemma DoneSender(a: Attempt, s: Sender, e: SenderEvent)
    requires a.relayChunk > 0 && a.directChunk > 0 && s.done
    ensures SenderStep(a, s, e).0.done && SenderStep(a, s, e).0.report == s.report
  {
    hide ChunkCount, Cut, PlanFor;
  }

  /** It has ended, and no digest is still being computed for it. */
  ghost predicate Settled(r: Receiver) {
    !r.live && r.done && !r.rtc && !r.attached && !r.deadline && r.verifying.None?
  }

  lemma StaysSettled(r: Receiver, e: ReceiverEvent)
    requires ReceiverOk(r) && Settled(r)
    ensures Settled(ReceiverStep(r, e).0) && ReceiverStep(r, e).0.result == r.result
  {
    hide FinishResult, WellFormed, TakeChunk;
  }

  lemma SettledStep(a: Attempt, y: System, e: Event)
    requires Legal(a) && ReceiverOk(y.r) && Settled(y.r)
    ensures Settled(Next(a, y, e).r) && Next(a, y, e).r.result == y.r.result
  {
    hide SenderStep, ReceiverStep, ReceiverOk, Settled;
    match e {
      case AtReceiver(re) => StaysSettled(y.r, re);
      case DeliverRelay(i) => if i < |y.relay| { StaysSettled(y.r, Hear(y.relay[i], Some(|a.file|))); }
      case DeliverDirect => if y.directSeen < |y.direct| { StaysSettled(y.r, Take(y.direct[y.directSeen], Some(|a.file|))); }
      case _ =>
    }
  }

  lemma {:induction false} RunSettled(a: Attempt, events: seq<Event>, more: seq<Event>)
    requires Legal(a) && Settled(Run(a, events).r)
    ensures Settled(Run(a, events + more).r) && Run(a, events + more).r.result == Run(a, events).r.result
    decreases |more|
  {
    hide Run, Next, Settled;
    if more == [] {
      assert events + more == events;
    } else {
      var n := |more| - 1;
      RunSettled(a, events, more[..n]);
      assert events + more == (events + more[..n]) + [more[n]];
      Unfold(a, events + more[..n], more[n]);
      SettledStep(a, Run(a, events + more[..n]), more[n]);
    }
  }

  lemma EndedIsSettled(a: Attempt, y: System)
    requires Legal(a) && Inv(a, y) && !y.r.live
    ensures y.r.verifying.None? <==> Settled(y.r)
    ensures y.r.verifying.Some? ==> y.r.verifying.value == Whole(a.file) && !y.r.result.Saved?
  {
    hide SenderInv, AgreementInv, LossInv, RxFollows, NoChunkCame;
  }

  /**
   What an ended requester has come to stays exactly if no digest was still being computed.
   The computation is not stopped: a receive that was cancelled, or given up by the other
   side, during it is stored and reported all the same when it is done.
   */
  lemma {:induction false} EndIsFinalIffChecked(a: Attempt, events: seq<Event>)
    requires Legal(a) && !Run(a, events).r.live
    ensures Run(a, events).r.verifying.None?
       <==> forall more: seq<Event> :: Run(a, events + more).r.result == Run(a, events).r.result
    ensures Run(a, events).r.verifying.Some? ==>
      Run(a, events + [AtReceiver(DigestDone)]).r.result == Saved(a.file) && Run(a, events).r.result != Saved(a.file)
  {
    hide Run, Inv, Settled;
    RunInv(a, events);
    var y := Run(a, events);
    EndedIsSettled(a, y);
    Unfold(a, events, AtReceiver(DigestDone));
    if y.r.verifying.None? {
      forall more: seq<Event>
        ensures Run(a, events + more).r.result == y.r.result
      {
        RunSettled(a, events, more);
      }
    } else {
      ChecksAnyway(a, y);
    }
  }

  lemma ChecksAnyway(a: Attempt, y: System)
    requires Legal(a) && ReceiverOk(y.r) && y.r.verifying == Some(Whole(a.file))
    ensures Next(a, y, AtReceiver(DigestDone)).r.result == Saved(a.file)
    ensures Next(a, y, AtReceiver(DigestDone)).back == y.back + [FileOk]
  {
    hide ReceiverOk;
  }

  lemma SavedWasChecked(a: Attempt, y: System, e: Event)
    requires Legal(a) && ReceiverOk(y.r) && Next(a, y, e).r.result.Saved? && !y.r.result.Saved?
    ensures y.r.verifying.Some?
  {
    hide ReceiverStep, SenderStep, ReceiverOk;
    match e {
      case AtReceiver(re) => StepReports(y.r, re);
      case DeliverRelay(i) => if i < |y.relay| { StepReports(y.r, Hear(y.relay[i], Some(|a.file|))); }
      case DeliverDirect => if y.directSeen < |y.direct| { StepReports(y.r, Take(y.direct[y.directSeen], Some(|a.file|))); }
      case _ =>
    }
  }

  lemma {:induction false} CheckedBefore(a: Attempt, events: seq<Event>) returns (k: nat)
    requires Legal(a) && Spared(a, events) && Run(a, events).r.result.Saved?
    ensures k < |events| && Run(a, events[..k]).r.live && Run(a, events[..k]).r.verifying.Some?
    decreases |events|
  {
    hide Next, Inv, Well, Hurts;
    var n := |events| - 1;
    forall j | 0 <= j < n
      ensures !Hurts(Run(a, events[..n][..j]), events[..n][j])
    {
      assert events[..n][..j] == events[..j];
    }
    if Run(a, events[..n]).r.result.Saved? {
      k := CheckedBefore(a, events[..n]);
      assert events[..n][..k] == events[..k];
    } else {
      k := n;
      SavedWasChecked(a, Run(a, events[..n]), events[n]);
      RunInv(a, events[..n]);
      RunWell(a, events[..n]);
      WellParts(a, Run(a, events[..n]));
      LiveUntilSaved(a, Run(a, events[..n]));
    }
  }

  lemma LiveUntilSaved(a: Attempt, y: System)
    requires Legal(a) && Inv(a, y)
    ensures y.r.result.NoResult? ==> y.r.live
  {
    hide SenderInv, AgreementInv, LossInv, RxFollows, NoChunkCame;
  }

  /**
   It does happen, for every file and on either path: the requester cancels while the
   digest is being computed, says so, and has the file all the same.
   */
  lemma CancelledIsSaved(a: Attempt, direct: bool) returns (events: seq<Event>)
    requires Legal(a)
    ensures Run(a, events + [AtReceiver(CancelReceive)]).r.result == Withdrawn
    ensures Run(a, events + [AtReceiver(CancelReceive)] + [AtReceiver(DigestDone)]).r.result == Saved(a.file)
  {
    hide Run, Next, Inv, Spared;
    var whole := EitherPathDelivers(a, direct);
    var k := CheckedBefore(a, whole);
    events := whole[..k];
    RunInv(a, events);
    Unfold(a, events, AtReceiver(CancelReceive));
    Unfold(a, events + [AtReceiver(CancelReceive)], AtReceiver(DigestDone));
    CancelKeepsChecking(a, Run(a, events));
  }

  lemma CancelKeepsChecking(a: Attempt, y: System)
    requires Legal(a) && Inv(a, y) && ReceiverOk(y.r) && y.r.live && y.r.verifying.Some?
    ensures var z := Next(a, y, AtReceiver(CancelReceive));
            && ReceiverOk(z.r) && z.r.result == Withdrawn && z.back == y.back + [ReceiverCancel]
            && Next(a, z, AtReceiver(DigestDone)).r.result == Saved(a.file)
  {
    hide SenderInv, AgreementInv, LossInv, RxFollows, NoChunkCame;
  }
}
