/**
 One attempt to move one file: src/files/transfer.js, from the holder's `file-accept`
 to the end on both sides.

 Two machines race a WebRTC data channel against relay frames that carry a different
 chunk plan. The data channel is ordered and delivers once, until either side closes
 it. The relay delivers frames for the first time in order, may deliver any of them
 again at any moment, and may lose any: the fallback transport posts a batch twice and
 drops it when neither POST reported back, and a receiver that is reconnecting is not
 found. Every timer, socket callback and resumption after an `await` is one event.
 */
module Transfer {
  import opened Options
  import opened Crc32
  import opened Chunks

  const MAX_BYTES := 5 * 1024 * 1024

  datatype Path = Undecided | P2P | Relay

  datatype Plan = Plan(size: nat, chunkBytes: int, total: nat, digest: Digest)

  datatype RelayFrame =
    | FileAccept(plan: Plan)
    | RtcOffer
    | FileChunk(chunk: Message)
    | FileDone
    | SenderError
    | SenderCancel

  datatype ChannelMessage = Header(plan: Plan) | Data(chunk: Message) | Fin

  datatype BackFrame = FileOk | ReceiverError | ReceiverCancel

  // ------------------------------------------------------------------
  // The holder.
  // ------------------------------------------------------------------

  datatype Report = NoReport | SentConfirmed | SentUnconfirmed | SendFailed | SendCancelled

  datatype Sender = Sender(
    path: Path, done: bool, rtc: bool, iceTimer: bool,
    next: nat, queued: bool, waiting: bool, confirmed: bool, report: Report)

  datatype SenderEvent =
    | RaceStarts(built: bool)
    | OfferReady
    | IceTimeout
    | ChannelOpens
    | RtcFails
    | ChannelTurn(open: bool)
    | ChannelStalls
    | Flushed
    | ChannelCloses
    | RelayTurn(accepted: bool)
    | ReceiptSettles(ok: bool)
    | FileGone
    | CancelSend
    | HearBack(frame: BackFrame)

  datatype SenderOut = SenderOut(relay: seq<RelayFrame>, channel: seq<ChannelMessage>, closes: bool)

  const SILENT := SenderOut([], [], false)

  /** Both plans cut the same file; the relay's chunks are the smaller ones. */
  datatype Attempt = Attempt(file: Bytes, relayChunk: nat, directChunk: nat)

  ghost predicate Legal(a: Attempt) {
    a.relayChunk > 0 && a.directChunk > 0 && |a.file| <= MAX_BYTES
  }

  function PlanFor(file: Bytes, chunkBytes: nat): Plan
    requires chunkBytes > 0
  {
    Plan(|file|, chunkBytes, ChunkCount(|file|, chunkBytes), Digest(file))
  }

  function SenderFinish(s: Sender, report: Report): Sender {
    s.(done := true, rtc := false, iceTimer := false, waiting := false, report := report)
  }

  function SenderAbort(s: Sender): (Sender, SenderOut) {
    if s.done then (s, SILENT)
    else (SenderFinish(s, SendFailed), SenderOut([SenderError], [], true))
  }

  /** The fall to the relay, possible only while no path has been chosen. */
  function ToRelay(s: Sender): (Sender, SenderOut) {
    if s.done || !s.path.Undecided? then (s, SILENT)
    else (s.(path := Relay, rtc := false, iceTimer := false), SenderOut([], [], true))
  }

  function SenderStep(a: Attempt, s: Sender, e: SenderEvent): (Sender, SenderOut)
    requires a.relayChunk > 0 && a.directChunk > 0
  {
    match e
    case RaceStarts(built) =>
      if s.done || s.rtc || !s.path.Undecided? then (s, SILENT)
      else if built then (s.(rtc := true, iceTimer := true), SILENT)
      else ToRelay(s)
    case OfferReady =>
      if s.rtc then (s, SenderOut([RtcOffer], [], false)) else (s, SILENT)
    case IceTimeout =>
      if !s.iceTimer then (s, SILENT) else ToRelay(s.(iceTimer := false))
    case ChannelOpens =>
      if !s.rtc || !s.path.Undecided? then (s, SILENT)
      else (s.(path := P2P, iceTimer := false), SenderOut([], [Header(PlanFor(a.file, a.directChunk))], false))
    case RtcFails =>
      if !s.rtc then (s, SILENT) else ToRelay(s)
    case ChannelTurn(open) =>
      if !s.path.P2P? || s.done || s.queued then (s, SILENT)
      else if s.next < ChunkCount(|a.file|, a.directChunk) then
        if !open then SenderAbort(s)
        else (s.(next := s.next + 1), SenderOut([], [Data(Cut(a.file, a.directChunk, s.next))], false))
      else (s.(queued := true), SenderOut([], if open then [Fin] else [], false))
    case ChannelStalls =>
      if s.path.P2P? && !s.waiting then SenderAbort(s) else (s, SILENT)
    case Flushed =>
      if s.path.P2P? && s.queued && !s.done then (s.(waiting := true), SILENT) else (s, SILENT)
    case ChannelCloses =>
      if s.rtc && s.path.P2P? && !s.queued then SenderAbort(s) else (s, SILENT)
    case RelayTurn(accepted) =>
      if !s.path.Relay? || s.done || s.waiting then (s, SILENT)
      else if s.next < ChunkCount(|a.file|, a.relayChunk) then
        if !accepted then SenderAbort(s)
        else (s.(next := s.next + 1), SenderOut([FileChunk(Cut(a.file, a.relayChunk, s.next))], [], false))
      else (s.(waiting := true), SenderOut([FileDone], [], false))
    case ReceiptSettles(ok) =>
      if !s.waiting || s.done || ok != s.confirmed then (s, SILENT)
      else (SenderFinish(s, if ok then SentConfirmed else SentUnconfirmed), SenderOut([], [], true))
    case FileGone =>
      if s.path.Undecided? || s.waiting then (s, SILENT) else SenderAbort(s)
    case CancelSend =>
      if s.done then (s, SILENT) else (SenderFinish(s, SendCancelled), SenderOut([SenderCancel], [], true))
    case HearBack(frame) =>
      if s.done then (s, SILENT)
      else
        match frame
        case FileOk => (s.(confirmed := true), SILENT)
        case ReceiverError => (SenderFinish(s, SendFailed), SenderOut([], [], true))
        case ReceiverCancel => (SenderFinish(s, SendCancelled), SenderOut([], [], true))
  }

  // ------------------------------------------------------------------
  // The requester.
  // ------------------------------------------------------------------

  datatype Why =
    | BadPlan | NoHeader | ChunkRefused(outcome: Outcome) | ChunksMissing | NothingCame | BadFile(result: Finished)
    | Dropped | Stalled | NoAnswer | PeerFailed

  datatype Result = NoResult | Saved(bytes: Bytes) | Lost(why: Why) | Withdrawn

  datatype Receiver = Receiver(
    live: bool, path: Path, meta: Option<Plan>, rx: Option<Rx>, done: bool,
    rtc: bool, attached: bool, iceTimer: bool, deadline: bool,
    verifying: Option<Finished>, result: Result)

  datatype ReceiverEvent =
    | Hear(frame: RelayFrame, announced: Option<nat>)
    | Answered
    | ChannelArrives
    | Take(message: ChannelMessage, announced: Option<nat>)
    | ReceiverIceTimeout(channelOpen: bool)
    | ChannelDrops
    | DigestDone
    | Idle
    | DeadlinePasses
    | CancelReceive

  datatype ReceiverOut = ReceiverOut(back: seq<BackFrame>, closes: bool)

  const QUIET := ReceiverOut([], false)

  /** A plan is taken only if it adds up, is small enough and is of the announced file. */
  predicate PlanAccepted(p: Plan, announced: Option<nat>) {
    && p.size <= MAX_BYTES
    && p.chunkBytes > 0
    && p.total == ChunkCount(p.size, p.chunkBytes)
    && (announced.Some? ==> announced.value == p.size)
  }

  function StartRx(p: Plan): Rx
    requires p.chunkBytes > 0
  {
    Fresh(p.size, p.chunkBytes, p.total, Some(p.digest))
  }

  ghost predicate ReceiverOk(r: Receiver) {
    && (r.meta.Some? ==> r.meta.value.chunkBytes > 0)
    && (r.rx.Some? ==> WellFormed(r.rx.value))
  }

  function CloseRtc(r: Receiver): Receiver {
    r.(rtc := false, attached := false, iceTimer := false)
  }

  /** The one exit route. */
  function ReceiverFinish(r: Receiver, result: Result): Receiver {
    CloseRtc(r).(done := true, live := false, deadline := false, rx := None, result := result)
  }

  function ReceiverAbort(r: Receiver, why: Why): (Receiver, ReceiverOut) {
    if r.done then (r, QUIET)
    else (ReceiverFinish(r, Lost(why)), ReceiverOut([ReceiverError], true))
  }

  function Complete(r: Receiver): Receiver
    requires r.rx.Some?
  {
    if r.done then r else r.(done := true, verifying := Some(FinishResult(r.rx.value)))
  }

  /**
   Store one chunk. An error leaves as an exception: over the relay the caller gives up
   quietly, over the channel it also tells the holder.
   */
  function TakeChunk(r: Receiver, m: Message): (Receiver, Option<Why>)
    requires ReceiverOk(r)
  {
    if r.done then (r, None)
    else if r.rx.None? && r.meta.None? then (r, Some(NoHeader))
    else
      var rx := if r.rx.Some? then r.rx.value else StartRx(r.meta.value);
      var judged := Judge(rx, m);
      var after := AfterAccept(rx, m);
      if judged in {OutsidePlan, WrongLength, BadChecksum, OutOfBounds} then
        (r.(rx := Some(rx)), Some(ChunkRefused(judged)))
      else if after.Complete() then (Complete(r.(rx := Some(after))), None)
      else (r.(rx := Some(after)), None)
  }

  function GiveUp(r: Receiver, why: Why): (Receiver, ReceiverOut) {
    (ReceiverFinish(r, Lost(why)), ReceiverOut([], true))
  }

  function HearStep(r: Receiver, frame: RelayFrame, announced: Option<nat>): (Receiver, ReceiverOut)
    requires ReceiverOk(r)
  {
    if !r.live then (r, QUIET)
    else
      match frame
      case FileAccept(plan) =>
        if PlanAccepted(plan, announced) then (r.(deadline := false, meta := Some(plan)), QUIET)
        else GiveUp(r, BadPlan)
      case RtcOffer =>
        if r.rtc || r.path.Relay? then (r, QUIET) else (r.(rtc := true), QUIET)
      case FileChunk(m) =>
        var fell := !r.path.Relay?;
        var r1 := if fell then CloseRtc(r).(path := Relay) else r;
        var (r2, error) := TakeChunk(r1, m);
        if error.Some? then GiveUp(r2, error.value) else (r2, ReceiverOut([], fell))
      case FileDone =>
        if r.done then (r, QUIET)
        else
          var r1 := if r.rx.None? && r.meta.Some? then r.(rx := Some(StartRx(r.meta.value))) else r;
          if r1.rx.None? then ReceiverAbort(r1, NothingCame)
          else if r1.rx.value.Complete() then (Complete(r1), QUIET)
          else ReceiverAbort(r1, ChunksMissing)
      case SenderError => GiveUp(r, PeerFailed)
      case SenderCancel => (ReceiverFinish(r, Withdrawn), ReceiverOut([], true))
  }

  function TakeStep(r: Receiver, message: ChannelMessage, announced: Option<nat>): (Receiver, ReceiverOut)
    requires ReceiverOk(r)
  {
    if !r.attached then (r, QUIET)
    else
      match message
      case Header(plan) =>
        if !PlanAccepted(plan, announced) then ReceiverAbort(r, BadPlan)
        else
          var r1 := r.(meta := Some(plan), rx := Some(StartRx(plan)));
          (if StartRx(plan).Complete() then Complete(r1) else r1, QUIET)
      case Data(m) =>
        var (r1, error) := TakeChunk(r, m);
        if error.Some? then ReceiverAbort(r1, error.value) else (r1, QUIET)
      case Fin =>
        if r.done then (r, QUIET)
        else if r.rx.None? then ReceiverAbort(r, NothingCame)
        else (Complete(r), QUIET)
  }

  function ReceiverStep(r: Receiver, e: ReceiverEvent): (Receiver, ReceiverOut)
    requires ReceiverOk(r)
  {
    match e
    case Hear(frame, announced) => HearStep(r, frame, announced)
    case Answered =>
      if r.rtc then (r.(iceTimer := true), QUIET) else (r, QUIET)
    case ChannelArrives =>
      if !r.rtc then (r, QUIET)
      else if r.path.Relay? then (r.(attached := true), QUIET)
      else (r.(attached := true, path := P2P, iceTimer := false), QUIET)
    case Take(message, announced) => TakeStep(r, message, announced)
    case ReceiverIceTimeout(channelOpen) =>
      if !r.iceTimer then (r, QUIET)
      else if !r.path.Undecided? || r.rx.Some? || (r.attached && channelOpen) then (r.(iceTimer := false), QUIET)
      else (CloseRtc(r), ReceiverOut([], true))
    case ChannelDrops =>
      if r.attached && r.path.P2P? then ReceiverAbort(r, Dropped) else (r, QUIET)
    case DigestDone =>
      if r.verifying.None? then (r, QUIET)
      else
        var r1 := r.(verifying := None);
        if r.verifying.value.Whole? then
          (ReceiverFinish(r1, Saved(r.verifying.value.bytes)), ReceiverOut([FileOk], true))
        else (ReceiverFinish(r1, Lost(BadFile(r.verifying.value))), ReceiverOut([ReceiverError], true))
    case Idle => if r.live && !r.done then ReceiverAbort(r, Stalled) else (r, QUIET)
    case DeadlinePasses =>
      if r.deadline then (ReceiverFinish(r, Lost(NoAnswer)), ReceiverOut([ReceiverCancel], true)) else (r, QUIET)
    case CancelReceive =>
      if r.live then (ReceiverFinish(r, Withdrawn), ReceiverOut([ReceiverCancel], true)) else (r, QUIET)
  }

  // ------------------------------------------------------------------
  // The two of them and the wires between.
  // ------------------------------------------------------------------

  datatype Channel = NotOpen | Open | Closed

  /**
   `base` is where relay chunks begin in the relay log; it is fixed when the holder
   falls back and only the proofs read it. `missed` is the places of lost relay frames.
   */
  datatype System = System(
    s: Sender, r: Receiver, channel: Channel,
    relay: seq<RelayFrame>, relaySeen: nat, missed: set<nat>, base: nat,
    direct: seq<ChannelMessage>, directSeen: nat,
    back: seq<BackFrame>, backSeen: nat)

  datatype Event =
    | AtSender(se: SenderEvent)
    | AtReceiver(re: ReceiverEvent)
    | Connect
    | DeliverRelay(i: nat)
    | LoseRelay
    | DeliverDirect
    | DeliverBack(j: nat)
    | LoseBack

  function Start(a: Attempt): System
    requires a.relayChunk > 0
  {
    System(
      Sender(Undecided, false, false, false, 0, false, false, false, NoReport),
      Receiver(true, Undecided, None, None, false, false, false, false, true, None, NoResult),
      NotOpen, [FileAccept(PlanFor(a.file, a.relayChunk))], 0, {}, 1, [], 0, [], 0)
  }

  function AfterSender(a: Attempt, y: System, e: SenderEvent): System
    requires a.relayChunk > 0 && a.directChunk > 0
  {
    var (s, out) := SenderStep(a, y.s, e);
    y.(s := s,
       relay := y.relay + out.relay,
       base := if s.path.Relay? && y.s.path.Undecided? then |y.relay| else y.base,
       direct := y.direct + out.channel,
       channel := if out.closes then Closed else y.channel)
  }

  function AfterReceiver(y: System, e: ReceiverEvent): System
    requires ReceiverOk(y.r)
  {
    var (r, out) := ReceiverStep(y.r, e);
    y.(r := r,
       back := y.back + out.back,
       channel := if out.closes && !y.channel.NotOpen? then Closed else y.channel)
  }

  /** Steps that the world outside cannot take in this state change nothing. */
  function Next(a: Attempt, y: System, e: Event): System
    requires Legal(a) && ReceiverOk(y.r)
  {
    match e
    case AtSender(se) =>
      if se.HearBack? then y
      else if se.ChannelOpens? && !y.channel.Open? then y
      else if se.ChannelTurn? && se.open != y.channel.Open? then y
      else AfterSender(a, y, se)
    case AtReceiver(re) =>
      if re.Hear? || re.Take? then y
      else if re.ChannelArrives? && !y.channel.Open? then y
      else AfterReceiver(y, re)
    case Connect =>
      if y.channel.NotOpen? && y.s.rtc && y.r.rtc then y.(channel := Open) else y
    case DeliverRelay(i) =>
      if i < |y.relay| && i <= y.relaySeen && i !in y.missed then
        AfterReceiver(y.(relaySeen := if i == y.relaySeen then i + 1 else y.relaySeen),
                      Hear(y.relay[i], Some(|a.file|)))
      else y
    case LoseRelay => if y.relaySeen < |y.relay| then Missed(y) else y
    case DeliverDirect =>
      if y.channel.Open? && y.r.attached && y.directSeen < |y.direct| then
        AfterReceiver(y.(directSeen := y.directSeen + 1), Take(y.direct[y.directSeen], Some(|a.file|)))
      else y
    case DeliverBack(j) =>
      if j < |y.back| && j <= y.backSeen then
        AfterSender(a, y.(backSeen := if j == y.backSeen then j + 1 else y.backSeen), HearBack(y.back[j]))
      else y
    case LoseBack => if y.backSeen < |y.back| then y.(backSeen := y.backSeen + 1) else y
  }

  /** The next relay frame never arrives. */
  function Missed(y: System): System {
    y.(relaySeen := y.relaySeen + 1, missed := y.missed + {y.relaySeen})
  }

  // ------------------------------------------------------------------
  // What every reachable state satisfies.
  // ------------------------------------------------------------------

  predicate Control(f: RelayFrame) {
    f.RtcOffer? || f.SenderError? || f.SenderCancel?
  }

  predicate Closing(f: RelayFrame) {
    f.FileDone? || f.SenderError? || f.SenderCancel?
  }

  /** No file byte is in the relay log. */
  ghost predicate RelayIdle(y: System) {
    forall i :: 1 <= i < |y.relay| ==> Control(y.relay[i])
  }

  /** The relay log is: accept, offers, then the chunks of the relay plan in order, then an ending. */
  ghost predicate RelayStream(a: Attempt, y: System)
    requires Legal(a)
  {
    && 1 <= y.base && y.base + y.s.next <= |y.relay|
    && (forall i :: 1 <= i < y.base ==> Control(y.relay[i]))
    && (forall i :: y.base <= i < y.base + y.s.next ==> y.relay[i] == FileChunk(Cut(a.file, a.relayChunk, i - y.base)))
    && (forall i :: y.base + y.s.next <= i < |y.relay| ==> Closing(y.relay[i]))
    && y.s.next <= ChunkCount(|a.file|, a.relayChunk)
    && (|y.relay| > y.base + y.s.next && !y.s.done ==> y.s.waiting)
    && (y.s.waiting ==> y.s.next == ChunkCount(|a.file|, a.relayChunk))
    && (forall i :: 0 <= i < |y.relay| && y.relay[i].FileDone? ==> y.s.next == ChunkCount(|a.file|, a.relayChunk))
  }

  /** The channel carried: the header of the direct plan, its chunks in order, then the end mark. */
  ghost predicate DirectStream(a: Attempt, y: System)
    requires Legal(a)
  {
    && |y.direct| >= y.s.next + 1
    && y.direct[0] == Header(PlanFor(a.file, a.directChunk))
    && (forall i :: 1 <= i <= y.s.next ==> y.direct[i] == Data(Cut(a.file, a.directChunk, i - 1)))
    && (forall i :: y.s.next + 1 <= i < |y.direct| ==> y.direct[i].Fin?)
    && y.s.next <= ChunkCount(|a.file|, a.directChunk)
    && (|y.direct| > y.s.next + 1 ==> y.s.queued)
    && (y.s.queued ==> y.s.next == ChunkCount(|a.file|, a.directChunk))
  }

  ghost predicate SenderInv(a: Attempt, y: System)
    requires Legal(a)
  {
    && |y.relay| >= 1 && y.relay[0] == FileAccept(PlanFor(a.file, a.relayChunk))
    && y.relaySeen <= |y.relay| && y.directSeen <= |y.direct| && y.backSeen <= |y.back|
    && (y.s.done ==> !y.s.rtc && !y.s.waiting)
    && match y.s.path
       case Undecided => RelayIdle(y) && y.direct == [] && y.s.next == 0 && !y.s.queued && !y.s.waiting
       case P2P => RelayIdle(y) && DirectStream(a, y)
       case Relay => RelayStream(a, y) && y.direct == [] && !y.s.rtc
  }

  /** The reassembler was built from the plan its chunks are cut with, and holds exactly what came. */
  ghost predicate RxFollows(a: Attempt, y: System, x: Rx)
    requires Legal(a)
  {
    && Matches(x, a.file) && x.digest == Some(Digest(a.file))
    && x.chunkBytes == (if y.s.path.P2P? then a.directChunk else a.relayChunk)
    && x.total == ChunkCount(|a.file|, x.chunkBytes)
    && !y.s.path.Undecided?
    && (y.s.path.P2P? ==> y.directSeen >= 1 && forall k :: 0 <= k < x.total ==> (x.have[k] <==> k + 1 < y.directSeen))
    && (y.s.path.Relay? ==> y.relaySeen > y.base && forall k :: 0 <= k < x.total ==> (x.have[k] <==> Came(y, y.base + k)))
  }

  /** This relay frame has arrived. */
  predicate Came(y: System, i: nat) {
    i < y.relaySeen && i !in y.missed
  }

  /** What can end an honest attempt: losing touch, or losing a relay frame. */
  ghost predicate Excused(y: System, why: Why) {
    match why
    case NoHeader => 0 in y.missed
    case NothingCame => 0 in y.missed
    case ChunksMissing => exists i :: i in y.missed && i < |y.relay| && y.relay[i].FileChunk?
    case _ => why in {Dropped, Stalled, NoAnswer, PeerFailed}
  }

  /** Nobody who has heard the end is still collecting. */
  ghost predicate EndHeard(y: System) {
    forall i :: 0 <= i < |y.relay| && Came(y, i) && Closing(y.relay[i]) ==> y.r.done
  }

  /** No relay chunk has arrived. */
  ghost predicate NoChunkCame(a: Attempt, y: System)
    requires Legal(a)
  {
    forall i :: y.base <= i < y.base + ChunkCount(|a.file|, a.relayChunk) && i < y.relaySeen ==> i in y.missed
  }

  ghost predicate ReceiverInv(a: Attempt, y: System)
    requires Legal(a)
  {
    var r := y.r;
    && ReceiverOk(r)
    && (r.path.Relay? ==> y.s.path.Relay?)
    && (r.attached ==> r.rtc)
    && (r.rtc ==> y.relaySeen > 0)
    && (y.directSeen > 0 ==> y.relaySeen > 0)
    && (!r.live ==> r.done && r.result != NoResult && !r.rtc && !r.deadline)
    && (r.live ==> r.result == NoResult)
    && (r.live && Came(y, 0) ==> r.meta.Some?)
    && (r.meta.Some? ==>
          || r.meta.value == PlanFor(a.file, a.relayChunk)
          || (y.directSeen > 0 && r.meta.value == PlanFor(a.file, a.directChunk)))
    && (!r.done && r.rx.None? && y.s.path.P2P? ==> y.directSeen == 0)
    && (!r.done && r.rx.None? && y.s.path.Relay? ==> NoChunkCame(a, y))
    && (!r.done && r.rx.Some? ==> RxFollows(a, y, r.rx.value) && !r.rx.value.Complete())
    && (r.live && r.done ==> r.verifying.Some?)
    && (r.verifying.Some? ==> r.verifying.value == Whole(a.file) && r.done)
    && (r.result.Saved? ==> r.result.bytes == a.file && r.verifying.None?)
  }

  ghost predicate AgreementInv(a: Attempt, y: System) {
    && (forall j :: 0 <= j < |y.back| && y.back[j].FileOk? ==> y.r.result == Saved(a.file))
    && (y.s.confirmed ==> exists j :: 0 <= j < |y.back| && y.back[j].FileOk?)
    && (y.s.report.SentConfirmed? ==> y.s.confirmed)
  }

  ghost predicate Inv(a: Attempt, y: System)
    requires Legal(a)
  {
    SenderInv(a, y) && ReceiverInv(a, y) && AgreementInv(a, y) && LossInv(y)
  }

  ghost predicate LossInv(y: System) {
    && (forall i :: i in y.missed ==> i < y.relaySeen)
    && EndHeard(y)
    && (y.r.result.Lost? ==> Excused(y, y.r.result.why))
  }

  /** Losing touch needs no frame to be lost. */
  predicate OutOfTouch(result: Result) {
    result.Lost? && result.why in {Dropped, Stalled, NoAnswer, PeerFailed}
  }

  /** An excuse stays one while the relay log grows and more of it is lost. */
  lemma ExcusedGrows(y: System, z: System, why: Why)
    requires Excused(y, why) && y.missed <= z.missed
    requires |z.relay| >= |y.relay| && forall i :: 0 <= i < |y.relay| ==> z.relay[i] == y.relay[i]
    ensures Excused(z, why)
  {
    if why.ChunksMissing? {
      var i :| i in y.missed && i < |y.relay| && y.relay[i].FileChunk?;
      assert z.relay[i].FileChunk?;
    }
  }

  /** Nothing new has come, and who was done is done. */
  lemma LossFrame(y: System, z: System)
    requires LossInv(y) && z.missed == y.missed && z.relaySeen == y.relaySeen && y.relaySeen <= |y.relay|
    requires |z.relay| >= |y.relay| && forall i :: 0 <= i < |y.relay| ==> z.relay[i] == y.relay[i]
    requires y.r.done ==> z.r.done
    requires z.r.result.Lost? ==> z.r.result == y.r.result || OutOfTouch(z.r.result)
    ensures LossInv(z)
  {
    hide Excused;
    if z.r.result.Lost? {
      if OutOfTouch(z.r.result) { TouchExcuses(z, z.r.result.why); } else { ExcusedGrows(y, z, y.r.result.why); }
    }
  }

  lemma TouchExcuses(y: System, why: Why)
    requires why in {Dropped, Stalled, NoAnswer, PeerFailed}
    ensures Excused(y, why)
  {
  }

  /** Relay frame `i` has come, and if it was an end it was heard. */
  lemma LossHeard(y: System, z: System, i: nat)
    requires LossInv(y) && i < |y.relay| && i <= y.relaySeen && i !in y.missed
    requires z.relay == y.relay && z.missed == y.missed && z.relaySeen == Bumped(y, i).relaySeen
    requires (y.r.done ==> z.r.done) && (Closing(y.relay[i]) ==> z.r.done)
    requires z.r.result.Lost? ==> z.r.result == y.r.result || Excused(z, z.r.result.why)
    ensures LossInv(z)
  {
    hide Excused;
    if z.r.result.Lost? && z.r.result == y.r.result { ExcusedGrows(y, z, y.r.result.why); }
  }

  lemma DoneStays(r: Receiver, e: ReceiverEvent)
    requires ReceiverOk(r)
    ensures r.done ==> ReceiverStep(r, e).0.done
  {
    hide ChunkCount, WellFormed, Judge, AfterAccept, FinishResult, StartRx, PlanAccepted;
  }

  lemma EndIsHeard(r: Receiver, frame: RelayFrame, announced: Option<nat>)
    requires ReceiverOk(r) && Closing(frame) && (!r.live ==> r.done)
    ensures HearStep(r, frame, announced).0.done
  {
    hide ChunkCount, WellFormed, FinishResult;
  }

  lemma StartInv(a: Attempt)
    requires Legal(a)
    ensures Inv(a, Start(a))
  {
  }

  // ---- the holder's steps

  lemma UndecidedStep(a: Attempt, y: System, e: SenderEvent)
    requires Legal(a) && SenderInv(a, y) && y.s.path.Undecided?
    ensures SenderInv(a, AfterSender(a, y, e))
  {
    hide ChunkCount, Chunk, Checksum, ChunkLength;
  }

  lemma DirectStep(a: Attempt, y: System, e: SenderEvent)
    requires Legal(a) && SenderInv(a, y) && y.s.path.P2P?
    ensures SenderInv(a, AfterSender(a, y, e))
  {
    hide ChunkCount, Chunk, Checksum, ChunkLength;
  }

  lemma RelayStep(a: Attempt, y: System, e: SenderEvent)
    requires Legal(a) && SenderInv(a, y) && y.s.path.Relay?
    ensures SenderInv(a, AfterSender(a, y, e))
  {
    hide ChunkCount, Chunk, Checksum, ChunkLength;
  }

  /** Nothing the holder does disturbs what the requester has built. */
  lemma SenderStepInv(a: Attempt, y: System, e: SenderEvent)
    requires Legal(a) && Inv(a, y)
    requires e.HearBack? && e.frame.FileOk? ==> exists j :: 0 <= j < |y.back| && y.back[j].FileOk?
    ensures Inv(a, AfterSender(a, y, e))
  {
    hide SenderInv, ReceiverInv, AgreementInv, AfterSender, SenderStep;
    match y.s.path {
      case Undecided => UndecidedStep(a, y, e);
      case P2P => DirectStep(a, y, e);
      case Relay => RelayStep(a, y, e);
    }
    SenderKeepsReceiver(a, y, e);
    SenderKeepsAgreement(a, y, e);
    SenderKeepsLoss(a, y, e);
  }

  lemma RelayGrows(a: Attempt, y: System, e: SenderEvent)
    requires Legal(a)
    ensures var z := AfterSender(a, y, e);
            && z.r == y.r && z.missed == y.missed && z.relaySeen == y.relaySeen && |z.relay| >= |y.relay|
            && forall i :: 0 <= i < |y.relay| ==> z.relay[i] == y.relay[i]
  {
    hide SenderStep;
  }

  lemma SenderKeepsLoss(a: Attempt, y: System, e: SenderEvent)
    requires Legal(a) && SenderInv(a, y) && LossInv(y)
    ensures LossInv(AfterSender(a, y, e))
  {
    hide SenderStep, RelayStream, DirectStream, RelayIdle, LossInv, AfterSender;
    RelayGrows(a, y, e);
    LossFrame(y, AfterSender(a, y, e));
  }

  lemma PathStays(a: Attempt, s: Sender, e: SenderEvent)
    requires a.relayChunk > 0 && a.directChunk > 0 && !s.path.Undecided?
    ensures SenderStep(a, s, e).0.path == s.path
  {
    hide ChunkCount, Cut, PlanFor;
  }

  lemma SenderKeepsReceiver(a: Attempt, y: System, e: SenderEvent)
    requires Legal(a) && Inv(a, y)
    ensures ReceiverInv(a, AfterSender(a, y, e))
  {
    hide ChunkCount, Matches, WellFormed, RelayStream, DirectStream, RelayIdle, SenderStep, PlanFor, Excused;
    if !y.s.path.Undecided? {
      PathStays(a, y.s, e);
    }
    RelayGrows(a, y, e);
  }

  lemma SenderKeepsAgreement(a: Attempt, y: System, e: SenderEvent)
    requires Legal(a) && AgreementInv(a, y)
    requires e.HearBack? && e.frame.FileOk? ==> exists j :: 0 <= j < |y.back| && y.back[j].FileOk?
    ensures AgreementInv(a, AfterSender(a, y, e))
  {
    hide ChunkCount, Cut, PlanFor;
  }

  // ---- the requester's steps

  function RxOf(r: Receiver): Rx
    requires ReceiverOk(r) && (r.rx.Some? || r.meta.Some?)
  {
    if r.rx.Some? then r.rx.value else StartRx(r.meta.value)
  }

  /** A chunk of the plan the reassembler was built from is never refused. */
  lemma TakeOwnChunk(r: Receiver, file: Bytes, k: nat)
    requires ReceiverOk(r) && !r.done && (r.rx.Some? || r.meta.Some?)
    requires var x := RxOf(r);
             && Matches(x, file) && x.digest == Some(Digest(file))
             && x.total == ChunkCount(|file|, x.chunkBytes) && k < x.total
    ensures var x := RxOf(r);
            var x2 := AfterAccept(x, Cut(file, x.chunkBytes, k));
            && Matches(x2, file) && x2 == x.(buffer := x2.buffer, have := x.have[k := true], received := x2.received, bytesReceived := x2.bytesReceived)
            && (x2.Complete() <==> forall i :: 0 <= i < x2.total ==> x2.have[i])
            && TakeChunk(r, Cut(file, x.chunkBytes, k)) ==
                 (if x2.Complete() then r.(rx := Some(x2), done := true, verifying := Some(Whole(file)))
                  else r.(rx := Some(x2)), None)
  {
    hide Matches, Judge, Genuine, FinishResult, ChunkCount, WellFormed, AfterAccept, Cut, Fresh;
    var x := RxOf(r);
    var m := Cut(file, x.chunkBytes, k);
    MatchesMeans(x, file);
    CutIsGenuine(file, x.chunkBytes, k);
    GenuineStep(x, file, m);
    var x2 := AfterAccept(x, m);
    AcceptShape(x, m);
    CompleteIsWhole(x2, file);
    FinishOfMatching(x2, file);
  }

  lemma CutIsGenuine(file: Bytes, chunkBytes: nat, k: nat)
    requires chunkBytes > 0 && k < ChunkCount(|file|, chunkBytes)
    ensures Genuine(file, chunkBytes, Cut(file, chunkBytes, k))
    ensures Cut(file, chunkBytes, k).k == k
  {
  }

  lemma MatchesMeans(x: Rx, file: Bytes)
    requires Matches(x, file)
    ensures WellFormed(x) && !x.aborted && x.size == |file| && |x.have| == x.total && x.chunkBytes > 0
  {
  }

  lemma AcceptShape(x: Rx, m: Message)
    requires WellFormed(x)
    ensures var x2 := AfterAccept(x, m);
            x2 == x.(buffer := x2.buffer, have := x2.have, received := x2.received, bytesReceived := x2.bytesReceived)
  {
  }

  lemma FreshFollows(file: Bytes, chunkBytes: nat)
    requires chunkBytes > 0
    ensures var x := StartRx(PlanFor(file, chunkBytes));
            && Matches(x, file) && x.digest == Some(Digest(file)) && x.chunkBytes == chunkBytes
            && x.total == ChunkCount(|file|, chunkBytes)
            && (forall k :: 0 <= k < x.total ==> !x.have[k])
            && (x.Complete() <==> x.total == 0)
            && (x.Complete() ==> FinishResult(x) == Whole(file))
  {
    var p := PlanFor(file, chunkBytes);
    FreshMatches(file, chunkBytes, p.total, Some(p.digest));
    hide Matches, FinishResult;
    FinishOfMatching(StartRx(p), file);
  }

  lemma HonestPlan(a: Attempt, chunkBytes: nat)
    requires Legal(a) && chunkBytes > 0
    ensures PlanAccepted(PlanFor(a.file, chunkBytes), Some(|a.file|))
  {
  }

  function Bumped(y: System, i: nat): System {
    y.(relaySeen := if i == y.relaySeen then i + 1 else y.relaySeen)
  }

  /** The holder's side of the invariant reads only the holder and what it has sent. */
  lemma SenderFrame(a: Attempt, y: System, z: System)
    requires Legal(a) && SenderInv(a, y)
    requires z.s == y.s && z.relay == y.relay && z.base == y.base && z.direct == y.direct
    requires z.relaySeen <= |z.relay| && z.directSeen <= |z.direct| && z.backSeen <= |z.back|
    ensures SenderInv(a, z)
  {
    hide Cut, ChunkCount, PlanFor, Control, Closing;
  }

  lemma RxFrame(a: Attempt, y: System, z: System, x: Rx)
    requires Legal(a) && RxFollows(a, y, x)
    requires z.s.path == y.s.path && z.base == y.base && z.relaySeen == y.relaySeen && z.missed == y.missed && z.directSeen == y.directSeen
    ensures RxFollows(a, z, x)
  {
    hide Matches, ChunkCount;
  }

  lemma BackGrows(a: Attempt, y: System, z: System)
    requires AgreementInv(a, y) && z.s == y.s
    requires |z.back| >= |y.back| && z.back[..|y.back|] == y.back
    requires y.r.result.Saved? ==> z.r.result == y.r.result
    requires forall j :: |y.back| <= j < |z.back| && z.back[j].FileOk? ==> z.r.result == Saved(a.file)
    ensures AgreementInv(a, z)
  {
    assert forall j :: 0 <= j < |y.back| ==> z.back[j] == y.back[j];
  }

  predicate Ending(e: ReceiverEvent) {
    e.ChannelDrops? || e.DigestDone? || e.Idle? || e.DeadlinePasses? || e.CancelReceive?
  }

  lemma EndingStep(a: Attempt, y: System, e: ReceiverEvent)
    requires Legal(a) && Inv(a, y) && Ending(e)
    ensures Inv(a, AfterReceiver(y, e))
  {
    hide ChunkCount, Matches, WellFormed, SenderInv, FinishResult, RxFollows, PlanFor, AgreementInv, LossInv;
    var z := AfterReceiver(y, e);
    SenderBounds(a, y);
    SenderFrame(a, y, z);
    BackGrows(a, y, z);
    DoneStays(y.r, e);
    LossFrame(y, z);
    if !y.r.done && y.r.rx.Some? {
      RxFrame(a, y, z, y.r.rx.value);
    }
  }

  /** Events with no frame in them. */
  lemma LocalReceiverStep(a: Attempt, y: System, e: ReceiverEvent)
    requires Legal(a) && Inv(a, y) && !e.Hear? && !e.Take? && !Ending(e)
    ensures Inv(a, AfterReceiver(y, e))
  {
    hide ChunkCount, Matches, WellFormed, SenderInv, FinishResult, RxFollows, PlanFor, AgreementInv, LossInv;
    var z := AfterReceiver(y, e);
    SenderBounds(a, y);
    SenderFrame(a, y, z);
    BackGrows(a, y, z);
    DoneStays(y.r, e);
    LossFrame(y, z);
    if !y.r.done && y.r.rx.Some? {
      RxFrame(a, y, z, y.r.rx.value);
    }
  }

  lemma SenderBounds(a: Attempt, y: System)
    requires Legal(a) && SenderInv(a, y)
    ensures y.relaySeen <= |y.relay| && y.directSeen <= |y.direct| && y.backSeen <= |y.back|
    ensures |y.relay| >= 1 && y.relay[0] == FileAccept(PlanFor(a.file, a.relayChunk))
    ensures !y.s.path.P2P? ==> y.directSeen == 0
  {
  }

  /** Where in the relay log each kind of frame can stand. */
  lemma RelayPlaces(a: Attempt, y: System, i: nat)
    requires Legal(a) && SenderInv(a, y) && i < |y.relay|
    ensures y.relay[i].FileAccept? <==> i == 0
    ensures y.relay[i].RtcOffer? && y.s.path.Relay? ==> i < y.base
    ensures y.relay[i].FileChunk? ==>
      && y.s.path.Relay? && y.base <= i < y.base + y.s.next <= y.base + ChunkCount(|a.file|, a.relayChunk)
      && y.relay[i] == FileChunk(Cut(a.file, a.relayChunk, i - y.base))
    ensures y.relay[i].FileDone? ==>
      y.s.path.Relay? && i >= y.base + ChunkCount(|a.file|, a.relayChunk)
    ensures y.s.path.Relay? ==> y.base >= 1
  {
    hide Cut, ChunkCount, PlanFor;
  }

  lemma BumpRx(a: Attempt, y: System, i: nat, x: Rx)
    requires Legal(a) && RxFollows(a, y, x) && i <= y.relaySeen
    requires y.s.path.Relay? ==> i < y.base
    ensures RxFollows(a, Bumped(y, i), x)
  {
    hide Matches, ChunkCount;
  }

  /** An accept or an offer, for the first time or again. */
  lemma HearSetup(a: Attempt, y: System, i: nat)
    requires Legal(a) && Inv(a, y) && i < |y.relay| && i <= y.relaySeen && i !in y.missed
    requires y.relay[i].FileAccept? || y.relay[i].RtcOffer?
    ensures Inv(a, AfterReceiver(Bumped(y, i), Hear(y.relay[i], Some(|a.file|))))
  {
    hide ChunkCount, Matches, WellFormed, FinishResult, SenderInv, AgreementInv, RxFollows, PlanAccepted, PlanFor;
    var z := AfterReceiver(Bumped(y, i), Hear(y.relay[i], Some(|a.file|)));
    SenderBounds(a, y);
    RelayPlaces(a, y, i);
    HonestPlan(a, a.relayChunk);
    SenderFrame(a, y, z);
    BackGrows(a, y, z);
    PlanForShape(a.file, a.relayChunk);
    if !y.r.done && y.r.rx.Some? {
      BumpRx(a, y, i, y.r.rx.value);
      RxFrame(a, Bumped(y, i), z, y.r.rx.value);
    }
  }

  lemma PlanForShape(file: Bytes, chunkBytes: nat)
    requires chunkBytes > 0
    ensures PlanFor(file, chunkBytes).chunkBytes == chunkBytes
  {
  }

  lemma HearGoodbye(a: Attempt, y: System, i: nat)
    requires Legal(a) && Inv(a, y) && i < |y.relay| && i <= y.relaySeen && i !in y.missed
    requires y.relay[i].SenderError? || y.relay[i].SenderCancel?
    ensures Inv(a, AfterReceiver(Bumped(y, i), Hear(y.relay[i], Some(|a.file|))))
  {
    hide ChunkCount, Matches, WellFormed, FinishResult, SenderInv, AgreementInv, RxFollows, PlanFor;
    var z := AfterReceiver(Bumped(y, i), Hear(y.relay[i], Some(|a.file|)));
    SenderBounds(a, y);
    SenderFrame(a, y, z);
    BackGrows(a, y, z);
  }

  lemma TakeNothing(r: Receiver, m: Message)
    requires ReceiverOk(r) && r.done
    ensures TakeChunk(r, m) == (r, None)
  {
  }

  lemma HearChunkTooLate(a: Attempt, y: System, i: nat)
    requires Legal(a) && Inv(a, y) && i < |y.relay| && i <= y.relaySeen && i !in y.missed
    requires y.relay[i].FileChunk? && y.r.done
    ensures Inv(a, AfterReceiver(Bumped(y, i), Hear(y.relay[i], Some(|a.file|))))
  {
    hide ChunkCount, Matches, WellFormed, FinishResult, SenderInv, AgreementInv, TakeChunk, Cut, PlanFor, RxFollows;
    var z := AfterReceiver(Bumped(y, i), Hear(y.relay[i], Some(|a.file|)));
    SenderBounds(a, y);
    RelayPlaces(a, y, i);
    TakeNothing(if !y.r.path.Relay? then CloseRtc(y.r).(path := Relay) else y.r, y.relay[i].chunk);
    SenderFrame(a, y, z);
    BackGrows(a, y, z);
  }

  /** The reassembler a relay chunk will meet, be it there already or built for the occasion. */
  ghost predicate RelayHolds(a: Attempt, y: System, x: Rx)
    requires Legal(a)
  {
    && Matches(x, a.file) && x.digest == Some(Digest(a.file)) && x.chunkBytes == a.relayChunk
    && x.total == ChunkCount(|a.file|, a.relayChunk)
    && forall k :: 0 <= k < x.total ==> (x.have[k] <==> Came(y, y.base + k))
  }

  lemma RelayRx(a: Attempt, y: System)
    requires Legal(a) && SenderInv(a, y) && ReceiverInv(a, y) && y.s.path.Relay? && y.relaySeen >= y.base
    requires !y.r.done && (y.r.rx.Some? || y.r.meta.Some?)
    ensures RelayHolds(a, y, RxOf(y.r))
  {
    hide ChunkCount, Matches, WellFormed, StartRx, PlanFor, RelayStream;
    RelayBase(a, y);
    PlanForShape(a.file, a.relayChunk);
    FreshFollows(a.file, a.relayChunk);
  }

  /** The acceptance opened the relay log: a requester with no plan at all has lost it. */
  lemma NoPlanMeansLost(a: Attempt, y: System)
    requires Legal(a) && SenderInv(a, y) && ReceiverInv(a, y) && y.s.path.Relay? && y.relaySeen >= y.base
    requires !y.r.done && y.r.meta.None?
    ensures 0 in y.missed
  {
    hide ChunkCount, Matches, WellFormed, PlanFor, RelayStream;
    RelayBase(a, y);
  }

  lemma RelayBase(a: Attempt, y: System)
    requires Legal(a) && SenderInv(a, y) && y.s.path.Relay?
    ensures y.base >= 1
  {
  }

  lemma RelayChunkLands(a: Attempt, y: System, r1: Receiver, i: nat)
    requires Legal(a) && Inv(a, y) && i < |y.relay| && i <= y.relaySeen && i !in y.missed
    requires y.relay[i].FileChunk? && !y.r.done
    requires y.r.rx.Some? || y.r.meta.Some?
    requires r1.rx == y.r.rx && r1.meta == y.r.meta && r1.done == y.r.done
    ensures ReceiverOk(r1)
    ensures var (r2, error) := TakeChunk(r1, y.relay[i].chunk);
            && error.None?
            && r2 == r1.(rx := r2.rx, done := r2.done, verifying := r2.verifying)
            && r2.rx.Some? && WellFormed(r2.rx.value)
            && (r2.done ==> r2.verifying == Some(Whole(a.file)))
            && (!r2.done ==> r2.verifying == r1.verifying && !r2.rx.value.Complete() && RxFollows(a, Bumped(y, i), r2.rx.value))
  {
    hide ChunkCount, Matches, WellFormed, SenderInv, AgreementInv, TakeChunk, Cut, RxFollows, RelayHolds, ReceiverInv;
    ReceiverIsOk(a, y);
    RelayPlaces(a, y, i);
    RelayRx(a, y);
    var k := i - y.base;
    RelayHoldsMeans(a, y, RxOf(r1));
    TakeOwnChunk(r1, a.file, k);
    var x2 := AfterAccept(RxOf(r1), Cut(a.file, a.relayChunk, k));
    MatchesMeans(x2, a.file);
    RelayRxAdvances(a, y, RxOf(r1), x2, k);
  }

  lemma ReceiverIsOk(a: Attempt, y: System)
    requires Legal(a) && ReceiverInv(a, y)
    ensures ReceiverOk(y.r)
  {
  }

  lemma RelayHoldsMeans(a: Attempt, y: System, x: Rx)
    requires Legal(a) && RelayHolds(a, y, x)
    ensures Matches(x, a.file) && WellFormed(x) && x.digest == Some(Digest(a.file)) && x.chunkBytes == a.relayChunk
    ensures x.total == ChunkCount(|a.file|, a.relayChunk)
  {
  }

  lemma RelayRxAdvances(a: Attempt, y: System, x: Rx, x2: Rx, k: nat)
    requires Legal(a) && RelayHolds(a, y, x) && y.s.path.Relay? && y.base + k <= y.relaySeen && k < x.total
    requires y.base + k !in y.missed && Matches(x2, a.file) && x2.have == x.have[k := true]
    requires x2.digest == x.digest && x2.chunkBytes == x.chunkBytes && x2.total == x.total
    ensures RxFollows(a, Bumped(y, y.base + k), x2)
  {
    hide ChunkCount;
  }

  /** What the first relay chunk makes of a requester that is still open to the channel. */
  function OnRelay(r: Receiver): Receiver {
    if !r.path.Relay? then CloseRtc(r).(path := Relay) else r
  }

  /** A relay chunk, the next one or any earlier one again, for a requester with a plan. */
  lemma HearChunkInPlan(a: Attempt, y: System, i: nat)
    requires Legal(a) && Inv(a, y) && i < |y.relay| && i <= y.relaySeen && i !in y.missed
    requires y.relay[i].FileChunk? && !y.r.done && (y.r.rx.Some? || y.r.meta.Some?)
    ensures Inv(a, AfterReceiver(Bumped(y, i), Hear(y.relay[i], Some(|a.file|))))
  {
    hide ChunkCount, WellFormed, Matches, SenderInv, AgreementInv, LossInv, TakeChunk, RxFollows, PlanFor;
    var z := AfterReceiver(Bumped(y, i), Hear(y.relay[i], Some(|a.file|)));
    SenderBounds(a, y);
    RelayPlaces(a, y, i);
    RelayChunkLands(a, y, OnRelay(y.r), i);
    if !z.r.done {
      RxFrame(a, Bumped(y, i), z, z.r.rx.value);
    }
    SenderFrame(a, y, z);
    BackGrows(a, y, z);
    LossHeard(y, z, i);
  }

  /** A requester that lost the acceptance has no plan to put a relay chunk into. */
  lemma HearChunkUnplanned(a: Attempt, y: System, i: nat)
    requires Legal(a) && Inv(a, y) && i < |y.relay| && i <= y.relaySeen && i !in y.missed
    requires y.relay[i].FileChunk? && !y.r.done && y.r.rx.None? && y.r.meta.None?
    ensures Inv(a, AfterReceiver(Bumped(y, i), Hear(y.relay[i], Some(|a.file|))))
  {
    hide ChunkCount, WellFormed, Matches, SenderInv, AgreementInv, LossInv, RxFollows, PlanFor;
    var z := AfterReceiver(Bumped(y, i), Hear(y.relay[i], Some(|a.file|)));
    SenderBounds(a, y);
    RelayPlaces(a, y, i);
    NoPlanMeansLost(a, y);
    SenderFrame(a, y, z);
    BackGrows(a, y, z);
    LossHeard(y, z, i);
  }

  lemma HearChunk(a: Attempt, y: System, i: nat)
    requires Legal(a) && Inv(a, y) && i < |y.relay| && i <= y.relaySeen && i !in y.missed
    requires y.relay[i].FileChunk?
    ensures Inv(a, AfterReceiver(Bumped(y, i), Hear(y.relay[i], Some(|a.file|))))
  {
    hide Inv, AfterReceiver;
    if y.r.done {
      HearChunkTooLate(a, y, i);
    } else if y.r.rx.Some? || y.r.meta.Some? {
      HearChunkInPlan(a, y, i);
    } else {
      HearChunkUnplanned(a, y, i);
    }
  }

  /** Every chunk of the relay plan is in the log, and none of them was lost. */
  ghost predicate NoChunkLost(a: Attempt, y: System)
    requires Legal(a)
  {
    forall i :: y.base <= i < y.base + ChunkCount(|a.file|, a.relayChunk) ==> i !in y.missed
  }

  lemma CompleteIfNoneLost(a: Attempt, y: System, x: Rx)
    requires Legal(a) && RelayHolds(a, y, x) && y.relaySeen >= y.base + ChunkCount(|a.file|, a.relayChunk)
    ensures x.Complete() <==> NoChunkLost(a, y)
  {
    hide ChunkCount, Matches;
    CompleteIsWhole(x, a.file);
    RelayHoldsMeans(a, y, x);
    MatchesMeans(x, a.file);
    if NoChunkLost(a, y) {
      forall k | 0 <= k < x.total
        ensures x.have[k]
      {
        assert Came(y, y.base + k);
      }
    } else {
      var i :| y.base <= i < y.base + ChunkCount(|a.file|, a.relayChunk) && i in y.missed;
      assert x.have[i - y.base] <==> Came(y, y.base + (i - y.base));
    }
  }

  lemma LostChunkExcuses(a: Attempt, y: System, i: nat)
    requires Legal(a) && SenderInv(a, y) && !NoChunkLost(a, y) && i < |y.relay| && y.relay[i].FileDone?
    ensures Excused(y, ChunksMissing)
  {
    hide ChunkCount, Cut, PlanFor;
    var lost :| y.base <= lost < y.base + ChunkCount(|a.file|, a.relayChunk) && lost in y.missed;
    RelayPlaces(a, y, i);
    assert y.relay[lost] == FileChunk(Cut(a.file, a.relayChunk, lost - y.base));
  }

  /**
   What the end mark does to a requester that is still collecting is decided by the
   losses alone: the file is whole if and only if no chunk was lost and a plan came.
   */
  lemma {:induction false} FileDoneDecides(a: Attempt, y: System, i: nat)
    requires Legal(a) && Inv(a, y) && i < |y.relay| && i <= y.relaySeen
    requires y.relay[i].FileDone? && !y.r.done
    ensures var r := HearStep(y.r, FileDone, Some(|a.file|)).0;
            if y.r.rx.None? && y.r.meta.None? then r == ReceiverFinish(y.r, Lost(NothingCame)) && 0 in y.missed
            else if NoChunkLost(a, y) then
              && r == y.r.(rx := Some(RxOf(y.r)), done := true, verifying := Some(Whole(a.file)))
              && Matches(RxOf(y.r), a.file)
            else r == ReceiverFinish(y.r, Lost(ChunksMissing)) && Excused(y, ChunksMissing)
  {
    hide ChunkCount, Matches, WellFormed, FinishResult, SenderInv, AgreementInv, LossInv, RxFollows, PlanFor, RelayHolds, NoChunkLost, Excused;
    RelayPlaces(a, y, i);
    if y.r.rx.None? && y.r.meta.None? {
      NoPlanMeansLost(a, y);
    } else {
      RelayRx(a, y);
      var x := RxOf(y.r);
      RelayHoldsMeans(a, y, x);
      CompleteIfNoneLost(a, y, x);
      if x.Complete() {
        FinishOfMatching(x, a.file);
      } else {
        LostChunkExcuses(a, y, i);
      }
    }
  }

  /** The end mark of the relay, in every one of those cases. */
  lemma HearDone(a: Attempt, y: System, i: nat)
    requires Legal(a) && Inv(a, y) && i < |y.relay| && i <= y.relaySeen && i !in y.missed
    requires y.relay[i].FileDone?
    ensures Inv(a, AfterReceiver(Bumped(y, i), Hear(y.relay[i], Some(|a.file|))))
  {
    hide ChunkCount, Matches, WellFormed, FinishResult, SenderInv, AgreementInv, LossInv, StartRx, PlanFor, RxFollows, Excused, NoChunkLost;
    var z := AfterReceiver(Bumped(y, i), Hear(y.relay[i], Some(|a.file|)));
    SenderBounds(a, y);
    RelayPlaces(a, y, i);
    if !y.r.done {
      FileDoneDecides(a, y, i);
      if z.r.rx.Some? { MatchesMeans(z.r.rx.value, a.file); }
      if z.r.result.Lost? {
        assert z.r.result.why.NothingCame? || z.r.result.why.ChunksMissing?;
        if z.r.result.why.NothingCame? { LostPlanExcuses(z); } else { ExcusedGrows(y, z, ChunksMissing); }
      }
    }
    SenderFrame(a, y, z);
    BackGrows(a, y, z);
    LossHeard(y, z, i);
  }

  lemma LostPlanExcuses(y: System)
    requires 0 in y.missed
    ensures Excused(y, NothingCame) && Excused(y, NoHeader)
  {
  }

  lemma AllDirectChunksMeanComplete(a: Attempt, y: System, x: Rx)
    requires Legal(a) && RxFollows(a, y, x) && y.s.path.P2P?
    requires y.directSeen >= 1 + ChunkCount(|a.file|, a.directChunk)
    ensures x.Complete()
  {
    CompleteIsWhole(x, a.file);
  }

  // ---- the same over the channel

  lemma DirectPlaces(a: Attempt, y: System, i: nat)
    requires Legal(a) && SenderInv(a, y) && i < |y.direct|
    ensures y.s.path.P2P?
    ensures y.direct[i].Header? <==> i == 0
    ensures i == 0 ==> y.direct[i] == Header(PlanFor(a.file, a.directChunk))
    ensures y.direct[i].Data? ==>
      1 <= i <= ChunkCount(|a.file|, a.directChunk) && y.direct[i] == Data(Cut(a.file, a.directChunk, i - 1))
    ensures y.direct[i].Fin? ==> i >= 1 + ChunkCount(|a.file|, a.directChunk)
  {
    hide Cut, ChunkCount, PlanFor;
  }

  function Advanced(y: System): System {
    y.(directSeen := y.directSeen + 1)
  }

  lemma TakeHeader(a: Attempt, y: System)
    requires Legal(a) && Inv(a, y) && y.r.attached && y.directSeen < |y.direct|
    requires y.direct[y.directSeen].Header?
    ensures Inv(a, AfterReceiver(Advanced(y), Take(y.direct[y.directSeen], Some(|a.file|))))
  {
    hide ChunkCount, Matches, WellFormed, FinishResult, SenderInv, AgreementInv, StartRx, PlanFor, PlanAccepted;
    var z := AfterReceiver(Advanced(y), Take(y.direct[y.directSeen], Some(|a.file|)));
    SenderBounds(a, y);
    DirectPlaces(a, y, y.directSeen);
    PlanForShape(a.file, a.directChunk);
    HonestPlan(a, a.directChunk);
    FreshFollows(a.file, a.directChunk);
    MatchesMeans(StartRx(PlanFor(a.file, a.directChunk)), a.file);
    SenderFrame(a, y, z);
    BackGrows(a, y, z);
  }

  lemma TakeDataLate(a: Attempt, y: System)
    requires Legal(a) && Inv(a, y) && y.r.attached && y.directSeen < |y.direct|
    requires y.direct[y.directSeen].Data? && y.r.done
    ensures Inv(a, AfterReceiver(Advanced(y), Take(y.direct[y.directSeen], Some(|a.file|))))
  {
    hide ChunkCount, Matches, WellFormed, FinishResult, SenderInv, AgreementInv, TakeChunk, Cut, PlanFor, RxFollows;
    var z := AfterReceiver(Advanced(y), Take(y.direct[y.directSeen], Some(|a.file|)));
    SenderBounds(a, y);
    TakeNothing(y.r, y.direct[y.directSeen].chunk);
    SenderFrame(a, y, z);
    BackGrows(a, y, z);
  }

  lemma TakeDataInTime(a: Attempt, y: System)
    requires Legal(a) && Inv(a, y) && y.r.attached && y.directSeen < |y.direct|
    requires y.direct[y.directSeen].Data? && !y.r.done
    ensures Inv(a, AfterReceiver(Advanced(y), Take(y.direct[y.directSeen], Some(|a.file|))))
  {
    hide ChunkCount, Matches, WellFormed, FinishResult, SenderInv, AgreementInv, TakeChunk, Cut, PlanFor;
    var z := AfterReceiver(Advanced(y), Take(y.direct[y.directSeen], Some(|a.file|)));
    SenderBounds(a, y);
    DirectPlaces(a, y, y.directSeen);
    MatchesMeans(RxOf(y.r), a.file);
    TakeOwnChunk(y.r, a.file, y.directSeen - 1);
    MatchesMeans(AfterAccept(RxOf(y.r), Cut(a.file, a.directChunk, y.directSeen - 1)), a.file);
    SenderFrame(a, y, z);
    BackGrows(a, y, z);
  }

  lemma TakeData(a: Attempt, y: System)
    requires Legal(a) && Inv(a, y) && y.r.attached && y.directSeen < |y.direct|
    requires y.direct[y.directSeen].Data?
    ensures Inv(a, AfterReceiver(Advanced(y), Take(y.direct[y.directSeen], Some(|a.file|))))
  {
    hide Inv, AfterReceiver;
    if y.r.done { TakeDataLate(a, y); } else { TakeDataInTime(a, y); }
  }

  lemma TakeFin(a: Attempt, y: System)
    requires Legal(a) && Inv(a, y) && y.r.attached && y.directSeen < |y.direct|
    requires y.direct[y.directSeen].Fin?
    ensures Inv(a, AfterReceiver(Advanced(y), Take(y.direct[y.directSeen], Some(|a.file|))))
  {
    hide ChunkCount, Matches, WellFormed, FinishResult, SenderInv, AgreementInv, PlanFor;
    var z := AfterReceiver(Advanced(y), Take(y.direct[y.directSeen], Some(|a.file|)));
    SenderBounds(a, y);
    DirectPlaces(a, y, y.directSeen);
    if !y.r.done && y.r.rx.Some? {
      AllDirectChunksMeanComplete(a, y, y.r.rx.value);
    }
    SenderFrame(a, y, z);
    BackGrows(a, y, z);
  }

  // ------------------------------------------------------------------
  // Every run.
  // ------------------------------------------------------------------

  lemma NextInv(a: Attempt, y: System, e: Event)
    requires Legal(a) && Inv(a, y)
    ensures Inv(a, Next(a, y, e))
  {
    hide SenderInv, AgreementInv, AfterSender, AfterReceiver;
    match e
    case AtSender(se) =>
      if !se.HearBack? {
        SenderStepInv(a, y, se);
      }
    case AtReceiver(re) =>
      if Ending(re) {
        EndingStep(a, y, re);
      } else if !re.Hear? && !re.Take? {
        LocalReceiverStep(a, y, re);
      }
    case Connect => ConnectInv(a, y);
    case DeliverRelay(i) =>
      if i < |y.relay| && i <= y.relaySeen && i !in y.missed {
        match y.relay[i]
        case FileAccept(_) => HearSetup(a, y, i);
        case RtcOffer => HearSetup(a, y, i);
        case FileChunk(_) => HearChunk(a, y, i);
        case FileDone => HearDone(a, y, i);
        case SenderError => HearGoodbye(a, y, i);
        case SenderCancel => HearGoodbye(a, y, i);
      }
    case LoseRelay => LoseRelayInv(a, y);
    case LoseBack => if y.backSeen < |y.back| { BackBumpInv(a, y, y.backSeen); }
    case DeliverDirect =>
      if y.r.attached && y.directSeen < |y.direct| {
        match y.direct[y.directSeen]
        case Header(_) => TakeHeader(a, y);
        case Data(_) => TakeData(a, y);
        case Fin => TakeFin(a, y);
      }
    case DeliverBack(j) =>
      if j < |y.back| && j <= y.backSeen {
        HearBackInv(a, y, j);
      }
  }

  /** A lost chunk leaves its mark unset; a lost end leaves the requester collecting. */
  lemma LoseRelayInv(a: Attempt, y: System)
    requires Legal(a) && Inv(a, y)
    ensures Inv(a, Next(a, y, LoseRelay))
  {
    hide ChunkCount, WellFormed, SenderInv, AgreementInv, PlanFor, RxFollows, Excused;
    if y.relaySeen < |y.relay| {
      var z := Missed(y);
      SenderBounds(a, y);
      SenderFrame(a, y, z);
      BackGrows(a, y, z);
      if !y.r.done && y.r.rx.Some? { MissedRx(a, y, y.r.rx.value); }
      if y.r.result.Lost? { ExcusedGrows(y, z, y.r.result.why); }
    }
  }

  lemma MissedRx(a: Attempt, y: System, x: Rx)
    requires Legal(a) && RxFollows(a, y, x)
    ensures RxFollows(a, Missed(y), x)
  {
    hide Matches, ChunkCount;
  }

  lemma ConnectInv(a: Attempt, y: System)
    requires Legal(a) && Inv(a, y)
    ensures Inv(a, Next(a, y, Connect))
  {
    hide ChunkCount, Matches, WellFormed, SenderInv, AgreementInv, LossInv, RxFollows, PlanFor;
    var z := Next(a, y, Connect);
    SenderBounds(a, y);
    SenderFrame(a, y, z);
    BackGrows(a, y, z);
    LossFrame(y, z);
    if !y.r.done && y.r.rx.Some? {
      RxFrame(a, y, z, y.r.rx.value);
    }
  }

  function BackBumped(y: System, j: nat): System {
    y.(backSeen := if j == y.backSeen then j + 1 else y.backSeen)
  }

  lemma BackBumpInv(a: Attempt, y: System, j: nat)
    requires Legal(a) && Inv(a, y) && j < |y.back| && j <= y.backSeen
    ensures Inv(a, BackBumped(y, j))
  {
    hide ChunkCount, Matches, WellFormed, SenderInv, AgreementInv, LossInv, RxFollows, PlanFor;
    SenderBounds(a, y);
    SenderFrame(a, y, BackBumped(y, j));
    BackGrows(a, y, BackBumped(y, j));
    LossFrame(y, BackBumped(y, j));
    if !y.r.done && y.r.rx.Some? {
      RxFrame(a, y, BackBumped(y, j), y.r.rx.value);
    }
  }

  lemma HearBackInv(a: Attempt, y: System, j: nat)
    requires Legal(a) && Inv(a, y) && j < |y.back| && j <= y.backSeen
    ensures Inv(a, AfterSender(a, BackBumped(y, j), HearBack(y.back[j])))
  {
    BackBumpInv(a, y, j);
    SenderStepInv(a, BackBumped(y, j), HearBack(y.back[j]));
  }

  lemma NextOk(a: Attempt, y: System, e: Event)
    requires Legal(a) && ReceiverOk(y.r)
    ensures ReceiverOk(Next(a, y, e).r)
  {
    hide ChunkCount, Judge, SenderStep, WellFormed, FinishResult;
    match e {
      case AtReceiver(re) => StepOk(y.r, re);
      case DeliverRelay(i) => if i < |y.relay| { StepOk(y.r, Hear(y.relay[i], Some(|a.file|))); }
      case DeliverDirect => if y.directSeen < |y.direct| { StepOk(y.r, Take(y.direct[y.directSeen], Some(|a.file|))); }
      case _ =>
    }
    hide ReceiverStep;
  }

  lemma TakeChunkOk(r: Receiver, m: Message)
    requires ReceiverOk(r)
    ensures ReceiverOk(TakeChunk(r, m).0)
  {
    hide ChunkCount, Judge, FinishResult, WellFormed;
  }

  lemma HearOk(r: Receiver, frame: RelayFrame, announced: Option<nat>)
    requires ReceiverOk(r)
    ensures ReceiverOk(HearStep(r, frame, announced).0)
  {
    hide ChunkCount, TakeChunk, FinishResult, WellFormed;
    if frame.FileChunk? {
      TakeChunkOk(r, frame.chunk);
      TakeChunkOk(CloseRtc(r).(path := Relay), frame.chunk);
    }
  }

  lemma TakeOk(r: Receiver, message: ChannelMessage, announced: Option<nat>)
    requires ReceiverOk(r)
    ensures ReceiverOk(TakeStep(r, message, announced).0)
  {
    hide ChunkCount, TakeChunk, FinishResult, WellFormed;
    if message.Data? { TakeChunkOk(r, message.chunk); }
  }

  lemma StepOk(r: Receiver, e: ReceiverEvent)
    requires ReceiverOk(r)
    ensures ReceiverOk(ReceiverStep(r, e).0)
  {
    hide HearStep, TakeStep, WellFormed, ReceiverFinish, ReceiverAbort, CloseRtc;
    match e {
      case Hear(frame, announced) => HearOk(r, frame, announced);
      case Take(message, announced) => TakeOk(r, message, announced);
      case _ => LocalOk(r, e);
    }
  }

  /** Only the plan and the reassembler matter, and no other step touches them but to let go. */
  predicate Keeps(r: Receiver, r2: Receiver) {
    r2.meta == r.meta && (r2.rx.Some? ==> r2.rx == r.rx)
  }

  lemma FinishKeeps(r: Receiver, result: Result, why: Why)
    ensures Keeps(r, ReceiverFinish(r, result)) && Keeps(r, ReceiverAbort(r, why).0) && Keeps(r, CloseRtc(r))
  {
  }

  lemma LocalOk(r: Receiver, e: ReceiverEvent)
    requires ReceiverOk(r) && !e.Hear? && !e.Take?
    ensures Keeps(r, ReceiverStep(r, e).0)
  {
    hide HearStep, TakeStep, WellFormed, ReceiverFinish, ReceiverAbort, CloseRtc, FinishResult;
    FinishKeeps(r, Withdrawn, Dropped);
    FinishKeeps(r, Lost(NoAnswer), Stalled);
    if e.DigestDone? && r.verifying.Some? {
      var r1, v := r.(verifying := None), r.verifying.value;
      if v.Whole? { FinishKeeps(r1, Saved(v.bytes), Dropped); } else { FinishKeeps(r1, Lost(BadFile(v)), Dropped); }
    }
  }

  /** The state after any list of events: any interleaving of timers, callbacks and deliveries. */
  function Run(a: Attempt, events: seq<Event>): (y: System)
    requires Legal(a)
    ensures ReceiverOk(y.r)
    decreases |events|
  {
    if events == [] then Start(a)
    else
      var n := |events| - 1;
      NextOk(a, Run(a, events[..n]), events[n]);
      Next(a, Run(a, events[..n]), events[n])
  }

  lemma {:induction false} RunInv(a: Attempt, events: seq<Event>)
    requires Legal(a)
    ensures Inv(a, Run(a, events))
    decreases |events|
  {
    hide Inv, Next, Start;
    if events == [] {
      StartInv(a);
    } else {
      var n := |events| - 1;
      RunInv(a, events[..n]);
      NextInv(a, Run(a, events[..n]), events[n]);
    }
  }

  /**
   Safety of an attempt, for every interleaving and whatever the relay loses. A stored
   file is the source byte for byte. A confirmed "Sent" means the other side has stored
   it. And an honest attempt is never lost to a refused chunk or a wrong digest: beside
   a drop, a stall, a timeout or the other side giving up it takes a lost relay frame,
   the acceptance for a missing header or an empty end, a chunk for missing chunks.
   */
  lemma {:induction false} AttemptIsSafe(a: Attempt, events: seq<Event>)
    requires Legal(a)
    ensures var y := Run(a, events);
            && (y.r.result.Saved? ==> y.r.result.bytes == a.file)
            && (y.s.report.SentConfirmed? ==> y.r.result == Saved(a.file))
            && |y.relay| > 0
            && (y.r.result.Lost? ==>
                  match y.r.result.why
                  case NoHeader => 0 in y.missed && y.relay[0].FileAccept?
                  case NothingCame => 0 in y.missed && y.relay[0].FileAccept?
                  case ChunksMissing => exists i :: 0 <= i < |y.relay| && i in y.missed && y.relay[i].FileChunk?
                  case _ => y.r.result.why in {Dropped, Stalled, NoAnswer, PeerFailed})
  {
    hide Run, ReceiverOk, RelayStream, DirectStream, RelayIdle, PlanFor, EndHeard;
    RunInv(a, events);
    var y := Run(a, events);
    SenderBounds(a, y);
  }

  /** Without a lost relay frame an attempt is only ever lost by losing touch. */
  lemma {:induction false} LostOnlyByLosing(a: Attempt, events: seq<Event>)
    requires Legal(a) && LoseRelay !in events
    ensures Run(a, events).missed == {} && (Run(a, events).r.result.Lost? ==> OutOfTouch(Run(a, events).r.result))
  {
    hide Run;
    NothingMissed(a, events);
    AttemptIsSafe(a, events);
  }

  lemma {:induction false} NothingMissed(a: Attempt, events: seq<Event>)
    requires Legal(a) && LoseRelay !in events
    ensures Run(a, events).missed == {}
    decreases |events|
  {
    hide ReceiverStep, SenderStep;
    if events != [] {
      NothingMissed(a, events[..|events| - 1]);
    }
  }

  /** File bytes travel on one path only, and the choice is never taken back. */
  lemma {:induction false} OnePath(a: Attempt, events: seq<Event>, e: Event)
    requires Legal(a)
    ensures var y := Run(a, events);
            && (!y.s.path.Undecided? ==> Next(a, y, e).s.path == y.s.path)
            && (y.direct != [] ==> y.s.path.P2P?)
            && forall i :: 0 <= i < |y.relay| && y.relay[i].FileChunk? ==> y.s.path.Relay?
  {
    hide ChunkCount, Matches, WellFormed, Cut, PlanFor, ReceiverStep, SenderStep, SenderInv, RxFollows;
    RunInv(a, events);
    var y := Run(a, events);
    SenderBounds(a, y);
    forall i | 0 <= i < |y.relay| && y.relay[i].FileChunk?
      ensures y.s.path.Relay?
    {
      RelayPlaces(a, y, i);
    }
    if y.direct != [] {
      DirectPlaces(a, y, 0);
    }
    if !y.s.path.Undecided? {
      match e
      case AtSender(se) => PathStays(a, y.s, se);
      case DeliverBack(j) => if j < |y.back| { PathStays(a, y.s, HearBack(y.back[j])); }
      case _ =>
    }
  }

  /** Every chunk of the relay plan has arrived. */
  ghost predicate AllCame(a: Attempt, y: System)
    requires Legal(a)
  {
    forall i :: y.base <= i < y.base + ChunkCount(|a.file|, a.relayChunk) ==> Came(y, i)
  }

  /**
   Nobody who has heard an end is left collecting, and who has heard every chunk needs
   no end: whatever else was lost, what came whole is not left hanging.
   */
  lemma {:induction false} DeliveredIsVerified(a: Attempt, events: seq<Event>)
    requires Legal(a)
    ensures var y := Run(a, events);
            && (forall i :: 0 <= i < |y.relay| && Came(y, i) && Closing(y.relay[i]) ==> y.r.done)
            && (y.s.path.Relay? && ChunkCount(|a.file|, a.relayChunk) > 0 && AllCame(a, y) ==> y.r.done)
            && (y.s.path.P2P? && y.directSeen > ChunkCount(|a.file|, a.directChunk) ==> y.r.done)
  {
    hide Run, ChunkCount, Matches, WellFormed, SenderInv, RxFollows, AgreementInv;
    RunInv(a, events);
    var y := Run(a, events);
    if !y.r.done {
      if y.s.path.Relay? && ChunkCount(|a.file|, a.relayChunk) > 0 && AllCame(a, y) {
        StillCollecting(a, y);
      }
      if y.s.path.P2P? && y.directSeen > ChunkCount(|a.file|, a.directChunk) && y.r.rx.Some? {
        AllDirectChunksMeanComplete(a, y, y.r.rx.value);
      }
    }
  }

  lemma StillCollecting(a: Attempt, y: System)
    requires Legal(a) && Inv(a, y) && !y.r.done && y.s.path.Relay? && ChunkCount(|a.file|, a.relayChunk) > 0
    ensures !AllCame(a, y)
  {
    hide ChunkCount, Matches, WellFormed, SenderInv, AgreementInv, LossInv;
    var last := y.base + ChunkCount(|a.file|, a.relayChunk) - 1;
    RelayBase(a, y);
    if AllCame(a, y) {
      assert Came(y, y.base) && Came(y, last);
      assert y.base !in y.missed;
      if y.r.rx.Some? {
        RelayRx(a, y);
        assert forall i :: y.base <= i < y.base + ChunkCount(|a.file|, a.relayChunk) && i in y.missed ==> !Came(y, i);
        CompleteIfNoneLost(a, y, y.r.rx.value);
      }
    }
  }

  // ------------------------------------------------------------------
  // The relay's losses do end attempts.
  // ------------------------------------------------------------------

  lemma Unfold(a: Attempt, events: seq<Event>, e: Event)
    requires Legal(a)
    ensures Run(a, events + [e]) == Next(a, Run(a, events), e)
  {
    assert (events + [e])[..|events|] == events;
  }

  lemma AcceptStep(a: Attempt)
    requires Legal(a)
    ensures var p := PlanFor(a.file, a.relayChunk);
            && p.chunkBytes > 0
            && Next(a, Start(a), DeliverRelay(0)) ==
                 Start(a).(relaySeen := 1, r := Start(a).r.(deadline := false, meta := Some(p)))
  {
    HonestPlan(a, a.relayChunk);
    hide ChunkCount, PlanAccepted;
  }

  /** The race cannot be built, so the holder is on the relay at once. */
  lemma FallBackStep(a: Attempt, y: System)
    requires Legal(a) && ReceiverOk(y.r) && y.s == Start(a).s
    ensures Next(a, y, AtSender(RaceStarts(false))) == y.(s := y.s.(path := Relay), channel := Closed, base := |y.relay|)
  {
    hide PlanFor, WellFormed;
  }

  lemma ChunkStep(a: Attempt, y: System)
    requires Legal(a) && ReceiverOk(y.r) && y.s.path.Relay? && !y.s.done && !y.s.waiting
    requires y.s.next < ChunkCount(|a.file|, a.relayChunk)
    ensures Next(a, y, AtSender(RelayTurn(true))) ==
              y.(s := y.s.(next := y.s.next + 1), relay := y.relay + [FileChunk(Cut(a.file, a.relayChunk, y.s.next))])
  {
    hide PlanFor, WellFormed, ChunkCount, Cut;
  }

  lemma EndMarkStep(a: Attempt, y: System)
    requires Legal(a) && ReceiverOk(y.r) && y.s.path.Relay? && !y.s.done && !y.s.waiting
    requires y.s.next == ChunkCount(|a.file|, a.relayChunk)
    ensures Next(a, y, AtSender(RelayTurn(true))) == y.(s := y.s.(waiting := true), relay := y.relay + [FileDone])
  {
    hide PlanFor, WellFormed, ChunkCount;
  }

  /** The end mark as a step of the whole system. */
  lemma EndMarkResult(a: Attempt, y: System, i: nat)
    requires Legal(a) && Inv(a, y) && i < |y.relay| && i <= y.relaySeen && i !in y.missed
    requires y.relay[i].FileDone? && !y.r.done
    ensures Next(a, y, DeliverRelay(i)).r.result ==
              if y.r.rx.None? && y.r.meta.None? then Lost(NothingCame)
              else if NoChunkLost(a, y) then NoResult
              else Lost(ChunksMissing)
  {
    hide ChunkCount, Matches, WellFormed, FinishResult, SenderInv, AgreementInv, LossInv, RxFollows, PlanFor, HearStep, NoChunkLost;
    FileDoneDecides(a, y, i);
  }

  const LostChunk := [DeliverRelay(0), AtSender(RaceStarts(false)), AtSender(RelayTurn(true)), LoseRelay, AtSender(RelayTurn(true))]

  lemma OneChunk(a: Attempt)
    requires Legal(a) && 0 < |a.file| <= a.relayChunk
    ensures ChunkCount(|a.file|, a.relayChunk) == 1
  {
    DivisionIsOne(|a.file| + a.relayChunk - 1, a.relayChunk);
  }

  lemma DivisionIsOne(n: nat, d: nat)
    requires 0 < d <= n < 2 * d
    ensures n / d == 1
  {
    assert n - d == 0 * d + (n - d);
  }

  lemma LostChunkRun(a: Attempt)
    requires Legal(a) && 0 < |a.file| <= a.relayChunk
    ensures var y := Run(a, LostChunk);
            && y.relay == [FileAccept(PlanFor(a.file, a.relayChunk)), FileChunk(Cut(a.file, a.relayChunk, 0)), FileDone]
            && y.relaySeen == 2 && y.missed == {1} && y.base == 1
            && !y.r.done && y.r.meta.Some?
  {
    hide Run, Next, ChunkCount, PlanFor, Cut;
    OneChunk(a);
    var y0 := Run(a, []);
    assert y0 == Start(a) by { RunOfNothing(a); }
    Unfold(a, [], LostChunk[0]);
    AcceptStep(a);
    var y1 := Run(a, [] + [LostChunk[0]]);
    Unfold(a, LostChunk[..1], LostChunk[1]);
    assert LostChunk[..1] == [] + [LostChunk[0]];
    FallBackStep(a, y1);
    var y2 := Run(a, LostChunk[..1] + [LostChunk[1]]);
    assert LostChunk[..2] == LostChunk[..1] + [LostChunk[1]];
    Unfold(a, LostChunk[..2], LostChunk[2]);
    ChunkStep(a, y2);
    var y3 := Run(a, LostChunk[..2] + [LostChunk[2]]);
    assert LostChunk[..3] == LostChunk[..2] + [LostChunk[2]];
    Unfold(a, LostChunk[..3], LostChunk[3]);
    LoseStep(a, y3);
    var y4 := Run(a, LostChunk[..3] + [LostChunk[3]]);
    assert LostChunk[..4] == LostChunk[..3] + [LostChunk[3]];
    Unfold(a, LostChunk[..4], LostChunk[4]);
    EndMarkStep(a, y4);
    assert LostChunk == LostChunk[..4] + [LostChunk[4]];
  }

  lemma RunOfNothing(a: Attempt)
    requires Legal(a)
    ensures Run(a, []) == Start(a)
  {
  }

  lemma LoseStep(a: Attempt, y: System)
    requires Legal(a) && ReceiverOk(y.r) && y.relaySeen < |y.relay|
    ensures Next(a, y, LoseRelay) == Missed(y)
  {
  }

  /** A file of one chunk, which is lost while every send was accepted: the end mark ends the attempt. */
  lemma {:induction false} LostChunkEndsIt(a: Attempt)
    requires Legal(a) && 0 < |a.file| <= a.relayChunk
    ensures Run(a, LostChunk + [DeliverRelay(2)]).r.result == Lost(ChunksMissing)
  {
    hide Run, Next, ChunkCount, PlanFor, Inv;
    LostChunkRun(a);
    OneChunk(a);
    Unfold(a, LostChunk, DeliverRelay(2));
    RunInv(a, LostChunk);
    EndMarkResult(a, Run(a, LostChunk), 2);
  }

  const LostPlan := [LoseRelay, AtSender(RaceStarts(false)), AtSender(RelayTurn(true))]

  lemma LostPlanRun(a: Attempt)
    requires Legal(a)
    ensures var y := Run(a, LostPlan);
            && |y.relay| == 2 && y.relaySeen == 1 && y.missed == {0} && y.r == Start(a).r
            && (if ChunkCount(|a.file|, a.relayChunk) > 0 then y.relay[1].FileChunk? else y.relay[1].FileDone?)
  {
    hide Run, Next, ChunkCount, PlanFor, Cut;
    RunOfNothing(a);
    Unfold(a, [], LostPlan[0]);
    LoseStep(a, Start(a));
    assert LostPlan[..1] == [] + [LostPlan[0]];
    Unfold(a, LostPlan[..1], LostPlan[1]);
    FallBackStep(a, Run(a, LostPlan[..1]));
    assert LostPlan[..2] == LostPlan[..1] + [LostPlan[1]];
    Unfold(a, LostPlan[..2], LostPlan[2]);
    var y2 := Run(a, LostPlan[..2]);
    if ChunkCount(|a.file|, a.relayChunk) > 0 { ChunkStep(a, y2); } else { EndMarkStep(a, y2); }
    assert LostPlan == LostPlan[..2] + [LostPlan[2]];
  }

  /** The acceptance is lost: the first chunk finds no plan, or the end of an empty file nothing at all. */
  lemma {:induction false} LostPlanEndsIt(a: Attempt)
    requires Legal(a)
    ensures Run(a, LostPlan + [DeliverRelay(1)]).r.result == Lost(if a.file == [] then NothingCame else NoHeader)
  {
    hide Run, Next, ChunkCount, PlanFor, Inv, Start;
    LostPlanRun(a);
    CountZero(a);
    Unfold(a, LostPlan, DeliverRelay(1));
    RunInv(a, LostPlan);
    UnplannedStep(a, Run(a, LostPlan));
  }

  lemma CountZero(a: Attempt)
    requires Legal(a)
    ensures ChunkCount(|a.file|, a.relayChunk) == 0 <==> a.file == []
  {
  }

  lemma UnplannedStep(a: Attempt, y: System)
    requires Legal(a) && y.r == Start(a).r && |y.relay| == 2 && y.relaySeen == 1 && y.missed == {0}
    requires y.relay[1].FileChunk? || y.relay[1].FileDone?
    ensures Next(a, y, DeliverRelay(1)).r.result == Lost(if y.relay[1].FileDone? then NothingCame else NoHeader)
  {
    hide ChunkCount, PlanFor;
  }
}
