/**
 The client's session: src/main.js `openSession`, `leaveRoom`, `sendText`, `sendClip`,
 `flushQueuedClip`, `sendStream`, `sealedSender` and `onFrame`. Deriving a key, sealing
 a frame and opening one all take time, and the session may have moved on meanwhile.

 Encryption is ideal: a room stands for its own key, and a sealed frame names the key
 it was sealed under. Sealing with no key leaves a frame in the clear, as the code does.
 */
module Session {

  import opened Options

  type RoomId = nat

  datatype Phase = Waiting | Sealing(key: Option<RoomId>)

  /**
   A frame on its way out. History: `room` and `shared` are the key and the rung at its
   issue, or at the commit of a clip that had to wait, and `sealGen` is the session in
   which its seal began.
   */
  datatype Job = Job(num: nat, gen: nat, room: Option<RoomId>, shared: bool, phase: Phase, sealGen: nat)

  /** A clip committed too early, with its session; `room` is history: the key at the commit, if there was one. */
  datatype Queued = Queued(gen: nat, room: Option<RoomId>)

  /** A frame on the wire, and how it got there. `sender` is None outside the tails. */
  datatype Sent = Sent(sender: Option<nat>, job: Job, sentGen: nat, channel: RoomId, sharing: bool)

  /**
   An inbound frame being opened. A clip acts where it is checked. Any other frame counts
   as proof of the key there and goes on to its handler by the return of `openFrame`, which
   the awaiting caller takes up before any other task of the browser can run.
   */
  datatype Opening = Opening(gen: nat, key: RoomId, channel: RoomId, clip: bool)
  datatype Kind = Acted | Proved | HandedOn
  datatype Effect = Effect(opening: Opening, gen: nat, key: Option<RoomId>, kind: Kind)

  /** `tails[CLIPS]` is the clip sender's queue; the others are the sealed senders'. */
  datatype State = State(
    gen: nat, key: Option<RoomId>, target: Option<RoomId>, up: bool, sharing: bool, queuedClip: Option<Queued>,
    deriving: map<nat, RoomId>, tails: seq<seq<Job>>, loose: map<nat, Job>, opening: map<nat, Opening>,
    next: nat, wire: seq<Sent>, effects: seq<Effect>)

  const CLIPS: nat := 0

  function Idle(senders: nat): State {
    State(0, None, None, false, true, None, map[], seq(senders, _ => []), map[], map[], 0, [], [])
  }

  // ------------------------------------------------------------------
  // The session.
  // ------------------------------------------------------------------

  function OpenSession(y: State, room: RoomId): State {
    y.(gen := y.gen + 1, deriving := y.deriving[y.gen + 1 := room])
  }

  /** The derivation that began in session `gen` has finished. */
  function Derived(y: State, gen: nat): State
    requires gen in y.deriving
  {
    var y1 := y.(deriving := y.deriving - {gen});
    if gen != y.gen then y1
    else y1.(key := Some(y.deriving[gen]), target := Some(y.deriving[gen]), up := false)
  }

  function LeaveRoom(y: State): State {
    y.(gen := y.gen + 1, target := None, up := false, key := None, queuedClip := None)
  }

  // ------------------------------------------------------------------
  // Outbound.
  // ------------------------------------------------------------------

  function Enqueue(y: State, s: nat, room: Option<RoomId>): State
    requires s < |y.tails|
  {
    y.(tails := y.tails[s := y.tails[s] + [Job(y.next, y.gen, room, y.sharing, Waiting, y.gen)]], next := y.next + 1)
  }

  function SendText(y: State): State
    requires |y.tails| > 0
  {
    if !y.sharing then y
    else if y.key.None? || !y.up then y.(queuedClip := Some(Queued(y.gen, y.key)))
    else Enqueue(y, CLIPS, y.key)
  }

  function FlushQueuedClip(y: State): State
    requires |y.tails| > 0
  {
    if y.queuedClip.None? then y
    else
      var y1 := y.(queuedClip := None);
      if y.queuedClip.value.gen != y.gen || !y.sharing then y1 else Enqueue(y1, CLIPS, y.queuedClip.value.room)
  }

  function Issue(y: State, s: nat): State
    requires s < |y.tails|
  {
    if !y.sharing || !y.up then y else Enqueue(y, s, y.key)
  }

  function Popped(y: State, s: nat): State
    requires s < |y.tails| && |y.tails[s]| > 0
  {
    y.(tails := y.tails[s := y.tails[s][1..]])
  }

  /** The first job of a tail gets its turn: its seal begins, under the key there is now. */
  function Seal(y: State, s: nat): State
    requires s < |y.tails| && |y.tails[s]| > 0
  {
    var job := y.tails[s][0];
    if job.gen != y.gen then Popped(y, s)
    else if s == CLIPS && (y.key.None? || !y.up) then Popped(y, s).(queuedClip := Some(Queued(job.gen, job.room)))
    else if s != CLIPS && !y.sharing then Popped(y, s)
    else y.(tails := y.tails[s := [job.(phase := Sealing(y.key), sealGen := y.gen)] + y.tails[s][1..]])
  }

  /** Its seal is done, or failed: send it if this is still the session, and still sharing. */
  function Finish(y: State, s: nat, ok: bool): State
    requires s < |y.tails| && |y.tails[s]| > 0
  {
    var job := y.tails[s][0];
    if ok && job.gen == y.gen && y.sharing then Transmit(Popped(y, s), Some(s), job) else Popped(y, s)
  }

  /** A channel that is not open takes nothing. */
  function Transmit(y: State, sender: Option<nat>, job: Job): State {
    if !y.up || y.target.None? then y
    else y.(wire := y.wire + [Sent(sender, job, y.gen, y.target.value, y.sharing)])
  }

  /** A stream frame, a goodbye or a proof: sealed at once, in no queue. */
  function SendLoose(y: State): State {
    if !y.sharing || y.key.None? || !y.up then y
    else y.(loose := y.loose[y.next := Job(y.next, y.gen, y.key, y.sharing, Sealing(y.key), y.gen)], next := y.next + 1)
  }

  function FinishLoose(y: State, k: nat, ok: bool): State
    requires k in y.loose
  {
    var job := y.loose[k];
    var y1 := y.(loose := y.loose - {k});
    if ok && job.gen == y.gen && y.sharing then Transmit(y1, None, job) else y1
  }

  // ------------------------------------------------------------------
  // Inbound.
  // ------------------------------------------------------------------

  /** A frame arrives on the open channel, sealed under that room's key. */
  function OnFrame(y: State, clip: bool): State {
    if y.key.None? || !y.up || y.target.None? then y
    else y.(opening := y.opening[y.next := Opening(y.gen, y.key.value, y.target.value, clip)], next := y.next + 1)
  }

  /** It opens, if the key fits, and counts only in the session it arrived in. */
  function Opened(y: State, k: nat): State
    requires k in y.opening
  {
    var o := y.opening[k];
    var y1 := y.(opening := y.opening - {k});
    if o.gen != y.gen || o.key != o.channel then y1
    else y1.(effects := y.effects + (if o.clip then [Effect(o, y.gen, y.key, Acted)]
                                     else [Effect(o, y.gen, y.key, Proved), Effect(o, y.gen, y.key, HandedOn)]))
  }

  datatype Event =
    | Opens(room: RoomId)
    | DerivationEnds(gen: nat)
    | Leaves
    | Connects
    | Drops
    | Shares(sharing: bool)
    | Commits
    | Flushes
    | Issues(s: nat)
    | Seals(s: nat)
    | Finishes(s: nat, ok: bool)
    | Streams
    | StreamEnds(k: nat, ok: bool)
    | Arrives(clip: bool)
    | OpenEnds(k: nat)

  predicate Turn(y: State, s: nat) {
    s < |y.tails| && |y.tails[s]| > 0
  }

  predicate Possible(y: State, e: Event) {
    match e
    case DerivationEnds(gen) => gen in y.deriving
    case Connects => y.target.Some?
    case Commits => |y.tails| > 0
    case Flushes => |y.tails| > 0 && y.up
    case Issues(s) => s < |y.tails| && s != CLIPS
    case Seals(s) => Turn(y, s) && y.tails[s][0].phase.Waiting?
    case Finishes(s, _) => Turn(y, s) && y.tails[s][0].phase.Sealing?
    case StreamEnds(k, _) => k in y.loose
    case OpenEnds(k) => k in y.opening
    case _ => true
  }

  function Next(y: State, e: Event): State
    requires Possible(y, e)
  {
    match e
    case Opens(room) => OpenSession(y, room)
    case DerivationEnds(gen) => Derived(y, gen)
    case Leaves => LeaveRoom(y)
    case Connects => y.(up := true)
    case Drops => y.(up := false)
    case Shares(sharing) => y.(sharing := sharing)
    case Commits => SendText(y)
    case Flushes => FlushQueuedClip(y)
    case Issues(s) => Issue(y, s)
    case Seals(s) => Seal(y, s)
    case Finishes(s, ok) => Finish(y, s, ok)
    case Streams => SendLoose(y)
    case StreamEnds(k, ok) => FinishLoose(y, k, ok)
    case Arrives(clip) => OnFrame(y, clip)
    case OpenEnds(k) => Opened(y, k)
  }

  /** The room is left before another is opened. */
  predicate LeftFirst(y: State, e: Event) {
    e.Opens? ==> y.key.None? && y.target.None?
  }

  // ------------------------------------------------------------------
  // What a frame on the wire, and an effect, should be.
  // ------------------------------------------------------------------

  /**
   Issued, sealed and sent in one session, under the key of the room it was sent to, while
   sharing. Only a clip may be older than the key of its session.
   */
  predicate Faithful(w: Sent) {
    && w.job.gen == w.job.sealGen == w.sentGen
    && w.job.phase == Sealing(Some(w.channel))
    && (w.job.room == Some(w.channel) || (w.job.room == None && w.sender == Some(CLIPS)))
    && w.job.shared && w.sharing
  }

  predicate Timely(e: Effect) {
    e.opening.gen == e.gen && e.key == Some(e.opening.key) && e.opening.key == e.opening.channel
  }

  // ------------------------------------------------------------------
  // The invariant.
  // ------------------------------------------------------------------

  ghost predicate KeyInv(y: State) {
    && y.key == y.target
    && (y.up ==> y.target.Some?)
    && (y.key.Some? ==> y.gen !in y.deriving)
    && (forall g :: g in y.deriving ==> g <= y.gen)
  }

  ghost predicate JobInv(y: State, j: Job) {
    && j.gen <= y.gen && j.num < y.next && j.shared
    && (j.gen == y.gen && j.room.Some? ==> y.key == j.room)
    && (j.phase.Sealing? ==> SealInPlace(y, j))
  }

  ghost predicate SealInPlace(y: State, j: Job)
    requires j.phase.Sealing?
  {
    && j.sealGen == j.gen && j.phase.key.Some?
    && (j.room.Some? ==> j.phase.key == j.room)
    && (j.gen == y.gen ==> y.key == j.phase.key)
  }

  ghost predicate TailInv(y: State, s: nat, j: Job) {
    JobInv(y, j) && (s != CLIPS ==> j.room.Some?)
  }

  ghost predicate QueuedInv(y: State) {
    y.queuedClip.Some? ==>
      && y.queuedClip.value.gen <= y.gen
      && (y.queuedClip.value.gen == y.gen && y.queuedClip.value.room.Some? ==> y.key == y.queuedClip.value.room)
  }

  ghost predicate JobsInv(y: State) {
    && (forall s, i :: 0 <= s < |y.tails| && 0 <= i < |y.tails[s]| ==> TailInv(y, s, y.tails[s][i]))
    && (forall k :: k in y.loose ==> JobInv(y, y.loose[k]) && y.loose[k].phase.Sealing? && y.loose[k].room.Some?)
  }

  ghost predicate Fitting(y: State, o: Opening) {
    && o.gen <= y.gen && o.key == o.channel
    && (o.gen == y.gen ==> y.key == Some(o.key))
  }

  ghost predicate OpeningInv(y: State) {
    forall k :: k in y.opening ==> Fitting(y, y.opening[k])
  }

  ghost predicate HistoryInv(y: State) {
    && (forall i :: 0 <= i < |y.wire| ==> Faithful(y.wire[i]))
    && (forall i :: 0 <= i < |y.effects| ==> Timely(y.effects[i]))
  }

  ghost predicate OrderInv(y: State) {
    && (forall s, i, j :: 0 <= s < |y.tails| && 0 <= i < j < |y.tails[s]| ==> y.tails[s][i].num < y.tails[s][j].num)
    && (forall s, i, k :: 0 <= s < |y.tails| && 0 <= i < |y.tails[s]| && 0 <= k < |y.wire| && y.wire[k].sender == Some(s) ==>
          y.wire[k].job.num < y.tails[s][i].num)
    && (forall k :: 0 <= k < |y.wire| ==> y.wire[k].job.num < y.next)
    && InOrder(y.wire)
  }

  /** Each tail's frames are on the wire in the order they were issued. */
  ghost predicate InOrder(wire: seq<Sent>) {
    forall i, j :: 0 <= i < j < |wire| && wire[i].sender.Some? && wire[i].sender == wire[j].sender ==>
      wire[i].job.num < wire[j].job.num
  }

  ghost predicate Inv(y: State) {
    KeyInv(y) && JobsInv(y) && QueuedInv(y) && OpeningInv(y) && HistoryInv(y) && OrderInv(y)
  }

  // ------------------------------------------------------------------
  // Every step keeps it.
  // ------------------------------------------------------------------

  /** Only the session moved on: nothing of an older session counts as this one's. */
  lemma MovedOn(y: State, z: State)
    requires Inv(y) && z.gen == y.gen + 1 && KeyInv(z) && QueuedInv(z)
    requires z == y.(gen := z.gen, key := z.key, target := z.target, up := z.up, queuedClip := z.queuedClip, deriving := z.deriving)
    ensures Inv(z)
  {
    forall s, i | 0 <= s < |z.tails| && 0 <= i < |z.tails[s]|
      ensures TailInv(z, s, z.tails[s][i])
    {
      assert TailInv(y, s, y.tails[s][i]);
    }
  }

  /** The key and the frames stayed. */
  lemma SameFrames(y: State, z: State)
    requires Inv(y) && KeyInv(z) && QueuedInv(z) && z.gen == y.gen && z.key == y.key && z.next >= y.next
    requires z.tails == y.tails && z.loose == y.loose && z.wire == y.wire && OpeningInv(z) && HistoryInv(z)
    ensures Inv(z)
  {
    forall s, i | 0 <= s < |z.tails| && 0 <= i < |z.tails[s]|
      ensures TailInv(z, s, z.tails[s][i])
    {
      assert TailInv(y, s, y.tails[s][i]);
    }
  }

  /** A key is derived for a session that had none, so none of its frames was issued yet. */
  lemma DerivedInv(y: State, gen: nat)
    requires Inv(y) && gen in y.deriving
    ensures Inv(Derived(y, gen))
  {
    hide OrderInv, HistoryInv;
    var z := Derived(y, gen);
    if gen == y.gen {
      forall s, i | 0 <= s < |z.tails| && 0 <= i < |z.tails[s]|
        ensures TailInv(z, s, z.tails[s][i])
      {
        assert TailInv(y, s, y.tails[s][i]);
      }
      SameOrder(y, z);
    } else {
      SameOrder(y, z);
      SameFrames(y, z);
    }
  }

  lemma SameOrder(y: State, z: State)
    requires z.tails == y.tails && z.wire == y.wire && z.effects == y.effects && z.next == y.next
    ensures OrderInv(y) ==> OrderInv(z)
    ensures HistoryInv(y) ==> HistoryInv(z)
  {
  }

  lemma EnqueueInv(y: State, s: nat, room: Option<RoomId>)
    requires Inv(y) && s < |y.tails| && y.sharing
    requires (room == y.key && room.Some?) || (room.None? && s == CLIPS)
    ensures Inv(Enqueue(y, s, room))
  {
    hide OrderInv, HistoryInv;
    var z := Enqueue(y, s, room);
    forall t, i | 0 <= t < |z.tails| && 0 <= i < |z.tails[t]|
      ensures TailInv(z, t, z.tails[t][i])
    {
      if t != s || i < |y.tails[s]| {
        assert z.tails[t][i] == y.tails[t][i];
        assert TailInv(y, t, y.tails[t][i]);
      }
    }
    EnqueueOrder(y, s, room);
  }

  lemma EnqueueOrder(y: State, s: nat, room: Option<RoomId>)
    requires JobsInv(y) && OrderInv(y) && HistoryInv(y) && s < |y.tails|
    ensures OrderInv(Enqueue(y, s, room)) && HistoryInv(Enqueue(y, s, room))
  {
    hide Faithful, Timely;
    var z := Enqueue(y, s, room);
    forall t, i | 0 <= t < |y.tails| && 0 <= i < |y.tails[t]|
      ensures y.tails[t][i].num < y.next
    {
      assert TailInv(y, t, y.tails[t][i]);
    }
    assert forall t, i :: 0 <= t < |z.tails| && 0 <= i < |z.tails[t]| && (t != s || i < |y.tails[s]|) ==> z.tails[t][i] == y.tails[t][i];
  }

  lemma PoppedInv(y: State, s: nat)
    requires Inv(y) && Turn(y, s)
    ensures Inv(Popped(y, s))
    ensures forall i :: 0 <= i < |Popped(y, s).tails[s]| ==> y.tails[s][0].num < Popped(y, s).tails[s][i].num
  {
    hide HistoryInv;
    var z := Popped(y, s);
    forall t, i | 0 <= t < |z.tails| && 0 <= i < |z.tails[t]|
      ensures TailInv(z, t, z.tails[t][i])
    {
      assert z.tails[t][i] == y.tails[t][if t == s then i + 1 else i];
      assert TailInv(y, t, y.tails[t][if t == s then i + 1 else i]);
    }
    SameHistory(y, z);
    PoppedOrder(y, s);
  }

  lemma SameHistory(y: State, z: State)
    requires HistoryInv(y) && z.wire == y.wire && z.effects == y.effects
    ensures HistoryInv(z)
  {
  }

  lemma PoppedOrder(y: State, s: nat)
    requires OrderInv(y) && Turn(y, s)
    ensures OrderInv(Popped(y, s))
  {
    var z := Popped(y, s);
    assert forall t, i :: 0 <= t < |z.tails| && 0 <= i < |z.tails[t]| ==> z.tails[t][i] == y.tails[t][if t == s then i + 1 else i];
  }

  lemma SealInv(y: State, s: nat)
    requires Inv(y) && Turn(y, s)
    ensures Inv(Seal(y, s))
  {
    hide HistoryInv, OrderInv;
    PoppedInv(y, s);
    var z := Seal(y, s);
    var job := y.tails[s][0];
    if job.gen == y.gen && (if s == CLIPS then y.key.Some? && y.up else y.sharing) {
      forall t, i | 0 <= t < |z.tails| && 0 <= i < |z.tails[t]|
        ensures TailInv(z, t, z.tails[t][i])
      {
        assert TailInv(y, t, y.tails[t][i]);
        if t != s || i > 0 { assert z.tails[t][i] == y.tails[t][i]; }
      }
      SameHistory(y, z);
      RelabelledOrder(y, z);
    } else {
      assert TailInv(y, s, job);
      SameHistory(Popped(y, s), z);
      SameFrames(Popped(y, s), z);
    }
  }

  lemma RelabelledOrder(y: State, z: State)
    requires OrderInv(y) && z.wire == y.wire && z.next == y.next && |z.tails| == |y.tails|
    requires forall t :: 0 <= t < |z.tails| ==> |z.tails[t]| == |y.tails[t]|
    requires forall t, i :: 0 <= t < |z.tails| && 0 <= i < |z.tails[t]| ==> z.tails[t][i].num == y.tails[t][i].num
    ensures OrderInv(z)
  {
  }

  /** It was issued after what its tail has sent, and before what its tail still holds. */
  ghost predicate InTurn(y: State, s: nat, job: Job) {
    && s < |y.tails|
    && (forall i :: 0 <= i < |y.tails[s]| ==> job.num < y.tails[s][i].num)
    && (forall k :: 0 <= k < |y.wire| && y.wire[k].sender == Some(s) ==> y.wire[k].job.num < job.num)
  }

  /** The last check: this session, this key, this channel. */
  lemma TransmitInv(y: State, sender: Option<nat>, job: Job)
    requires Inv(y) && JobInv(y, job) && job.phase.Sealing? && job.gen == y.gen && y.sharing
    requires job.room.Some? || sender == Some(CLIPS)
    requires sender.Some? ==> InTurn(y, sender.value, job)
    ensures Inv(Transmit(y, sender, job))
  {
    hide OrderInv;
    var z := Transmit(y, sender, job);
    forall s, i | 0 <= s < |z.tails| && 0 <= i < |z.tails[s]|
      ensures TailInv(z, s, z.tails[s][i])
    {
      assert TailInv(y, s, y.tails[s][i]);
    }
    assert z.wire != y.wire ==> Faithful(z.wire[|y.wire|]);
    TransmitOrder(y, sender, job);
  }

  lemma TransmitOrder(y: State, sender: Option<nat>, job: Job)
    requires OrderInv(y) && job.num < y.next
    requires sender.Some? ==> InTurn(y, sender.value, job)
    ensures OrderInv(Transmit(y, sender, job))
  {
  }

  lemma FinishInv(y: State, s: nat, ok: bool)
    requires Inv(y) && Turn(y, s) && y.tails[s][0].phase.Sealing?
    ensures Inv(Finish(y, s, ok))
  {
    hide HistoryInv, JobInv, Transmit;
    PoppedInv(y, s);
    var job := y.tails[s][0];
    if ok && job.gen == y.gen && y.sharing {
      assert TailInv(y, s, job);
      SameJob(y, Popped(y, s), job);
      TransmitInv(Popped(y, s), Some(s), job);
    }
  }

  lemma SameJob(y: State, z: State, job: Job)
    requires JobInv(y, job) && z.gen == y.gen && z.key == y.key && z.next == y.next
    ensures JobInv(z, job)
  {
  }

  lemma LooseInv(y: State)
    requires Inv(y)
    ensures Inv(SendLoose(y))
  {
    hide HistoryInv, OrderInv;
    var z := SendLoose(y);
    forall s, i | 0 <= s < |z.tails| && 0 <= i < |z.tails[s]|
      ensures TailInv(z, s, z.tails[s][i])
    {
      assert TailInv(y, s, y.tails[s][i]);
    }
    SameHistory(y, z);
    LaterOrder(y, z);
  }

  lemma LaterOrder(y: State, z: State)
    requires OrderInv(y) && z.tails == y.tails && z.wire == y.wire && z.next >= y.next
    ensures OrderInv(z)
  {
  }

  lemma FinishLooseInv(y: State, k: nat, ok: bool)
    requires Inv(y) && k in y.loose
    ensures Inv(FinishLoose(y, k, ok))
  {
    hide HistoryInv, OrderInv, Transmit;
    var y1 := y.(loose := y.loose - {k});
    forall s, i | 0 <= s < |y1.tails| && 0 <= i < |y1.tails[s]|
      ensures TailInv(y1, s, y1.tails[s][i])
    {
      assert TailInv(y, s, y.tails[s][i]);
    }
    SameHistory(y, y1);
    LaterOrder(y, y1);
    var job := y.loose[k];
    if ok && job.gen == y.gen && y.sharing {
      TransmitInv(y1, None, job);
    }
  }

  lemma OnFrameInv(y: State, clip: bool)
    requires Inv(y)
    ensures Inv(OnFrame(y, clip))
  {
    hide JobsInv, OrderInv;
    SameFrames(y, OnFrame(y, clip));
  }

  lemma OpenedEffect(y: State, k: nat)
    requires OpeningInv(y) && HistoryInv(y) && k in y.opening
    ensures HistoryInv(Opened(y, k))
  {
    hide Faithful;
    assert Fitting(y, y.opening[k]);
  }

  lemma OpenedFits(y: State, k: nat)
    requires OpeningInv(y) && k in y.opening
    ensures OpeningInv(Opened(y, k))
  {
  }

  lemma OpenedInv(y: State, k: nat)
    requires Inv(y) && k in y.opening
    ensures Inv(Opened(y, k))
  {
    hide JobsInv, OrderInv, HistoryInv, OpeningInv;
    OpenedFits(y, k);
    OpenedEffect(y, k);
    SameFrames(y, Opened(y, k));
  }

  lemma CommitInv(y: State)
    requires Inv(y) && |y.tails| > 0
    ensures Inv(SendText(y))
  {
    hide JobsInv, OrderInv, HistoryInv, OpeningInv, Enqueue;
    var z := y.(queuedClip := Some(Queued(y.gen, y.key)));
    SameHistory(y, z);
    SameOpening(y, z);
    SameFrames(y, z);
    if y.sharing && y.key.Some? { EnqueueInv(y, CLIPS, y.key); }
  }

  lemma SameOpening(y: State, z: State)
    requires OpeningInv(y) && z.opening == y.opening && z.gen == y.gen && z.key == y.key
    ensures OpeningInv(z)
  {
  }

  lemma FlushInv(y: State)
    requires Inv(y) && |y.tails| > 0 && y.up
    ensures Inv(FlushQueuedClip(y))
  {
    hide JobsInv, OrderInv, HistoryInv, OpeningInv, Enqueue;
    var z := y.(queuedClip := None);
    SameHistory(y, z);
    SameOpening(y, z);
    SameFrames(y, z);
    if y.queuedClip.Some? && y.queuedClip.value.gen == y.gen && y.sharing {
      EnqueueInv(z, CLIPS, y.queuedClip.value.room);
    }
  }

  lemma NextInv(y: State, e: Event)
    requires Inv(y) && Possible(y, e) && LeftFirst(y, e)
    ensures Inv(Next(y, e))
  {
    hide JobsInv, OrderInv, HistoryInv, Derived, SendText, FlushQueuedClip, Issue, Seal, Finish, SendLoose, FinishLoose, OnFrame, Opened;
    match e {
      case Opens(room) => MovedOn(y, OpenSession(y, room));
      case DerivationEnds(gen) => DerivedInv(y, gen);
      case Leaves => MovedOn(y, LeaveRoom(y));
      case Commits => CommitInv(y);
      case Flushes => FlushInv(y);
      case Issues(s) => IssueInv(y, s);
      case Seals(s) => SealInv(y, s);
      case Finishes(s, ok) => FinishInv(y, s, ok);
      case Streams => LooseInv(y);
      case StreamEnds(k, ok) => FinishLooseInv(y, k, ok);
      case Arrives(clip) => OnFrameInv(y, clip);
      case OpenEnds(k) => OpenedInv(y, k);
      case _ =>
        SameHistory(y, Next(y, e));
        SameFrames(y, Next(y, e));
    }
  }

  lemma IssueInv(y: State, s: nat)
    requires Inv(y) && s < |y.tails|
    ensures Inv(Issue(y, s))
  {
    hide JobsInv, QueuedInv, OpeningInv, HistoryInv, OrderInv, Enqueue;
    if y.up && y.sharing { EnqueueInv(y, s, y.key); }
  }

  // ------------------------------------------------------------------
  // Every run.
  // ------------------------------------------------------------------

  predicate Feasible(y: State, run: seq<Event>)
    decreases |run|
  {
    run == [] || (Possible(y, run[0]) && Feasible(Next(y, run[0]), run[1..]))
  }

  /** Every run in which a room is left before another is opened. */
  predicate Tidy(y: State, run: seq<Event>)
    requires Feasible(y, run)
    decreases |run|
  {
    run == [] || (LeftFirst(y, run[0]) && Tidy(Next(y, run[0]), run[1..]))
  }

  function After(y: State, run: seq<Event>): State
    requires Feasible(y, run)
    decreases |run|
  {
    if run == [] then y else After(Next(y, run[0]), run[1..])
  }

  lemma {:induction false} RunInv(y: State, run: seq<Event>)
    requires Inv(y) && Feasible(y, run) && Tidy(y, run)
    ensures Inv(After(y, run))
    decreases |run|
  {
    hide Inv, Next, Possible, LeftFirst;
    if run != [] {
      NextInv(y, run[0]);
      RunInv(Next(y, run[0]), run[1..]);
    }
  }

  lemma IdleInv(senders: nat)
    ensures Inv(Idle(senders))
  {
  }

  /**
   Nothing is ever sent outside the session it was issued in, under any key but that of the
   room it goes to, in the clear, or while not sharing; each tail keeps issue order; and no
   inbound frame acts, counts as proof or is handed on in a session it did not arrive in.
   */
  lemma NothingCrosses(senders: nat, run: seq<Event>)
    requires Feasible(Idle(senders), run) && Tidy(Idle(senders), run)
    ensures var y := After(Idle(senders), run);
            && (forall i :: 0 <= i < |y.wire| ==> Faithful(y.wire[i]))
            && (forall i :: 0 <= i < |y.effects| ==> Timely(y.effects[i]))
            && InOrder(y.wire)
  {
    hide After, Feasible, Tidy, Faithful, Timely, InOrder;
    IdleInv(senders);
    RunInv(Idle(senders), run);
  }

  // ------------------------------------------------------------------
  // Opening a room over a live key.
  // ------------------------------------------------------------------

  lemma One(y: State, e: Event, rest: seq<Event>)
    requires Possible(y, e) && Feasible(Next(y, e), rest)
    ensures Feasible(y, [e] + rest) && After(y, [e] + rest) == After(Next(y, e), rest)
  {
    assert ([e] + rest)[1..] == rest;
  }

  lemma Stops(y: State)
    ensures Feasible(y, []) && After(y, []) == y
  {
  }

  predicate Live(y: State, room: RoomId) {
    |y.tails| > 1 && y.up && y.sharing && y.key.Some? && y.target == y.key && y.key.value != room
  }

  /** Nothing ahead of it: the frame is sealed at once, under the key that is still there. */
  function SealedBefore(room: RoomId, gen: nat): seq<Event> {
    [Opens(room)] + ([Issues(1)] + ([Seals(1)] + ([DerivationEnds(gen)] + ([Connects] + [Finishes(1, true)]))))
  }

  /** Another frame being sealed ahead of it: its turn comes when the new key is there. */
  function SealedAfter(room: RoomId, gen: nat): seq<Event> {
    [Opens(room)] + ([Issues(1)] + ([DerivationEnds(gen)] + ([Connects] + ([Finishes(1, true)] + ([Seals(1)] + [Finishes(1, true)])))))
  }

  lemma OldKeySteps(y: State, room: RoomId)
    requires Live(y, room) && y.tails[1] == []
    ensures var y2 := Issue(OpenSession(y, room), 1);
            && Turn(y2, 1) && y2.tails[1][0].phase.Waiting? && y.gen + 1 in Seal(y2, 1).deriving
            && var y4 := Derived(Seal(y2, 1), y.gen + 1);
               && y4.target.Some? && Turn(y4, 1) && y4.tails[1][0].phase.Sealing?
               && var w := Finish(y4.(up := true), 1, true).wire;
                  && |w| > 0 && w[|w| - 1].job.phase == Sealing(y.key) && w[|w| - 1].channel == room && !Faithful(w[|w| - 1])
  {
    var y2 := Issue(OpenSession(y, room), 1);
    assert y2.tails[1] == [Job(y.next, y.gen + 1, y.key, y.sharing, Waiting, y.gen + 1)];
  }

  /** A frame sealed under the old room's key is sent to the new room. */
  lemma OldKeyCrosses(y: State, room: RoomId)
    requires Live(y, room) && y.tails[1] == []
    ensures Feasible(y, SealedBefore(room, y.gen + 1))
    ensures var z := After(y, SealedBefore(room, y.gen + 1));
            && |z.wire| > 0 && z.wire[|z.wire| - 1].job.phase == Sealing(y.key)
            && z.wire[|z.wire| - 1].channel == room && !Faithful(z.wire[|z.wire| - 1])
  {
    hide Feasible, After, Turn, Faithful;
    OldKeySteps(y, room);
    var y1 := OpenSession(y, room);
    var y2 := Issue(y1, 1);
    var y3 := Seal(y2, 1);
    var y4 := Derived(y3, y.gen + 1);
    var y5 := y4.(up := true);
    hide OpenSession, Issue, Seal, Derived, Finish;
    TurnsAgree(y, y1, y4, y5);
    OldKeyTail(y3, y.gen + 1, y4, y5);
    One(y2, Seals(1), [DerivationEnds(y.gen + 1)] + ([Connects] + [Finishes(1, true)]));
    One(y1, Issues(1), [Seals(1)] + ([DerivationEnds(y.gen + 1)] + ([Connects] + [Finishes(1, true)])));
    One(y, Opens(room), [Issues(1)] + ([Seals(1)] + ([DerivationEnds(y.gen + 1)] + ([Connects] + [Finishes(1, true)]))));
  }

  lemma OldKeyTail(y3: State, gen: nat, y4: State, y5: State)
    requires gen in y3.deriving && y4 == Derived(y3, gen) && y4.target.Some? && y5 == y4.(up := true)
    requires Turn(y5, 1) && y5.tails[1][0].phase.Sealing?
    ensures Feasible(y3, [DerivationEnds(gen)] + ([Connects] + [Finishes(1, true)]))
    ensures After(y3, [DerivationEnds(gen)] + ([Connects] + [Finishes(1, true)])) == Finish(y5, 1, true)
  {
    hide Feasible, After, Derived, Finish;
    Stops(Finish(y5, 1, true));
    One(y5, Finishes(1, true), []);
    assert [Finishes(1, true)] + [] == [Finishes(1, true)];
    One(y4, Connects, [Finishes(1, true)]);
    One(y3, DerivationEnds(gen), [Connects] + [Finishes(1, true)]);
  }

  lemma TurnsAgree(y: State, y1: State, y4: State, y5: State)
    requires |y.tails| > 1 && y1.tails == y.tails && y5 == y4.(up := true)
    ensures |y1.tails| > 1 && CLIPS != 1 && (Turn(y4, 1) <==> Turn(y5, 1))
  {
  }

  lemma NewKeySteps(y: State, room: RoomId, ahead: Job)
    requires Live(y, room) && y.tails[1] == [ahead] && ahead.phase.Sealing? && ahead.gen <= y.gen
    ensures var y2 := Issue(OpenSession(y, room), 1);
            && y.gen + 1 in y2.deriving
            && var y4 := Derived(y2, y.gen + 1);
               && y4.target.Some? && Turn(y4.(up := true), 1) && y4.(up := true).tails[1][0] == ahead
               && var y6 := Finish(y4.(up := true), 1, true);
                  && y6.tails[1] == [Job(y.next, y.gen + 1, y.key, y.sharing, Waiting, y.gen + 1)]
                  && y6.gen == y.gen + 1 && y6.key == y6.target == Some(room) && y6.up && y6.sharing && |y6.tails| > 1
  {
    var y2 := Issue(OpenSession(y, room), 1);
    assert y2.tails[1] == [ahead, Job(y.next, y.gen + 1, y.key, y.sharing, Waiting, y.gen + 1)];
  }

  lemma NewKeyEnd(y: State, room: RoomId, job: Job)
    requires |y.tails| > 1 && y.tails[1] == [job] && job.phase.Waiting? && job.gen == y.gen
    requires y.up && y.sharing && y.key == y.target == Some(room) && job.room.Some? && job.room != y.key
    ensures Turn(y, 1) && Turn(Seal(y, 1), 1) && Seal(y, 1).tails[1][0].phase.Sealing?
    ensures var w := Finish(Seal(y, 1), 1, true).wire;
            && |w| > 0 && w[|w| - 1].job.room == job.room && w[|w| - 1].job.phase == Sealing(Some(room))
            && w[|w| - 1].channel == room && !Faithful(w[|w| - 1])
  {
  }

  /** A frame issued in the old room is sealed with the new room's key and sent there. */
  lemma NewKeyCrosses(y: State, room: RoomId, ahead: Job)
    requires Live(y, room) && y.tails[1] == [ahead] && ahead.phase.Sealing? && ahead.gen <= y.gen
    ensures Feasible(y, SealedAfter(room, y.gen + 1))
    ensures var z := After(y, SealedAfter(room, y.gen + 1));
            && |z.wire| > 0 && z.wire[|z.wire| - 1].job.room == y.key && z.wire[|z.wire| - 1].job.phase == Sealing(Some(room))
            && z.wire[|z.wire| - 1].channel == room && !Faithful(z.wire[|z.wire| - 1])
  {
    hide Feasible, After, Turn, Faithful;
    NewKeySteps(y, room, ahead);
    var y1 := OpenSession(y, room);
    var y2 := Issue(y1, 1);
    var y3 := Derived(y2, y.gen + 1);
    var y4 := y3.(up := true);
    var y5 := Finish(y4, 1, true);
    NewKeyEnd(y5, room, y5.tails[1][0]);
    var y6 := Seal(y5, 1);
    hide OpenSession, Issue, Seal, Derived, Finish;
    TurnsAgree(y, y1, y3, y4);
    NewKeyTail(y3, y4, y5, y6);
    One(y2, DerivationEnds(y.gen + 1), [Connects] + ([Finishes(1, true)] + ([Seals(1)] + [Finishes(1, true)])));
    One(y1, Issues(1), [DerivationEnds(y.gen + 1)] + ([Connects] + ([Finishes(1, true)] + ([Seals(1)] + [Finishes(1, true)]))));
    One(y, Opens(room), [Issues(1)] + ([DerivationEnds(y.gen + 1)] + ([Connects] + ([Finishes(1, true)] + ([Seals(1)] + [Finishes(1, true)])))));
  }

  lemma NewKeyTail(y3: State, y4: State, y5: State, y6: State)
    requires y3.target.Some? && y4 == y3.(up := true) && Turn(y4, 1) && y4.tails[1][0].phase.Sealing? && y5 == Finish(y4, 1, true)
    requires Turn(y5, 1) && y5.tails[1][0].phase.Waiting? && y6 == Seal(y5, 1)
    requires Turn(y6, 1) && y6.tails[1][0].phase.Sealing?
    ensures Feasible(y3, [Connects] + ([Finishes(1, true)] + ([Seals(1)] + [Finishes(1, true)])))
    ensures After(y3, [Connects] + ([Finishes(1, true)] + ([Seals(1)] + [Finishes(1, true)]))) == Finish(y6, 1, true)
  {
    hide Feasible, After, Seal, Finish;
    Stops(Finish(y6, 1, true));
    One(y6, Finishes(1, true), []);
    assert [Finishes(1, true)] + [] == [Finishes(1, true)];
    One(y5, Seals(1), [Finishes(1, true)]);
    One(y4, Finishes(1, true), [Seals(1)] + [Finishes(1, true)]);
    One(y3, Connects, [Finishes(1, true)] + ([Seals(1)] + [Finishes(1, true)]));
  }
}
