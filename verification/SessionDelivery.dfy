/**
 What must get through, of the client's session: src/main.js `sendText`, `sendClip`,
 `flushQueuedClip`, `sealedSender`, `sendStream`, `onFrame` and `openFrame`.

 `Session` says what never crosses from one session to another. Here is what does
 arrive: in a session that stays connected and sharing, every frame that is issued is on
 the wire exactly once by the time its tail is empty, a clip committed too early follows
 as soon as there is a connection, and every frame that comes in acts exactly once. And
 after a room was left, or on Off, nothing does.
 */
module SessionDelivery {
  import opened Options
  import opened Session

  // ------------------------------------------------------------------
  // Outbound.
  // ------------------------------------------------------------------

  /** Connected to its room, with its key, and sharing. */
  predicate Connected(y: State) {
    y.sharing && y.up && y.key.Some? && y.target == y.key
  }

  /** The session goes on, connected and sharing, and the seal of this frame does not fail. */
  predicate Spares(y: State, e: Event, s: nat, n: nat)
    requires Possible(y, e)
  {
    && !e.Opens? && !e.Leaves? && !e.Drops? && e != Shares(false)
    && (e == Finishes(s, false) ==> y.tails[s][0].num != n)
  }

  predicate Spared(y: State, run: seq<Event>, s: nat, n: nat)
    requires Feasible(y, run)
    decreases |run|
  {
    run == [] || (Spares(y, run[0], s, n) && Spared(Next(y, run[0]), run[1..], s, n))
  }

  ghost predicate InTail(y: State, s: nat, n: nat) {
    s < |y.tails| && exists i :: 0 <= i < |y.tails[s]| && y.tails[s][i].num == n && y.tails[s][i].gen == y.gen
  }

  /** It is on the wire, sent in this session to this session's room. */
  ghost predicate OnWire(y: State, s: nat, n: nat) {
    exists i :: 0 <= i < |y.wire| && IsSent(y, y.wire[i], s, n)
  }

  predicate IsSent(y: State, w: Sent, s: nat, n: nat) {
    w.sender == Some(s) && w.job.num == n && w.sentGen == y.gen && Some(w.channel) == y.key
  }

  ghost predicate Coming(y: State, s: nat, n: nat) {
    Connected(y) && (InTail(y, s, n) || OnWire(y, s, n))
  }

  lemma StaysInTail(y: State, z: State, s: nat, n: nat, i: nat, j: nat)
    requires s < |y.tails| && i < |y.tails[s]| && y.tails[s][i].num == n && y.tails[s][i].gen == y.gen
    requires z.gen == y.gen && s < |z.tails| && j < |z.tails[s]| && z.tails[s][j].num == n && z.tails[s][j].gen == y.gen
    ensures InTail(z, s, n)
  {
  }

  lemma StaysOnWire(y: State, z: State, s: nat, n: nat)
    requires OnWire(y, s, n) && z.gen == y.gen && z.key == y.key && |z.wire| >= |y.wire| && z.wire[..|y.wire|] == y.wire
    ensures OnWire(z, s, n)
  {
    var i :| 0 <= i < |y.wire| && IsSent(y, y.wire[i], s, n);
    assert z.wire[i] == y.wire[i] && IsSent(z, z.wire[i], s, n);
  }

  predicate OfSession(e: Event) {
    e.Opens? || e.DerivationEnds? || e.Leaves? || e.Connects? || e.Drops? || e.Shares?
  }

  predicate SameSessionAs(y: State, z: State) {
    z.gen == y.gen && z.key == y.key && z.target == y.target && z.up == y.up && z.sharing == y.sharing
  }

  lemma TailStepsKeepSession(y: State, s: nat, ok: bool)
    requires Turn(y, s)
    ensures SameSessionAs(y, Seal(y, s)) && SameSessionAs(y, Finish(y, s, ok))
  {
  }

  lemma EnqueueKeepsSession(y: State, s: nat, room: Option<RoomId>)
    requires s < |y.tails|
    ensures SameSessionAs(y, Enqueue(y, s, room))
  {
  }

  lemma FramesKeepSession(y: State, e: Event)
    requires Possible(y, e) && !OfSession(e)
    ensures SameSessionAs(y, Next(y, e))
  {
    hide Enqueue, Seal, Finish;
    match e {
      case Commits => EnqueueKeepsSession(y, CLIPS, y.key);
      case Flushes =>
        if y.queuedClip.Some? { EnqueueKeepsSession(y.(queuedClip := None), CLIPS, y.queuedClip.value.room); }
      case Issues(s) => EnqueueKeepsSession(y, s, y.key);
      case Seals(s) => TailStepsKeepSession(y, s, false);
      case Finishes(s, ok) => TailStepsKeepSession(y, s, ok);
      case _ =>
    }
  }

  lemma SameSession(y: State, e: Event, s: nat, n: nat)
    requires Inv(y) && Possible(y, e) && Connected(y) && Spares(y, e, s, n)
    ensures Next(y, e).gen == y.gen && Next(y, e).key == y.key && Connected(Next(y, e))
  {
    hide JobsInv, QueuedInv, OpeningInv, HistoryInv, OrderInv, Seal, Finish, SendText, FlushQueuedClip, Issue, SendLoose, FinishLoose, OnFrame, Opened;
    if !OfSession(e) { FramesKeepSession(y, e); }
  }

  /** What stands in a tail keeps its place, but for seals and their ends. */
  lemma TailsGrow(y: State, e: Event, s: nat)
    requires Possible(y, e) && !e.Seals? && !e.Finishes? && s < |y.tails|
    ensures var z := Next(y, e);
            |z.tails| == |y.tails| && |z.tails[s]| >= |y.tails[s]| && forall i :: 0 <= i < |y.tails[s]| ==> z.tails[s][i] == y.tails[s][i]
  {
  }

  /** Nothing of an outgoing frame's is touched but by its own turn and its own end. */
  lemma OtherStep(y: State, e: Event, s: nat, n: nat)
    requires Inv(y) && Possible(y, e) && Coming(y, s, n) && Spares(y, e, s, n) && !e.Seals? && !e.Finishes?
    ensures Coming(Next(y, e), s, n)
  {
    hide Inv, OnWire, Next;
    var z := Next(y, e);
    SameSession(y, e, s, n);
    WireGrows(y, e);
    if OnWire(y, s, n) { StaysOnWire(y, z, s, n); }
    if InTail(y, s, n) {
      var i :| 0 <= i < |y.tails[s]| && y.tails[s][i].num == n && y.tails[s][i].gen == y.gen;
      TailsGrow(y, e, s);
      StaysInTail(y, z, s, n, i, i);
    }
  }

  lemma WireGrows(y: State, e: Event)
    requires Possible(y, e)
    ensures |Next(y, e).wire| >= |y.wire| && Next(y, e).wire[..|y.wire|] == y.wire
  {
    hide Transmit;
    match e {
      case Finishes(s, _) => TransmitGrows(Popped(y, s), Some(s), y.tails[s][0]);
      case StreamEnds(k, _) => TransmitGrows(y.(loose := y.loose - {k}), None, y.loose[k]);
      case _ =>
    }
  }

  lemma TransmitGrows(y: State, sender: Option<nat>, job: Job)
    ensures var z := Transmit(y, sender, job); |z.wire| >= |y.wire| && z.wire[..|y.wire|] == y.wire
  {
  }

  lemma SealStep(y: State, s: nat, n: nat, t: nat)
    requires Possible(y, Seals(t)) && Coming(y, s, n)
    ensures Coming(Seal(y, t), s, n)
  {
    hide OnWire;
    var z := Seal(y, t);
    if OnWire(y, s, n) { StaysOnWire(y, z, s, n); }
    if InTail(y, s, n) {
      var i :| 0 <= i < |y.tails[s]| && y.tails[s][i].num == n && y.tails[s][i].gen == y.gen;
      StaysInTail(y, z, s, n, i, if t == s && |z.tails[s]| < |y.tails[s]| then i - 1 else i);
    }
  }

  lemma FinishStep(y: State, s: nat, n: nat, t: nat, ok: bool)
    requires Possible(y, Finishes(t, ok)) && Coming(y, s, n) && Spares(y, Finishes(t, ok), s, n)
    ensures Coming(Finish(y, t, ok), s, n)
  {
    hide OnWire;
    var z := Finish(y, t, ok);
    if OnWire(y, s, n) { StaysOnWire(y, z, s, n); }
    if InTail(y, s, n) {
      var i :| 0 <= i < |y.tails[s]| && y.tails[s][i].num == n && y.tails[s][i].gen == y.gen;
      if t == s && i == 0 {
        assert IsSent(z, z.wire[|y.wire|], s, n);
        assert OnWire(z, s, n) by { Here(z, |y.wire|, s, n); }
      } else {
        StaysInTail(y, z, s, n, i, if t == s then i - 1 else i);
      }
    }
  }

  lemma Here(y: State, i: nat, s: nat, n: nat)
    requires i < |y.wire| && IsSent(y, y.wire[i], s, n)
    ensures OnWire(y, s, n)
  {
  }

  lemma StepComes(y: State, e: Event, s: nat, n: nat)
    requires Inv(y) && Possible(y, e) && Coming(y, s, n) && Spares(y, e, s, n)
    ensures Inv(Next(y, e)) && Coming(Next(y, e), s, n)
    ensures Next(y, e).gen == y.gen && Next(y, e).key == y.key
  {
    hide Inv, InTail, OnWire;
    NextInv(y, e);
    SameSession(y, e, s, n);
    match e {
      case Seals(t) => SealStep(y, s, n, t);
      case Finishes(t, ok) => FinishStep(y, s, n, t, ok);
      case _ => OtherStep(y, e, s, n);
    }
  }

  lemma {:induction false} RunComes(y: State, run: seq<Event>, s: nat, n: nat)
    requires Inv(y) && Coming(y, s, n) && Feasible(y, run) && Spared(y, run, s, n)
    ensures Inv(After(y, run)) && Coming(After(y, run), s, n) && After(y, run).gen == y.gen && After(y, run).key == y.key
    decreases |run|
  {
    hide Inv, Coming, Next, Possible, Spares;
    if run != [] {
      StepComes(y, run[0], s, n);
      RunComes(Next(y, run[0]), run[1..], s, n);
    }
  }

  /** Exactly one frame on the wire has this number of this sender. */
  ghost predicate SentOnce(wire: seq<Sent>, s: nat, n: nat, gen: nat, room: RoomId) {
    exists i ::
      && 0 <= i < |wire| && wire[i].sender == Some(s) && wire[i].job.num == n
      && Faithful(wire[i]) && wire[i].sentGen == gen && wire[i].channel == room
      && forall k :: 0 <= k < |wire| && k != i ==> !(wire[k].sender == Some(s) && wire[k].job.num == n)
  }

  /** Nothing with this number is left in the tail. */
  predicate TurnOver(y: State, s: nat, n: nat) {
    s < |y.tails| && forall i :: 0 <= i < |y.tails[s]| ==> y.tails[s][i].num != n
  }

  lemma ComeIsSent(y: State, s: nat, n: nat)
    requires Inv(y) && Coming(y, s, n) && TurnOver(y, s, n)
    ensures SentOnce(y.wire, s, n, y.gen, y.key.value)
  {
    hide KeyInv, JobsInv, QueuedInv, OpeningInv, Faithful;
    var i :| 0 <= i < |y.wire| && IsSent(y, y.wire[i], s, n);
    assert Faithful(y.wire[i]);
    forall k | 0 <= k < |y.wire| && k != i
      ensures !(y.wire[k].sender == Some(s) && y.wire[k].job.num == n)
    {
      assert i < k || k < i;
    }
  }

  /** A frame that has joined a tail of a connected session is sent, once, faithfully. */
  lemma TailIsSent(y: State, run: seq<Event>, s: nat, n: nat)
    requires Inv(y) && Connected(y) && InTail(y, s, n) && Feasible(y, run) && Spared(y, run, s, n)
    requires TurnOver(After(y, run), s, n)
    ensures SentOnce(After(y, run).wire, s, n, y.gen, y.key.value)
  {
    hide Inv, After, Feasible, Spared, InTail, SentOnce, TurnOver;
    RunComes(y, run, s, n);
    ComeIsSent(After(y, run), s, n);
  }

  lemma Enqueued(y: State, s: nat, room: Option<RoomId>)
    requires s < |y.tails|
    ensures InTail(Enqueue(y, s, room), s, y.next)
    ensures Connected(y) ==> Connected(Enqueue(y, s, room))
  {
    assert Enqueue(y, s, room).tails[s][|y.tails[s]|].num == y.next;
  }

  /**
   A clip committed in a connected session is on the wire exactly once by the time it has
   had its turn: sealed and sent in that session, under its room's key, to its room.
   */
  lemma CommitIsSent(y: State, run: seq<Event>)
    requires Inv(y) && Connected(y) && |y.tails| > 0
    requires Feasible(Next(y, Commits), run) && Spared(Next(y, Commits), run, CLIPS, y.next)
    requires TurnOver(After(Next(y, Commits), run), CLIPS, y.next)
    ensures SentOnce(After(Next(y, Commits), run).wire, CLIPS, y.next, y.gen, y.key.value)
  {
    hide Inv, After, Feasible, Spared, SentOnce, TurnOver, Enqueue;
    NextInv(y, Commits);
    Enqueued(y, CLIPS, y.key);
    EnqueueKeepsSession(y, CLIPS, y.key);
    TailIsSent(Next(y, Commits), run, CLIPS, y.next);
  }

  /** So is a frame of any other sender. */
  lemma IssueIsSent(y: State, s: nat, run: seq<Event>)
    requires Inv(y) && Connected(y) && s < |y.tails| && s != CLIPS
    requires Feasible(Next(y, Issues(s)), run) && Spared(Next(y, Issues(s)), run, s, y.next)
    requires TurnOver(After(Next(y, Issues(s)), run), s, y.next)
    ensures SentOnce(After(Next(y, Issues(s)), run).wire, s, y.next, y.gen, y.key.value)
  {
    hide Inv, After, Feasible, Spared, SentOnce, TurnOver, Enqueue;
    NextInv(y, Issues(s));
    Enqueued(y, s, y.key);
    EnqueueKeepsSession(y, s, y.key);
    TailIsSent(Next(y, Issues(s)), run, s, y.next);
  }

  // ---- a clip committed too early

  /** The session goes on, and nothing else takes the slot or empties it. */
  predicate SlotSpares(y: State, e: Event) {
    !e.Opens? && !e.Leaves? && !e.Commits? && !e.Flushes? && !(e == Seals(CLIPS) && (y.key.None? || !y.up))
  }

  predicate SlotSpared(y: State, run: seq<Event>)
    requires Feasible(y, run)
    decreases |run|
  {
    run == [] || (SlotSpares(y, run[0]) && SlotSpared(Next(y, run[0]), run[1..]))
  }

  predicate Held(y: State) {
    y.queuedClip.Some? && y.queuedClip.value.gen == y.gen
  }

  lemma StepHolds(y: State, e: Event)
    requires Possible(y, e) && Held(y) && SlotSpares(y, e)
    ensures Held(Next(y, e)) && Next(y, e).gen == y.gen && |Next(y, e).tails| == |y.tails|
  {
    hide Transmit;
    if e.Finishes? { TransmitKeepsSlot(Popped(y, e.s), Some(e.s), y.tails[e.s][0]); }
    if e.StreamEnds? { TransmitKeepsSlot(y.(loose := y.loose - {e.k}), None, y.loose[e.k]); }
  }

  lemma TransmitKeepsSlot(y: State, sender: Option<nat>, job: Job)
    ensures var z := Transmit(y, sender, job); z.queuedClip == y.queuedClip && z.gen == y.gen && z.tails == y.tails
  {
  }

  lemma {:induction false} RunHolds(y: State, run: seq<Event>)
    requires Inv(y) && Held(y) && Feasible(y, run) && SlotSpared(y, run)
    ensures Inv(After(y, run)) && Held(After(y, run)) && After(y, run).gen == y.gen && |After(y, run).tails| == |y.tails|
    decreases |run|
  {
    hide Inv, Next, Possible;
    if run != [] {
      NextInv(y, run[0]);
      StepHolds(y, run[0]);
      hide SlotSpares, Held;
      RunHolds(Next(y, run[0]), run[1..]);
    }
  }

  /** What is held is sent once the connection is there and the slot is flushed. */
  lemma HeldIsSent(y: State, run: seq<Event>, more: seq<Event>)
    requires Inv(y) && Held(y) && |y.tails| > 0 && Feasible(y, run) && SlotSpared(y, run)
    requires var z := After(y, run);
             && Connected(z) && |z.tails| > 0
             && Feasible(Next(z, Flushes), more) && Spared(Next(z, Flushes), more, CLIPS, z.next)
             && TurnOver(After(Next(z, Flushes), more), CLIPS, z.next)
    ensures var z := After(y, run);
            SentOnce(After(Next(z, Flushes), more).wire, CLIPS, z.next, y.gen, z.key.value)
  {
    hide Inv, After, Feasible, Spared, SlotSpared, SentOnce, TurnOver, Enqueue, InTail;
    RunHolds(y, run);
    var z := After(y, run);
    var z1 := z.(queuedClip := None);
    NextInv(z, Flushes);
    Enqueued(z1, CLIPS, z.queuedClip.value.room);
    EnqueueKeepsSession(z1, CLIPS, z.queuedClip.value.room);
    TailIsSent(Next(z, Flushes), more, CLIPS, z.next);
  }

  /**
   A clip committed while the key is still being derived, or the connection is not there,
   is sent exactly once when the connection comes, to the room of its session.
   */
  lemma EarlyCommitIsSent(y: State, run: seq<Event>, more: seq<Event>)
    requires Inv(y) && y.sharing && (y.key.None? || !y.up) && |y.tails| > 0
    requires Feasible(Next(y, Commits), run) && SlotSpared(Next(y, Commits), run)
    requires var z := After(Next(y, Commits), run);
             && Connected(z) && |z.tails| > 0
             && Feasible(Next(z, Flushes), more) && Spared(Next(z, Flushes), more, CLIPS, z.next)
             && TurnOver(After(Next(z, Flushes), more), CLIPS, z.next)
    ensures var z := After(Next(y, Commits), run);
            SentOnce(After(Next(z, Flushes), more).wire, CLIPS, z.next, y.gen, z.key.value)
  {
    hide Inv, After, Feasible, Spared, SlotSpared, SentOnce, TurnOver, Enqueue;
    NextInv(y, Commits);
    HeldIsSent(Next(y, Commits), run, more);
  }

  /** So is a clip whose turn came when the connection had gone. */
  lemma StrandedIsSent(y: State, run: seq<Event>, more: seq<Event>)
    requires Inv(y) && Possible(y, Seals(CLIPS)) && y.tails[CLIPS][0].gen == y.gen && (y.key.None? || !y.up)
    requires Feasible(Next(y, Seals(CLIPS)), run) && SlotSpared(Next(y, Seals(CLIPS)), run)
    requires var z := After(Next(y, Seals(CLIPS)), run);
             && Connected(z) && |z.tails| > 0
             && Feasible(Next(z, Flushes), more) && Spared(Next(z, Flushes), more, CLIPS, z.next)
             && TurnOver(After(Next(z, Flushes), more), CLIPS, z.next)
    ensures var z := After(Next(y, Seals(CLIPS)), run);
            SentOnce(After(Next(z, Flushes), more).wire, CLIPS, z.next, y.gen, z.key.value)
  {
    hide Inv, After, Feasible, Spared, SlotSpared, SentOnce, TurnOver, Enqueue;
    NextInv(y, Seals(CLIPS));
    HeldIsSent(Next(y, Seals(CLIPS)), run, more);
  }

  // ---- frames in no queue

  /** Streams and the like: the session goes on, and this seal has not ended. */
  predicate LooseSpares(e: Event, k: nat) {
    !e.Opens? && !e.Leaves? && !(e.StreamEnds? && e.k == k)
  }

  predicate AllLooseSpare(run: seq<Event>, k: nat) {
    forall i :: 0 <= i < |run| ==> LooseSpares(run[i], k)
  }

  lemma StepLoose(y: State, e: Event, k: nat, job: Job)
    requires Inv(y) && Possible(y, e) && LooseSpares(e, k) && k in y.loose && y.loose[k] == job && k < y.next
    ensures k in Next(y, e).loose && Next(y, e).loose[k] == job && Next(y, e).gen == y.gen && k < Next(y, e).next
  {
    hide Inv, Transmit;
    if e.Finishes? { TransmitKeepsLoose(Popped(y, e.s), Some(e.s), y.tails[e.s][0]); }
    if e.StreamEnds? { TransmitKeepsLoose(y.(loose := y.loose - {e.k}), None, y.loose[e.k]); }
  }

  lemma TransmitKeepsLoose(y: State, sender: Option<nat>, job: Job)
    ensures var z := Transmit(y, sender, job); z.loose == y.loose && z.gen == y.gen && z.next == y.next && z.opening == y.opening
  {
  }

  lemma {:induction false} RunLoose(y: State, run: seq<Event>, k: nat, job: Job)
    requires Inv(y) && Feasible(y, run) && AllLooseSpare(run, k) && k in y.loose && y.loose[k] == job && k < y.next
    ensures Inv(After(y, run)) && k in After(y, run).loose && After(y, run).loose[k] == job && After(y, run).gen == y.gen && k < After(y, run).next
    decreases |run|
  {
    hide Inv, Next, Possible, LooseSpares;
    if run != [] {
      assert LooseSpares(run[0], k);
      LooseLeftFirst(y, run[0], k);
      NextInv(y, run[0]);
      StepLoose(y, run[0], k, job);
      RunLoose(Next(y, run[0]), run[1..], k, job);
    }
  }

  lemma LooseLeftFirst(y: State, e: Event, k: nat)
    requires LooseSpares(e, k)
    ensures LeftFirst(y, e)
  {
  }

  /** A stream frame goes out, once, when its seal ends, if the session is still connected and sharing then. */
  lemma StreamIsSent(y: State, run: seq<Event>)
    requires Inv(y) && Connected(y) && Feasible(Next(y, Streams), run) && AllLooseSpare(run, y.next)
    requires Connected(After(Next(y, Streams), run))
    ensures var z := After(Next(y, Streams), run);
            && Possible(z, StreamEnds(y.next, true))
            && var w := Next(z, StreamEnds(y.next, true)).wire;
               && |w| == |z.wire| + 1 && w[..|z.wire|] == z.wire
               && Faithful(w[|z.wire|]) && w[|z.wire|].job.num == y.next && w[|z.wire|].sender == None
               && y.next !in Next(z, StreamEnds(y.next, true)).loose && y.next < Next(z, StreamEnds(y.next, true)).next
  {
    hide Inv, After, Feasible, AllLooseSpare, Faithful;
    NextInv(y, Streams);
    RunLoose(Next(y, Streams), run, y.next, Next(y, Streams).loose[y.next]);
    var z := After(Next(y, Streams), run);
    NextInv(z, StreamEnds(y.next, true));
    LastIsFaithful(Next(z, StreamEnds(y.next, true)));
  }

  lemma LastIsFaithful(y: State)
    requires Inv(y)
    ensures |y.wire| > 0 ==> Faithful(y.wire[|y.wire| - 1])
  {
    hide Faithful;
  }

  // ------------------------------------------------------------------
  // Inbound.
  // ------------------------------------------------------------------

  predicate OpeningSpares(e: Event, k: nat) {
    !e.Opens? && !e.Leaves? && !(e.OpenEnds? && e.k == k)
  }

  predicate AllOpeningSpare(run: seq<Event>, k: nat) {
    forall i :: 0 <= i < |run| ==> OpeningSpares(run[i], k)
  }

  lemma StepOpening(y: State, e: Event, k: nat, o: Opening)
    requires Possible(y, e) && OpeningSpares(e, k) && k in y.opening && y.opening[k] == o && k < y.next
    ensures k in Next(y, e).opening && Next(y, e).opening[k] == o && Next(y, e).gen == y.gen && k < Next(y, e).next
  {
    hide Transmit;
    if e.Finishes? { TransmitKeepsLoose(Popped(y, e.s), Some(e.s), y.tails[e.s][0]); }
    if e.StreamEnds? { TransmitKeepsLoose(y.(loose := y.loose - {e.k}), None, y.loose[e.k]); }
  }

  lemma {:induction false} RunOpening(y: State, run: seq<Event>, k: nat, o: Opening)
    requires Feasible(y, run) && AllOpeningSpare(run, k) && k in y.opening && y.opening[k] == o && k < y.next
    ensures k in After(y, run).opening && After(y, run).opening[k] == o && After(y, run).gen == y.gen && k < After(y, run).next
    decreases |run|
  {
    hide Next, Possible, OpeningSpares;
    if run != [] {
      StepOpening(y, run[0], k, o);
      RunOpening(Next(y, run[0]), run[1..], k, o);
    }
  }

  /**
   A frame that arrives on the open channel and opens in its session has its effect,
   exactly and only once: a clip acts; anything else counts as proof and is handed on.
   */
  lemma ArrivedActsOnce(y: State, clip: bool, run: seq<Event>)
    requires Connected(y)
    requires Feasible(Next(y, Arrives(clip)), run) && AllOpeningSpare(run, y.next)
    ensures var z := After(Next(y, Arrives(clip)), run); var o := Opening(y.gen, y.key.value, y.key.value, clip);
            && Possible(z, OpenEnds(y.next))
            && y.next !in Next(z, OpenEnds(y.next)).opening && y.next < Next(z, OpenEnds(y.next)).next
            && Next(z, OpenEnds(y.next)).effects
               == z.effects + if clip then [Effect(o, y.gen, z.key, Acted)] else [Effect(o, y.gen, z.key, Proved), Effect(o, y.gen, z.key, HandedOn)]
  {
    hide After, Feasible, AllOpeningSpare;
    RunOpening(Next(y, Arrives(clip)), run, y.next, Opening(y.gen, y.key.value, y.key.value, clip));
  }

  // ------------------------------------------------------------------
  // Coming up, and going away.
  // ------------------------------------------------------------------

  predicate SessionSpares(e: Event) {
    !e.Opens? && !e.Leaves?
  }

  predicate AllSessionSpare(run: seq<Event>) {
    forall i :: 0 <= i < |run| ==> SessionSpares(run[i])
  }

  lemma StepDerives(y: State, e: Event, room: RoomId)
    requires Possible(y, e) && SessionSpares(e) && e != DerivationEnds(y.gen)
    requires y.gen in y.deriving && y.deriving[y.gen] == room
    ensures Next(y, e).gen == y.gen && y.gen in Next(y, e).deriving && Next(y, e).deriving[y.gen] == room
  {
    hide Transmit;
    if e.Finishes? { TransmitKeepsDeriving(Popped(y, e.s), Some(e.s), y.tails[e.s][0]); }
    if e.StreamEnds? { TransmitKeepsDeriving(y.(loose := y.loose - {e.k}), None, y.loose[e.k]); }
  }

  lemma TransmitKeepsDeriving(y: State, sender: Option<nat>, job: Job)
    ensures var z := Transmit(y, sender, job); z.deriving == y.deriving && z.gen == y.gen
  {
  }

  lemma {:induction false} RunDerives(y: State, run: seq<Event>, room: RoomId)
    requires Feasible(y, run) && AllSessionSpare(run) && DerivationEnds(y.gen) !in run
    requires y.gen in y.deriving && y.deriving[y.gen] == room
    ensures After(y, run).gen == y.gen && y.gen in After(y, run).deriving && After(y, run).deriving[y.gen] == room
    decreases |run|
  {
    hide Next, Possible, SessionSpares;
    if run != [] {
      StepDerives(y, run[0], room);
      RunDerives(Next(y, run[0]), run[1..], room);
    }
  }

  /** The newest session that is opened gets its room's key, whatever else is still being derived, and can connect. */
  lemma OpenedComesUp(y: State, room: RoomId, run: seq<Event>)
    requires Feasible(Next(y, Opens(room)), run) && AllSessionSpare(run) && DerivationEnds(y.gen + 1) !in run
    ensures var z := After(Next(y, Opens(room)), run);
            && Possible(z, DerivationEnds(y.gen + 1))
            && var u := Next(z, DerivationEnds(y.gen + 1));
               && u.gen == y.gen + 1 && u.key == u.target == Some(room) && !u.up
               && Possible(u, Connects) && (z.sharing ==> Connected(Next(u, Connects)))
  {
    hide After, Feasible, AllSessionSpare;
    RunDerives(Next(y, Opens(room)), run, room);
  }

  /** In no room, and none being opened. */
  ghost predicate Away(y: State) {
    y.key.None? && y.target.None? && !y.up && y.gen !in y.deriving
  }

  lemma StepAway(y: State, e: Event)
    requires Inv(y) && Away(y) && Possible(y, e) && !e.Opens?
    ensures Away(Next(y, e)) && Next(y, e).wire == y.wire && Inv(Next(y, e))
    ensures Next(y, e).effects == y.effects
  {
    hide JobsInv, QueuedInv, HistoryInv, OrderInv;
    NextInv(y, e);
    assert e.OpenEnds? ==> Fitting(y, y.opening[e.k]);
  }

  lemma {:induction false} RunAway(y: State, run: seq<Event>)
    requires Inv(y) && Away(y) && Feasible(y, run) && forall i :: 0 <= i < |run| ==> !run[i].Opens?
    ensures Away(After(y, run)) && After(y, run).wire == y.wire && After(y, run).effects == y.effects
    decreases |run|
  {
    hide Inv, Away, Next, Possible;
    if run != [] {
      StepAway(y, run[0]);
      RunAway(Next(y, run[0]), run[1..]);
    }
  }

  lemma LeavingIsAway(y: State)
    requires Inv(y)
    ensures Away(Next(y, Leaves)) && Inv(Next(y, Leaves)) && Next(y, Leaves).wire == y.wire && Next(y, Leaves).effects == y.effects
  {
    hide JobsInv, QueuedInv, HistoryInv, OrderInv, OpeningInv;
    NextInv(y, Leaves);
  }

  /**
   Once the room is left, nothing is sent and nothing that came in acts until another is
   opened, whatever was queued, being sealed, being derived or being opened.
   */
  lemma LeftIsSilent(y: State, run: seq<Event>)
    requires Inv(y) && Feasible(Next(y, Leaves), run) && forall i :: 0 <= i < |run| ==> !run[i].Opens?
    ensures var z := After(Next(y, Leaves), run);
            z.wire == y.wire && z.effects == y.effects && z.key.None? && z.target.None? && !z.up && Next(y, Leaves).queuedClip.None?
  {
    hide Inv, After, Feasible;
    LeavingIsAway(y);
    RunAway(Next(y, Leaves), run);
  }

  /** What has been sealed or opened, or was dropped, does not come back: every number is given out once. */
  lemma NumbersAreSpent(y: State, e: Event, k: nat)
    requires Possible(y, e) && k < y.next
    ensures k < Next(y, e).next
    ensures (k !in y.loose ==> k !in Next(y, e).loose) && (k !in y.opening ==> k !in Next(y, e).opening)
  {
    hide Transmit;
    match e {
      case Finishes(s, _) => TransmitKeepsLoose(Popped(y, s), Some(s), y.tails[s][0]);
      case StreamEnds(j, _) => TransmitKeepsLoose(y.(loose := y.loose - {j}), None, y.loose[j]);
      case _ =>
    }
  }

  /** On Off nothing leaves, whatever was under way. */
  lemma OffIsSilent(y: State, run: seq<Event>)
    requires Feasible(Next(y, Shares(false)), run) && Shares(true) !in run
    ensures After(Next(y, Shares(false)), run).wire == y.wire
  {
    StaysOff(Next(y, Shares(false)), run);
  }

  lemma {:induction false} StaysOff(y: State, run: seq<Event>)
    requires !y.sharing && Feasible(y, run) && Shares(true) !in run
    ensures After(y, run).wire == y.wire
    decreases |run|
  {
    hide Possible;
    if run != [] {
      StepOff(y, run[0]);
      hide Next;
      StaysOff(Next(y, run[0]), run[1..]);
    }
  }

  lemma StepOff(y: State, e: Event)
    requires !y.sharing && Possible(y, e) && e != Shares(true)
    ensures !Next(y, e).sharing && Next(y, e).wire == y.wire
  {
  }

  /** After a drop nothing leaves either, until there is a connection again. */
  lemma DroppedIsSilent(y: State, run: seq<Event>)
    requires Feasible(Next(y, Drops), run) && Connects !in run
    ensures After(Next(y, Drops), run).wire == y.wire
  {
    StaysDown(Next(y, Drops), run);
  }

  lemma {:induction false} StaysDown(y: State, run: seq<Event>)
    requires !y.up && Feasible(y, run) && Connects !in run
    ensures After(y, run).wire == y.wire
    decreases |run|
  {
    hide Possible;
    if run != [] {
      StepDown(y, run[0]);
      hide Next;
      StaysDown(Next(y, run[0]), run[1..]);
    }
  }

  lemma StepDown(y: State, e: Event)
    requires !y.up && Possible(y, e) && e != Connects
    ensures !Next(y, e).up && Next(y, e).wire == y.wire
  {
  }
}
