/**
 What becomes of a clip, on one device: `apply`, `putOnClipboard`, `writePending`,
 `flushPending`, `confirmPending` and the grace timer of src/clipboard/capture.js.

 `Clipboard` says in which order clips may be written. Here is that they are: a clip that
 is taken is written or held, what is held leaves the slot only by being written or for a
 reason that can be named, and the newest clip is lost by nothing but the user, the
 session, the mode, a refused direct write or an older clip in the slot.
 */
module ClipboardDelivery {
  import opened Options
  import opened Guard
  import opened Clipboard

  // ------------------------------------------------------------------
  // Taking a clip.
  // ------------------------------------------------------------------

  /** A write of this text has just been asked for: landing, it is what the clipboard holds. */
  ghost predicate Writing(d: Device, z: Device, text: Text, num: nat, origin: Origin, cause: Cause) {
    var w := d.l.nextWrite;
    && w in z.l.writes && z.l.writes[w].text == text && z.l.writes[w].num == num
    && !z.l.writes[w].landed && !z.l.writes[w].refused
    && Land(z, w).os == text
    && z.lastSent == text && z.suppressed
    && |z.l.log| == |d.l.log| + 1 && z.l.log[..|d.l.log|] == d.l.log
    && z.l.log[|d.l.log|] == Start(text, num, d.l.writtenNum, origin, cause)
  }

  /** A peer's clip with anything visible in it is written at once, or held for a gesture or a timer. */
  lemma ArrivalIsTaken(danger: Danger, d: Device, raw: Text, focus: bool)
    requires d.binds && Defuse(raw) != []
    ensures var z := Next(danger, d, Arrives(raw, focus)); var risk := Flagged(danger, Defuse(raw));
            && z.l.arrivalNum == d.l.arrivalNum + 1
            && if risk || !focus || d.recent
               then z.l.pending == Some(Held(Defuse(raw), risk, d.l.arrivalNum + 1, Peer(raw))) && z.l.writes == d.l.writes
                    && (focus && !risk ==> z.graceTimer)
               else Writing(d, z, Defuse(raw), d.l.arrivalNum + 1, Peer(raw), Direct) && z.l.pending == d.l.pending
  {
    hide Defuse, Flagged;
  }

  /** The user's own text is written at once, or held for the next focus; and other machines' clips wait for it. */
  lemma OwnTextIsTaken(danger: Danger, d: Device, text: Text, focus: bool)
    requires d.binds && text != []
    ensures var z := Next(danger, d, Puts(text, focus));
            && z.l.arrivalNum == d.l.arrivalNum + 1
            && if focus then Writing(d, z, text, d.l.arrivalNum + 1, Own, Direct) && z.recent
               else z.l.pending == Some(Held(text, false, d.l.arrivalNum + 1, Own)) && z.l.writes == d.l.writes
  {
  }

  // ------------------------------------------------------------------
  // Writing what is held.
  // ------------------------------------------------------------------

  /** What sends a held clip off: focus, the tick or the timer unless it is flagged, a click in any case. */
  predicate Releases(d: Device, e: Event, held: Held) {
    match e
    case Confirms => true
    case Focuses => !held.risk
    case GraceEnds(focus) => !held.risk && d.graceTimer && !d.recent && focus
    case Looks(_) => !held.risk && !d.suppressed && !d.recent
    case _ => false
  }

  /** Then it is written, and the slot is free. */
  lemma ReleasedIsWritten(danger: Danger, d: Device, e: Event, held: Held)
    requires OrderInv(d.l) && d.binds && d.l.pending == Some(held) && Releases(d, e, held)
    ensures var z := Next(danger, d, e);
            && Writing(d, z, held.text, held.num, held.origin, if e.Confirms? then Confirmed else Flushed)
            && z.l.pending == None && !z.graceTimer
            && z.l.writes[d.l.nextWrite].owed == Some(Owed(held.risk, d.l.gen))
  {
    hide WritesInOrder, LandedInOrder, LogInOrder;
  }

  /** How a held clip can leave the slot: written, superseded, declined, or with its session or mode. */
  ghost predicate Exit(danger: Danger, d: Device, e: Event, held: Held)
    requires Possible(d, e)
  {
    var z := Next(danger, d, e);
    || (exists cause :: Writing(d, z, held.text, held.num, held.origin, cause))
    || (z.l.pending.Some? && z.l.pending.value.num > held.num)
    || z.l.writtenNum >= held.num
    || e.Declines? || e.Leaves? || e == Mode(false) || !d.binds
  }

  lemma ReleaseExits(danger: Danger, d: Device, e: Event, held: Held)
    requires OrderInv(d.l) && d.l.pending == Some(held) && Releases(d, e, held)
    ensures Exit(danger, d, e, held)
  {
    hide OrderInv, Next, Writing;
    if d.binds { ReleasedIsWritten(danger, d, e, held); }
  }

  lemma TakingExits(danger: Danger, d: Device, e: Event, held: Held)
    requires OrderInv(d.l) && d.l.pending == Some(held) && (e.Arrives? || e.Puts?) && Next(danger, d, e).l.pending != Some(held)
    ensures Next(danger, d, e).l.pending.Some? && Next(danger, d, e).l.pending.value.num > held.num
  {
    hide WritesInOrder, LandedInOrder, LogInOrder, Defuse, Flagged;
  }

  lemma WritesExit(danger: Danger, d: Device, e: Event, held: Held)
    requires OrderInv(d.l) && d.l.pending == Some(held) && Possible(d, e) && (e.Lands? || e.Ends? || e.Resumes?)
    requires Next(danger, d, e).l.pending != Some(held)
    ensures Next(danger, d, e).l.writtenNum >= held.num
  {
    hide WritesInOrder, LandedInOrder, LogInOrder;
  }

  /** Nothing else empties the slot. */
  lemma OthersKeep(danger: Danger, d: Device, e: Event, held: Held)
    requires Possible(d, e) && d.l.pending == Some(held) && !Releases(d, e, held)
    requires !e.Arrives? && !e.Puts? && !e.Lands? && !e.Ends? && !e.Resumes?
    ensures Next(danger, d, e).l.pending == Some(held) || e.Declines? || e.Leaves? || e == Mode(false)
  {
    hide Capture;
    CaptureKeepsLedger();
  }

  lemma StepExits(danger: Danger, d: Device, e: Event, held: Held)
    requires OrderInv(d.l) && Possible(d, e) && d.l.pending == Some(held) && Next(danger, d, e).l.pending != Some(held)
    ensures Exit(danger, d, e, held)
  {
    hide OrderInv, Next, Writing;
    if Releases(d, e, held) {
      ReleaseExits(danger, d, e, held);
    } else if e.Arrives? || e.Puts? {
      TakingExits(danger, d, e, held);
    } else if e.Lands? || e.Ends? || e.Resumes? {
      WritesExit(danger, d, e, held);
    } else {
      OthersKeep(danger, d, e, held);
    }
  }

  /** Somewhere in this run the clip leaves the slot, in one of those ways. */
  ghost predicate ExitsAt(danger: Danger, d: Device, run: seq<Event>, k: nat, held: Held)
    requires Feasible(danger, d, run)
  {
    && k < |run| && Feasible(danger, d, run[..k])
    && After(danger, d, run[..k]).l.pending == Some(held) && Possible(After(danger, d, run[..k]), run[k])
    && Exit(danger, After(danger, d, run[..k]), run[k], held)
  }

  lemma {:induction false} RunExits(danger: Danger, d: Device, run: seq<Event>, held: Held) returns (k: nat)
    requires Inv(danger, d.l) && Feasible(danger, d, run)
    requires d.l.pending == Some(held) && After(danger, d, run).l.pending != Some(held)
    ensures ExitsAt(danger, d, run, k, held)
    decreases |run|
  {
    hide Inv, Next, Possible, Exit, Moves;
    var d1 := Next(danger, d, run[0]);
    if d1.l.pending != Some(held) {
      InvMeans(danger, d.l);
      StepExits(danger, d, run[0], held);
      k := 0;
      assert run[..0] == [];
    } else {
      StepInv(danger, d, run[0]);
      var m := RunExits(danger, d1, run[1..], held);
      k := m + 1;
      assert run[..k][0] == run[0] && run[..k][1..] == run[1..][..m];
    }
  }

  lemma InvMeans(danger: Danger, l: Ledger)
    requires Inv(danger, l)
    ensures OrderInv(l) && GensInOrder(l)
  {
  }

  lemma StepInv(danger: Danger, d: Device, e: Event)
    requires Inv(danger, d.l) && Possible(d, e)
    ensures Inv(danger, Next(danger, d, e).l)
  {
    hide Next, Moves, OrderInv, SafeInv, GensInOrder;
    NextMoves(danger, d, e);
    MovesInOrder(danger, d.l, Next(danger, d, e).l);
    MovesSafe(danger, d.l, Next(danger, d, e).l);
    MovesGens(danger, d.l, Next(danger, d, e).l);
  }

  /**
   In every run, from the first clip on: what was held and is held no more was written, or
   something at least as new had landed or taken the slot, or the user declined it, or its
   session or the mode that binds the clipboard had ended.
   */
  lemma HeldLeavesForAReason(danger: Danger, d: Device, before: seq<Event>, run: seq<Event>, held: Held) returns (k: nat)
    requires Unused(d.l) && Feasible(danger, d, before) && Feasible(danger, After(danger, d, before), run)
    requires After(danger, d, before).l.pending == Some(held)
    requires After(danger, After(danger, d, before), run).l.pending != Some(held)
    ensures ExitsAt(danger, After(danger, d, before), run, k, held)
  {
    hide After, Feasible, Inv, ExitsAt;
    UnusedInv(danger, d.l);
    RunInv(danger, d, before);
    k := RunExits(danger, After(danger, d, before), run, held);
  }

  // ------------------------------------------------------------------
  // The newest clip.
  // ------------------------------------------------------------------

  /** Held, being written, or something at least as new is known to have landed. */
  ghost predicate Kept(l: Ledger, num: nat, text: Text) {
    || (l.pending.Some? && l.pending.value.num == num && l.pending.value.text == text)
    || (exists w :: w in l.writes && BeingWritten(l, l.writes[w], num, text))
    || l.writtenNum >= num
  }

  predicate BeingWritten(l: Ledger, w: Write, num: nat, text: Text) {
    w.num == num && w.text == text && (w.owed.Some? ==> w.owed.value.gen == l.gen)
  }

  /**
   No newer clip, and the session and the mode go on; a write of it that nothing is owed
   for is not refused; and a refused one finds the slot empty.
   */
  predicate Spares(d: Device, e: Event, num: nat)
    requires Possible(d, e)
  {
    match e
    case Arrives(_, _) => false
    case Puts(_, _) => false
    case Declines => false
    case Leaves => false
    case Mode(binds) => binds
    case Ends(w) => d.l.writes[w].num == num ==> d.l.writes[w].landed || d.l.writes[w].owed.Some?
    case Resumes(w) => d.l.writes[w].num == num ==> d.l.pending.None?
    case _ => true
  }

  predicate Spared(danger: Danger, d: Device, run: seq<Event>, num: nat)
    requires Feasible(danger, d, run)
    decreases |run|
  {
    run == [] || (Spares(d, run[0], num) && Spared(danger, Next(danger, d, run[0]), run[1..], num))
  }

  lemma HereIsKept(l: Ledger, w: nat, num: nat, text: Text)
    requires w in l.writes && BeingWritten(l, l.writes[w], num, text)
    ensures Kept(l, num, text)
  {
  }

  lemma ReleaseKeeps(danger: Danger, d: Device, e: Event, num: nat, text: Text, held: Held)
    requires OrderInv(d.l) && d.binds && d.l.pending == Some(held) && Releases(d, e, held) && Kept(d.l, num, text)
    ensures Kept(Next(danger, d, e).l, num, text)
  {
    hide OrderInv;
    var z := Next(danger, d, e);
    ReleaseShape(danger, d, e, held);
    if held.num == num && held.text == text {
      HereIsKept(z.l, d.l.nextWrite, num, text);
    } else if w :| w in d.l.writes && BeingWritten(d.l, d.l.writes[w], num, text) {
      HereIsKept(z.l, w, num, text);
    }
  }

  lemma ReleaseShape(danger: Danger, d: Device, e: Event, held: Held)
    requires OrderInv(d.l) && d.binds && d.l.pending == Some(held) && Releases(d, e, held)
    ensures var l := Next(danger, d, e).l;
            && l.gen == d.l.gen && l.writtenNum == d.l.writtenNum
            && d.l.nextWrite in l.writes && l.writes[d.l.nextWrite].num == held.num && l.writes[d.l.nextWrite].text == held.text
            && l.writes[d.l.nextWrite].owed == Some(Owed(held.risk, d.l.gen))
            && forall w :: w in d.l.writes ==> w in l.writes && l.writes[w] == d.l.writes[w].(alone := false)
  {
    hide LandedInOrder, LogInOrder;
  }

  lemma LandKeeps(l: Ledger, w: nat, num: nat, text: Text)
    requires Kept(l, num, text) && w in l.writes
    ensures Kept(Landed(l, w), num, text)
  {
    if v :| v in l.writes && BeingWritten(l, l.writes[v], num, text) {
      HereIsKept(Landed(l, w), v, num, text);
    }
  }

  lemma SettleKeeps(l: Ledger, w: nat, num: nat, text: Text)
    requires Kept(l, num, text) && w in l.writes
    requires l.writes[w].num == num ==> l.writes[w].landed || l.writes[w].owed.Some?
    ensures Kept(Settled(l, w), num, text)
  {
    if v :| v in l.writes && BeingWritten(l, l.writes[v], num, text) {
      if v != w || (!l.writes[w].landed && l.writes[w].owed.Some?) {
        HereIsKept(Settled(l, w), v, num, text);
      }
    }
  }

  lemma ResumeKeeps(l: Ledger, w: nat, num: nat, text: Text)
    requires Kept(l, num, text) && w in l.writes && l.writes[w].owed.Some?
    requires l.writes[w].num == num ==> l.pending.None?
    ensures Kept(Resumed(l, w), num, text)
  {
    if v :| v in l.writes && BeingWritten(l, l.writes[v], num, text) {
      if v != w {
        HereIsKept(Resumed(l, w), v, num, text);
      }
    }
  }

  /** A refused write that waits to be resumed came from the slot. */
  ghost predicate RefusedOwed(l: Ledger) {
    forall w :: w in l.writes && l.writes[w].refused ==> l.writes[w].owed.Some?
  }

  lemma StepRefusedOwed(danger: Danger, d: Device, e: Event)
    requires RefusedOwed(d.l) && Possible(d, e)
    ensures RefusedOwed(Next(danger, d, e).l)
  {
    hide Next, Moves;
    NextMoves(danger, d, e);
    MovesRefusedOwed(danger, d.l, Next(danger, d, e).l);
  }

  lemma BeginRefusedOwed(l: Ledger, text: Text, prev: Text, num: nat, owed: Option<Owed>, origin: Origin, cause: Cause)
    requires RefusedOwed(l)
    ensures RefusedOwed(Begin(l, text, prev, num, owed, origin, cause))
  {
  }

  lemma ProgressRefusedOwed(l: Ledger, w: nat)
    requires RefusedOwed(l) && w in l.writes
    ensures RefusedOwed(Landed(l, w)) && RefusedOwed(Settled(l, w)) && RefusedOwed(Resumed(l, w))
  {
  }

  lemma MovesRefusedOwed(danger: Danger, l: Ledger, m: Ledger)
    requires RefusedOwed(l) && Moves(danger, l, m)
    ensures RefusedOwed(m)
  {
    hide ArrivalMoves, PutMoves, SlotMoves, Landed, Settled, Resumed, Begin;
    if raw, prev :| ArrivalMoves(danger, l, m, raw, prev) {
      StartsRefusedOwed(danger, l, m);
    } else if text, prev :| PutMoves(l, m, text, prev) {
      StartsRefusedOwed(danger, l, m);
    } else if prev, cause :| SlotMoves(l, m, prev, cause) {
      StartsRefusedOwed(danger, l, m);
    } else if w :| w in l.writes && !l.writes[w].landed && !l.writes[w].refused && m == Landed(l, w) {
      ProgressRefusedOwed(l, w);
    } else if w :| w in l.writes && !l.writes[w].refused && m == Settled(l, w) {
      ProgressRefusedOwed(l, w);
    } else if w :| w in l.writes && l.writes[w].refused && m == Resumed(l, w) {
      ProgressRefusedOwed(l, w);
    }
  }

  lemma StartsRefusedOwed(danger: Danger, l: Ledger, m: Ledger)
    requires RefusedOwed(l)
    ensures forall raw, prev :: ArrivalMoves(danger, l, m, raw, prev) ==> RefusedOwed(m)
    ensures forall text, prev :: PutMoves(l, m, text, prev) ==> RefusedOwed(m)
    ensures forall prev, cause :: SlotMoves(l, m, prev, cause) ==> RefusedOwed(m)
  {
    hide Begin, Defuse, Flagged, RefusedOwed;
    forall raw, prev | ArrivalMoves(danger, l, m, raw, prev)
      ensures RefusedOwed(m)
    {
      SlotKeepsRefusedOwed(l, m);
      BeginRefusedOwed(Numbered(l), Defuse(raw), prev, l.arrivalNum + 1, None, Peer(raw), Direct);
    }
    forall text, prev | PutMoves(l, m, text, prev)
      ensures RefusedOwed(m)
    {
      SlotKeepsRefusedOwed(l, m);
      BeginRefusedOwed(Numbered(l), text, prev, l.arrivalNum + 1, None, Own, Direct);
    }
    forall prev, cause | SlotMoves(l, m, prev, cause)
      ensures RefusedOwed(m)
    {
      var held := l.pending.value;
      SlotKeepsRefusedOwed(l, m);
      BeginRefusedOwed(l.(pending := None), held.text, prev, held.num, Some(Owed(held.risk, l.gen)), held.origin, cause);
    }
  }

  lemma SlotKeepsRefusedOwed(l: Ledger, m: Ledger)
    requires RefusedOwed(l)
    ensures m.writes == l.writes ==> RefusedOwed(m)
    ensures RefusedOwed(Numbered(l)) && RefusedOwed(l.(pending := None))
  {
  }

  /** What neither writes, nor takes, nor releases leaves the writes alone. */
  lemma OthersLeaveWrites(danger: Danger, d: Device, e: Event, num: nat)
    requires Possible(d, e) && Spares(d, e, num) && !e.Lands? && !e.Ends? && !e.Resumes?
    requires d.l.pending.Some? ==> !Releases(d, e, d.l.pending.value)
    ensures Next(danger, d, e).l == d.l
  {
    hide Capture;
    CaptureKeepsLedger();
  }

  lemma StepKeeps(danger: Danger, d: Device, e: Event, num: nat, text: Text)
    requires OrderInv(d.l) && RefusedOwed(d.l) && d.binds && Possible(d, e) && Spares(d, e, num) && Kept(d.l, num, text)
    ensures Kept(Next(danger, d, e).l, num, text)
  {
    hide OrderInv, Kept, Landed, Settled, Resumed, Releases, Flush, Confirm, GraceFires, TryRead;
    if e.Lands? {
      LandKeeps(d.l, e.w, num, text);
    } else if e.Ends? {
      SettleKeeps(d.l, e.w, num, text);
    } else if e.Resumes? {
      ResumeKeeps(d.l, e.w, num, text);
    } else if d.l.pending.Some? && Releases(d, e, d.l.pending.value) {
      hide Next;
      ReleaseKeeps(danger, d, e, num, text, d.l.pending.value);
    } else {
      OthersLeaveWrites(danger, d, e, num);
    }
  }

  lemma StepBinds(danger: Danger, d: Device, e: Event, num: nat)
    requires Possible(d, e) && Spares(d, e, num) && d.binds
    ensures Next(danger, d, e).binds
  {
    hide Begin, Settled, Resumed, Landed;
  }

  lemma {:induction false} RunKeeps(danger: Danger, d: Device, run: seq<Event>, num: nat, text: Text)
    requires Inv(danger, d.l) && RefusedOwed(d.l) && d.binds && Feasible(danger, d, run) && Spared(danger, d, run, num) && Kept(d.l, num, text)
    ensures Inv(danger, After(danger, d, run).l) && Kept(After(danger, d, run).l, num, text)
    decreases |run|
  {
    hide Inv, Kept, Next, Possible, Spares, RefusedOwed;
    if run != [] {
      InvMeans(danger, d.l);
      StepKeeps(danger, d, run[0], num, text);
      StepInv(danger, d, run[0]);
      StepRefusedOwed(danger, d, run[0]);
      StepBinds(danger, d, run[0], num);
      RunKeeps(danger, Next(danger, d, run[0]), run[1..], num, text);
    }
  }

  lemma {:induction false} RunRefusedOwed(danger: Danger, d: Device, run: seq<Event>)
    requires RefusedOwed(d.l) && Feasible(danger, d, run)
    ensures RefusedOwed(After(danger, d, run).l)
    decreases |run|
  {
    hide RefusedOwed, Next, Possible;
    if run != [] {
      StepRefusedOwed(danger, d, run[0]);
      RunRefusedOwed(danger, Next(danger, d, run[0]), run[1..]);
    }
  }

  /**
   The newest clip, from any state on: in every run that spares it, it is held, being
   written, or known to have landed; and with nothing held or under way it has landed.
   */
  lemma NewestIsKept(danger: Danger, d: Device, before: seq<Event>, e: Event, run: seq<Event>)
    requires Unused(d.l) && Feasible(danger, d, before)
    requires var y := After(danger, d, before);
             && y.binds && (e.Arrives? || e.Puts?) && (e.Arrives? ==> Defuse(e.raw) != []) && (e.Puts? ==> e.text != [])
             && Feasible(danger, Next(danger, y, e), run) && Spared(danger, Next(danger, y, e), run, y.l.arrivalNum + 1)
    ensures var y := After(danger, d, before); var z := After(danger, Next(danger, y, e), run);
            && Kept(z.l, y.l.arrivalNum + 1, if e.Arrives? then Defuse(e.raw) else e.text)
            && (z.l.pending.None? && z.l.writes == map[] ==> z.l.writtenNum >= y.l.arrivalNum + 1)
  {
    hide After, Feasible, Inv, Kept, Next, Spared, Defuse, RefusedOwed;
    UnusedInv(danger, d.l);
    RunInv(danger, d, before);
    UnusedRefusedOwed(d.l);
    RunRefusedOwed(danger, d, before);
    var y := After(danger, d, before);
    TakenIsKept(danger, y, e);
    StepInv(danger, y, e);
    StepRefusedOwed(danger, y, e);
    var num, text := y.l.arrivalNum + 1, if e.Arrives? then Defuse(e.raw) else e.text;
    RunKeeps(danger, Next(danger, y, e), run, num, text);
    KeptMeans(After(danger, Next(danger, y, e), run).l, num, text);
  }

  lemma UnusedRefusedOwed(l: Ledger)
    requires Unused(l)
    ensures RefusedOwed(l)
  {
  }

  lemma KeptMeans(l: Ledger, num: nat, text: Text)
    requires Kept(l, num, text)
    ensures l.pending.None? && l.writes == map[] ==> l.writtenNum >= num
  {
  }

  lemma TakenIsKept(danger: Danger, d: Device, e: Event)
    requires d.binds && (e.Arrives? || e.Puts?) && (e.Arrives? ==> Defuse(e.raw) != []) && (e.Puts? ==> e.text != [])
    ensures Next(danger, d, e).binds
    ensures Kept(Next(danger, d, e).l, d.l.arrivalNum + 1, if e.Arrives? then Defuse(e.raw) else e.text)
  {
    hide Defuse, Flagged, Kept;
    var z := Next(danger, d, e);
    var num, text := d.l.arrivalNum + 1, if e.Arrives? then Defuse(e.raw) else e.text;
    if e.Arrives? { ArrivalIsTaken(danger, d, e.raw, e.focus); } else { OwnTextIsTaken(danger, d, e.text, e.focus); }
    if z.l.pending.Some? && z.l.pending.value.num == num && z.l.pending.value.text == text {
      HeldIsKept(z.l, num, text);
    } else {
      HereIsKept(z.l, d.l.nextWrite, num, text);
    }
  }

  lemma HeldIsKept(l: Ledger, num: nat, text: Text)
    requires l.pending.Some? && l.pending.value.num == num && l.pending.value.text == text
    ensures Kept(l, num, text)
  {
  }

  // ------------------------------------------------------------------
  // An older clip in the slot.
  // ------------------------------------------------------------------

  /** A refused clip of this session that nothing newer has overtaken goes back exactly if the slot is empty. */
  lemma ReturnsIfSlotEmpty(l: Ledger, w: nat)
    requires OrderInv(l) && w in l.writes && l.writes[w].refused && l.writes[w].owed.Some?
    requires l.writes[w].owed.value.gen == l.gen && l.writes[w].num > l.writtenNum
    ensures Kept(Resumed(l, w), l.writes[w].num, l.writes[w].text) <==> l.pending.None?
  {
    hide LandedInOrder, LogInOrder;
    var m := Resumed(l, w);
    assert m.writes == l.writes - {w};
  }

  /** Two clips of the user's, each held and flushed; both writes are refused, the older one's first. */
  function Flushes(a: Text, b: Text): seq<Event> {
    [Puts(a, false), Focuses, Puts(b, false), Focuses]
  }

  const Refusals: seq<Event> := [Ends(0), Resumes(0), Ends(1), Resumes(1)]

  lemma One(danger: Danger, d: Device, e: Event, rest: seq<Event>)
    requires Possible(d, e) && Feasible(danger, Next(danger, d, e), rest)
    ensures Feasible(danger, d, [e] + rest) && After(danger, d, [e] + rest) == After(danger, Next(danger, d, e), rest)
  {
    assert ([e] + rest)[1..] == rest;
  }

  ghost predicate BothAsked(d: Device, a: Text) {
    && d.l.pending.None? && d.l.gen == 0 && d.l.writtenNum == 0 && d.l.writes.Keys == {0, 1}
    && (forall w :: w in {0, 1} ==> !d.l.writes[w].landed && !d.l.writes[w].refused && d.l.writes[w].owed == Some(Owed(false, 0)))
    && d.l.writes[0].num == 1 && d.l.writes[0].text == a && d.l.writes[0].origin == Own
  }

  lemma FlushesLeave(danger: Danger, d: Device, a: Text, b: Text)
    requires Unused(d.l) && d.binds && a != [] && b != []
    ensures var z := Next(danger, Next(danger, Next(danger, Next(danger, d, Puts(a, false)), Focuses), Puts(b, false)), Focuses);
            BothAsked(z, a) && z.l.writes[1].num == 2 && z.l.writes[1].text == b && z.l.arrivalNum == 2
  {
    var d2 := Next(danger, Next(danger, d, Puts(a, false)), Focuses);
    assert d2.l.writes == map[0 := Write(a, d.lastSent, 1, Some(Owed(false, 0)), Own, Flushed, false, false, true)];
    var d4 := Next(danger, Next(danger, d2, Puts(b, false)), Focuses);
    assert d4.l.writes.Keys == {0, 1};
  }

  lemma FlushesRun(danger: Danger, d: Device, a: Text, b: Text)
    requires Unused(d.l) && d.binds && a != [] && b != []
    ensures Feasible(danger, d, Flushes(a, b))
    ensures var z := After(danger, d, Flushes(a, b));
            BothAsked(z, a) && z.l.writes[1].num == 2 && z.l.writes[1].text == b && z.l.arrivalNum == 2
  {
    hide After, Feasible, Next, BothAsked;
    FlushesLeave(danger, d, a, b);
    var d1 := Next(danger, d, Puts(a, false));
    var d2 := Next(danger, d1, Focuses);
    var d3 := Next(danger, d2, Puts(b, false));
    Stops(danger, Next(danger, d3, Focuses));
    One(danger, d3, Focuses, []);
    assert [Focuses] + [] == [Focuses];
    One(danger, d2, Puts(b, false), [Focuses]);
    One(danger, d1, Focuses, [Puts(b, false)] + [Focuses]);
    One(danger, d, Puts(a, false), [Focuses] + ([Puts(b, false)] + [Focuses]));
    assert [Puts(a, false)] + ([Focuses] + ([Puts(b, false)] + [Focuses])) == Flushes(a, b);
  }

  lemma Stops(danger: Danger, d: Device)
    ensures Feasible(danger, d, []) && After(danger, d, []) == d
  {
  }

  lemma RefusalsRun(danger: Danger, d: Device, a: Text)
    requires BothAsked(d, a)
    ensures Feasible(danger, d, Refusals)
    ensures var z := After(danger, d, Refusals);
            z.l.pending == Some(Held(a, false, 1, Own)) && z.l.writes == map[] && z.l.writtenNum == 0 && z.l.arrivalNum == d.l.arrivalNum
  {
    hide After, Feasible;
    var d1 := Next(danger, d, Ends(0));
    var d2 := Next(danger, d1, Resumes(0));
    assert d2.l.writes.Keys == {1};
    var d3 := Next(danger, d2, Ends(1));
    var d4 := Next(danger, d3, Resumes(1));
    assert d4.l.writes.Keys == {};
    Stops(danger, d4);
    One(danger, d3, Resumes(1), []);
    assert [Resumes(1)] + [] == [Resumes(1)];
    One(danger, d2, Ends(1), [Resumes(1)]);
    One(danger, d1, Resumes(0), [Ends(1)] + [Resumes(1)]);
    One(danger, d, Ends(0), [Resumes(0)] + ([Ends(1)] + [Resumes(1)]));
    assert [Ends(0)] + ([Resumes(0)] + ([Ends(1)] + [Resumes(1)])) == Refusals;
  }

  /**
   When both writes of two held clips are refused, the older one's first, it is the older
   one that is back in the slot, and the newer one is nowhere.
   */
  lemma OlderTakesTheSlot(danger: Danger, d: Device, a: Text, b: Text)
    requires Unused(d.l) && d.binds && a != [] && b != []
    ensures Feasible(danger, d, Flushes(a, b)) && Feasible(danger, After(danger, d, Flushes(a, b)), Refusals)
    ensures var z := After(danger, After(danger, d, Flushes(a, b)), Refusals);
            && z.l.arrivalNum == 2 && z.l.pending == Some(Held(a, false, 1, Own)) && z.l.writes == map[]
            && !Kept(z.l, 2, b)
  {
    hide After, Feasible, BothAsked;
    FlushesRun(danger, d, a, b);
    RefusalsRun(danger, After(danger, d, Flushes(a, b)), a);
  }

  // ------------------------------------------------------------------
  // Capturing.
  // ------------------------------------------------------------------

  /** Something visible is on the clipboard that is not what was last sent or applied. */
  predicate Fresh(d: Device) {
    d.binds && !d.suppressed && Trim(d.os) != [] && Trim(d.os) != Trim(d.lastSent)
  }

  /** It was captured, and other machines' clips wait for it. */
  predicate Captured(d: Device, z: Device) {
    z.sent == d.sent + [d.os] && z.lastSent == d.os && z.recent && z.l == d.l && z.os == d.os
  }

  /** Outside the window a fresh copy is captured by each of the three tiers: a paste, a native report, a read. */
  lemma FreshCopyIsCaptured(danger: Danger, d: Device, deliberate: bool)
    requires Fresh(d)
    ensures Captured(d, Next(danger, d, Pastes))
    ensures var z := Next(danger, d, Reports);
            Possible(z, Answers(d.nextRead)) && Captured(d, Next(danger, z, Answers(d.nextRead)))
    ensures d.l.pending.None? || d.l.pending.value.risk || d.recent ==>
            var z := Next(danger, d, Looks(deliberate));
            && Possible(z, Samples(d.nextRead))
            && var u := Next(danger, z, Samples(d.nextRead));
               Possible(u, Answers(d.nextRead)) && Captured(d, Next(danger, u, Answers(d.nextRead)))
  {
    hide Trim;
    TrimNothing();
  }

  lemma TrimNothing()
    ensures Trim([]) == []
  {
  }

  /** And no clip that arrives while it is fresh is written over it. */
  lemma FreshCopyIsLeftAlone(danger: Danger, d: Device, raw: Text, focus: bool)
    requires d.binds && d.recent && Defuse(raw) != []
    ensures var z := Next(danger, d, Arrives(raw, focus)); z.l.writes == d.l.writes && z.os == d.os && z.l.pending.Some?
  {
    hide Defuse, Flagged;
    ArrivalIsTaken(danger, d, raw, focus);
  }

  /** Every read under way is one of its own. */
  ghost predicate ReadsApart(d: Device) {
    forall r :: r in d.looks ==> r < d.nextRead
  }

  predicate Reading(e: Event) {
    e.Looks? || e.Reports? || e.Samples? || e.Answers? || e.Ends?
  }

  predicate SameReads(d: Device, z: Device) {
    z.looks == d.looks && z.nextRead == d.nextRead
  }

  lemma WritesKeepReads(danger: Danger, d: Device, cause: Cause, raw: Text, focus: bool)
    ensures SameReads(d, WritePending(d, cause)) && SameReads(d, Apply(danger, d, raw, focus)) && SameReads(d, PutOnClipboard(d, raw, focus))
  {
    hide Begin, Defuse, Flagged;
  }

  lemma CaptureKeepsReads(d: Device, text: Text, deliberate: bool)
    ensures SameReads(d, FromClipboard(d, text, deliberate))
  {
    hide Trim;
  }

  lemma OthersKeepReads(danger: Danger, d: Device, e: Event)
    requires Possible(d, e) && !Reading(e)
    ensures SameReads(d, Next(danger, d, e))
  {
    hide WritePending, Apply, PutOnClipboard, FromClipboard, Landed, Resumed;
    match e {
      case Arrives(raw, focus) => WritesKeepReads(danger, d, Direct, raw, focus);
      case Puts(text, focus) => WritesKeepReads(danger, d, Direct, text, focus);
      case Focuses => WritesKeepReads(danger, d, Flushed, [], false);
      case Confirms => WritesKeepReads(danger, d, Confirmed, [], false);
      case GraceEnds(_) => WritesKeepReads(danger, d.(graceTimer := false), Flushed, [], false);
      case Pastes => CaptureKeepsReads(d, d.os, true);
      case _ =>
    }
  }

  /** No read is lost or changed but this one, if any. */
  ghost predicate KeepsReads(d: Device, z: Device, but: Option<nat>) {
    && ReadsApart(z)
    && forall r :: r in d.looks && but != Some(r) ==>
         r in z.looks && (d.looks[r].value.Some? ==> z.looks[r].value == d.looks[r].value)
  }

  lemma TryReadApart(danger: Danger, d: Device, deliberate: bool)
    requires ReadsApart(d)
    ensures KeepsReads(d, TryRead(d, deliberate), None) && KeepsReads(d, NativeReport(d), None)
  {
    hide WritePending;
    WritesKeepReads(danger, d, Flushed, [], false);
  }

  lemma SampleApart(d: Device, r: nat)
    requires ReadsApart(d) && r in d.looks
    ensures KeepsReads(d, Sample(d, r), None)
  {
  }

  lemma AnswerApart(d: Device, r: nat)
    requires ReadsApart(d) && r in d.looks
    ensures KeepsReads(d, ReadDone(d, r), Some(r))
  {
    hide FromClipboard;
    if d.looks[r].value.Some? { CaptureKeepsReads(d.(looks := d.looks - {r}), d.looks[r].value.value, d.looks[r].deliberate); }
  }

  lemma DoneApart(d: Device, w: nat)
    requires ReadsApart(d) && w in d.l.writes
    ensures KeepsReads(d, Done(d, w), None)
  {
    hide Settled;
  }

  /** No read takes another's place, and what one has sampled is what it will answer with. */
  lemma StepReadsApart(danger: Danger, d: Device, e: Event)
    requires ReadsApart(d) && Possible(d, e)
    ensures KeepsReads(d, Next(danger, d, e), if e.Answers? then Some(e.r) else None)
  {
    hide TryRead, NativeReport, Sample, ReadDone, Done, KeepsReads;
    match e {
      case Looks(deliberate) => TryReadApart(danger, d, deliberate);
      case Reports => TryReadApart(danger, d, false);
      case Samples(r) => SampleApart(d, r);
      case Answers(r) => AnswerApart(d, r);
      case Ends(w) => DoneApart(d, w);
      case _ => OthersKeepReads(danger, d, e); SameIsKept(d, Next(danger, d, e));
    }
  }

  lemma SameIsKept(d: Device, z: Device)
    requires ReadsApart(d) && SameReads(d, z)
    ensures KeepsReads(d, z, None)
  {
  }

  /** A copy made inside a window is captured once the window has ended. */
  lemma CopyAfterWindow(danger: Danger, d: Device, text: Text, deliberate: bool)
    requires d.binds && Trim(text) != [] && Trim(text) != Trim(d.lastSent)
    requires d.l.pending.None? || d.l.pending.value.risk || d.recent
    ensures var y := Next(danger, Next(danger, d, Copies(text)), WindowEnds);
            && Captured(y, Next(danger, y, Pastes)) && y.os == text && y.sent == d.sent
            && var z := Next(danger, y, Looks(deliberate));
               && Possible(z, Samples(y.nextRead))
               && var u := Next(danger, z, Samples(y.nextRead));
                  Possible(u, Answers(y.nextRead)) && Next(danger, u, Answers(y.nextRead)).sent == d.sent + [text]
  {
    hide Trim;
    FreshCopyIsCaptured(danger, Next(danger, Next(danger, d, Copies(text)), WindowEnds), deliberate);
  }

  /** A clip that was kept off by a local copy is written at once when it arrives after that copy has aged. */
  lemma AgedCopyGivesWay(danger: Danger, d: Device, raw: Text)
    requires d.binds && Defuse(raw) != [] && !Flagged(danger, Defuse(raw))
    ensures var y := Next(danger, d, RecentEnds);
            Writing(y, Next(danger, y, Arrives(raw, true)), Defuse(raw), d.l.arrivalNum + 1, Peer(raw), Direct)
  {
    hide Defuse, Flagged;
    ArrivalIsTaken(danger, Next(danger, d, RecentEnds), raw, true);
  }

  /** A refusal takes back the write's own claim, and nobody else's. */
  lemma RefusalTakesBackItsClaim(danger: Danger, d: Device, w: nat)
    requires Possible(d, Ends(w)) && !d.l.writes[w].landed
    ensures var z := Next(danger, d, Ends(w));
            && (d.lastSent != d.l.writes[w].text ==> z.lastSent == d.lastSent)
            && (d.lastSent == d.l.writes[w].text ==> z.lastSent == d.l.writes[w].prev)
            && z.os == d.os
  {
    hide Settled;
  }

  /** What has landed is never forgotten: the highest number that did only rises. */
  lemma TopRises(danger: Danger, d: Device, e: Event)
    requires Possible(d, e)
    ensures Next(danger, d, e).l.top >= d.l.top
    ensures e.Lands? ==> Next(danger, d, e).l.top >= d.l.writes[e.w].num
  {
    hide Next, Moves;
    NextMoves(danger, d, e);
    MovesTop(danger, d.l, Next(danger, d, e).l);
    if e.Lands? { LandsTop(danger, d, e.w); }
  }

  lemma LandsTop(danger: Danger, d: Device, w: nat)
    requires Possible(d, Lands(w))
    ensures Next(danger, d, Lands(w)).l.top >= d.l.writes[w].num
  {
  }

  lemma MovesTop(danger: Danger, l: Ledger, m: Ledger)
    requires Moves(danger, l, m)
    ensures m.top >= l.top
  {
    hide Defuse, Flagged;
  }

  // ------------------------------------------------------------------
  // A mode that leaves the clipboard alone.
  // ------------------------------------------------------------------

  /** A refused write comes back to the slot, where it stays; nothing is written from there. */
  ghost predicate LeftAlone(d: Device, log: seq<Start>, sent: seq<Text>) {
    !d.binds && d.l.log == log && d.sent == sent
  }

  lemma StepLeftAlone(danger: Danger, d: Device, e: Event, log: seq<Start>, sent: seq<Text>)
    requires LeftAlone(d, log, sent) && Possible(d, e) && e != Mode(true) && !e.Pastes?
    ensures LeftAlone(Next(danger, d, e), log, sent)
  {
    hide Trim;
  }

  lemma {:induction false} RunLeftAlone(danger: Danger, d: Device, run: seq<Event>, log: seq<Start>, sent: seq<Text>)
    requires LeftAlone(d, log, sent) && Feasible(danger, d, run) && Mode(true) !in run && Pastes !in run
    ensures LeftAlone(After(danger, d, run), log, sent)
    decreases |run|
  {
    hide LeftAlone, Next, Possible;
    if run != [] {
      StepLeftAlone(danger, d, run[0], log, sent);
      RunLeftAlone(danger, Next(danger, d, run[0]), run[1..], log, sent);
    }
  }

  /**
   In a mode that does not bind the clipboard no write starts and nothing is captured but
   what is pasted into the window, whatever arrives, is focused, clicked or read.
   */
  lemma UnboundIsLeftAlone(danger: Danger, d: Device, run: seq<Event>)
    requires Feasible(danger, Next(danger, d, Mode(false)), run) && Mode(true) !in run && Pastes !in run
    ensures var z := After(danger, Next(danger, d, Mode(false)), run);
            && z.l.log == d.l.log && z.sent == d.sent && !z.binds && Next(danger, z, Mode(true)).binds
            && forall deliberate :: Next(danger, z, Looks(deliberate)) == z
  {
    hide After, Feasible;
    RunLeftAlone(danger, Next(danger, d, Mode(false)), run, d.l.log, d.sent);
  }
}
