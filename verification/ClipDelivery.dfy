/**
 Who is told, of the room of `ClipLog`: `_broadcast` and `_handle_raw` of backend/main.py.

 `ClipLog` says what a peer in the room has received. Here is who is in the room: whoever
 joined stays until it leaves, a write to it fails or the room is retired, whatever befalls
 the others; it is told every clip that anyone else says after it joined, and nobody who
 is gone is told anything more.
 */
module ClipDelivery {
  import opened Options
  import opened ClipLog

  /** The clips of a run, in order. */
  function SaidIn(run: seq<Event>): seq<Said>
    decreases |run|
  {
    if run == [] then []
    else (if run[0].Says? then [Said(run[0].conn, run[0].body)] else []) + SaidIn(run[1..])
  }

  /** Every clip is accepted, once, and numbered in the order of arrival. */
  lemma {:induction false} LogIsWhatWasSaid(y: Room, run: seq<Event>)
    requires Feasible(y, run)
    ensures After(y, run).log == y.log + SaidIn(run)
    decreases |run|
  {
    hide Next, Possible;
    if run != [] {
      StepLogs(y, run[0]);
      LogIsWhatWasSaid(Next(y, run[0]), run[1..]);
    }
  }

  lemma StepLogs(y: Room, e: Event)
    requires Possible(y, e)
    ensures Next(y, e).log == y.log + SaidIn([e])
  {
    hide Asked, Ended;
    assert SaidIn([e][1..]) == [];
  }

  // ------------------------------------------------------------------
  // Who stays.
  // ------------------------------------------------------------------

  /** It does not leave, no write to it fails, and the room goes on. */
  predicate Spares(e: Event, conn: Conn) {
    e != Leaves(conn) && e != CutsOff(conn) && !(e.Fails? && e.conn == conn) && !e.Retires?
  }

  predicate AllSpare(run: seq<Event>, conn: Conn) {
    forall k :: 0 <= k < |run| ==> Spares(run[k], conn)
  }

  ghost predicate Present(y: Room, conn: Conn) {
    && conn in y.peers && conn in y.links && !Doomed(y, conn)
    && y.links[conn].lost == 0 && !y.links[conn].welcomeFailed
  }

  lemma EndedBlames(fanouts: map<nat, FanOut>, w: Write, conn: Conn, ok: bool, c: Conn)
    requires forall f :: f in fanouts ==> c !in fanouts[f].failed
    requires ok || c != conn
    ensures forall f :: f in Ended(fanouts, w, conn, ok) ==> c !in Ended(fanouts, w, conn, ok)[f].failed
  {
  }

  lemma StepKeeps(y: Room, e: Event, conn: Conn)
    requires Possible(y, e) && Present(y, conn) && Spares(e, conn)
    ensures Present(Next(y, e), conn) && Next(y, e).links[conn].start == y.links[conn].start
  {
    hide Asked, Ended;
    AskedKeeps(y, conn);
    match e {
      case Writes(c) => EndedBlames(y.fanouts, y.links[c].waiting[0], c, true, conn);
      case Fails(c, i) => EndedBlames(y.fanouts, y.links[c].waiting[i], c, false, conn);
      case CutsOff(c) => EndedBlames(y.fanouts, y.links[c].waiting[0], c, false, conn);
      case _ =>
    }
  }

  lemma AskedKeeps(y: Room, conn: Conn)
    requires conn in y.links
    ensures forall targets, w :: conn in Asked(y.links, targets, w)
              && Asked(y.links, targets, w)[conn] == y.links[conn].(waiting := Asked(y.links, targets, w)[conn].waiting)
  {
  }

  lemma {:induction false} RunKeeps(y: Room, run: seq<Event>, conn: Conn)
    requires Feasible(y, run) && Present(y, conn) && AllSpare(run, conn)
    ensures Present(After(y, run), conn) && After(y, run).links[conn].start == y.links[conn].start
    decreases |run|
  {
    hide Next, Possible, Present, Spares;
    PresentMeans(y, conn);
    if run != [] {
      StepKeeps(y, run[0], conn);
      RunKeeps(Next(y, run[0]), run[1..], conn);
    }
    PresentMeans(After(y, run), conn);
  }

  lemma PresentMeans(y: Room, conn: Conn)
    ensures Present(y, conn) ==> conn in y.links && conn in y.peers
  {
  }

  /**
   Whoever joined is still in the room, whatever befell the others, unless it left, a
   write to it failed or the room was retired; and it has been told, or is about to be,
   the replay and every clip that anyone else said since, in order and once each.
   */
  lemma {:induction false} JoinedIsTold(before: seq<Event>, conn: Conn, kind: Kind, after: seq<Event>)
    requires Feasible(EMPTY, before) && Possible(After(EMPTY, before), Joins(conn, kind))
    requires Feasible(Next(After(EMPTY, before), Joins(conn, kind)), after) && AllSpare(after, conn)
    ensures var z := After(Next(After(EMPTY, before), Joins(conn, kind)), after);
            && conn in z.peers && conn in z.links
            && Clips(z.links[conn].got) + Clips(z.links[conn].queue + Frames(z.links[conn].waiting))
               == Expected(SaidIn(before) + SaidIn(after), |SaidIn(before)|, conn)
  {
    hide After, Feasible, Next, Possible, Present, SaidIn, Clips, Expected, Frames;
    var y := After(EMPTY, before);
    var e := Joins(conn, kind);
    var z := After(Next(y, e), after);
    EmptyInv();
    RunInv(EMPTY, before);
    RunKnown(EMPTY, before);
    JoinArrives(y, conn, kind);
    RunKeeps(Next(y, e), after, conn);
    LogIsWhatWasSaid(EMPTY, before);
    LogIsWhatWasSaid(Next(y, e), after);
    assert [] + SaidIn(before) == SaidIn(before);
    Then(EMPTY, before, e);
    RunOn(EMPTY, before + [e], after);
    assert z == After(EMPTY, before + [e] + after);
    PresentIsNotSuspect(z, conn);
    PresentMeans(z, conn);
    GapFree(before + [e] + after, conn);
  }

  lemma PresentIsNotSuspect(y: Room, conn: Conn)
    requires Present(y, conn)
    ensures !Suspect(y, conn)
  {
  }

  /** Only who has joined is ever a peer, or waited for, or blamed. */
  ghost predicate Known(y: Room) {
    && y.peers <= y.links.Keys
    && forall f :: f in y.fanouts ==> y.fanouts[f].pending <= y.links.Keys && y.fanouts[f].failed <= y.links.Keys
  }

  lemma EndedKnown(fanouts: map<nat, FanOut>, w: Write, conn: Conn, ok: bool, keys: set<Conn>)
    requires conn in keys && forall f :: f in fanouts ==> fanouts[f].pending <= keys && fanouts[f].failed <= keys
    ensures var after := Ended(fanouts, w, conn, ok); forall f :: f in after ==> after[f].pending <= keys && after[f].failed <= keys
  {
  }

  lemma AskedKeys(links: map<Conn, Link>, targets: set<Conn>, w: Write)
    ensures Asked(links, targets, w).Keys == links.Keys
  {
  }

  lemma BroadcastKnown(y: Room, frame: Frame, exclude: set<Conn>)
    requires Known(y)
    ensures Known(Broadcast(y, frame, exclude))
  {
    hide Asked;
    AskedKeys(y.links, y.peers - exclude, Write(frame, Some(y.nextFanout)));
  }

  lemma StepKnown(y: Room, e: Event)
    requires Known(y) && Possible(y, e)
    ensures Known(Next(y, e))
  {
    hide Asked, Ended, Broadcast;
    match e {
      case Says(c, body) => {
        var envelope := Envelope(y.counter + 1, body);
        BroadcastKnown(y.(counter := y.counter + 1, last := Some(envelope), log := y.log + [Said(c, body)]), Clip(envelope), {c});
      }
      case Announces(exclude) => BroadcastKnown(y, Other, exclude);
      case Forwards(c) => AskedKeys(y.links, {c}, Write(Other, None));
      case Writes(c) => EndedKnown(y.fanouts, y.links[c].waiting[0], c, true, y.links.Keys);
      case Fails(c, i) => EndedKnown(y.fanouts, y.links[c].waiting[i], c, false, y.links.Keys);
      case CutsOff(c) => EndedKnown(y.fanouts, y.links[c].waiting[0], c, false, y.links.Keys);
      case _ =>
    }
  }

  lemma {:induction false} RunKnown(y: Room, run: seq<Event>)
    requires Known(y) && Feasible(y, run)
    ensures Known(After(y, run))
    decreases |run|
  {
    hide Known, Next, Possible;
    if run != [] {
      StepKnown(y, run[0]);
      RunKnown(Next(y, run[0]), run[1..]);
    }
  }

  lemma JoinArrives(y: Room, conn: Conn, kind: Kind)
    requires Inv(y) && Known(y) && Possible(y, Joins(conn, kind))
    ensures var z := Next(y, Joins(conn, kind));
            Present(z, conn) && z.links[conn].start == |y.log| && z.log == y.log
  {
    hide LinkInv, Booked;
  }

  // ------------------------------------------------------------------
  // Who is told catches up.
  // ------------------------------------------------------------------

  function OnItsWay(link: Link): nat {
    2 * |link.waiting| + |link.queue|
  }

  /**
   What is on its way to a peer can be brought there, by nothing but its own writes and
   reads; then it has the replay and every clip that anyone else said since it joined.
   */
  lemma {:induction false} CatchesUp(run: seq<Event>, conn: Conn) returns (more: seq<Event>)
    requires Feasible(EMPTY, run) && Present(After(EMPTY, run), conn)
    ensures forall k :: 0 <= k < |more| ==> more[k] == Writes(conn) || more[k] == Reads(conn)
    ensures Feasible(EMPTY, run + more) && conn in After(EMPTY, run + more).links && After(EMPTY, run + more).log == After(EMPTY, run).log
    ensures After(EMPTY, run + more).links[conn].start == After(EMPTY, run).links[conn].start <= |After(EMPTY, run).log|
    ensures Clips(After(EMPTY, run + more).links[conn].got)
         == Expected(After(EMPTY, run).log, After(EMPTY, run).links[conn].start, conn)
    decreases OnItsWay(After(EMPTY, run).links[conn])
  {
    hide After, Feasible, Present, Clips, Expected, Next, Frames;
    var y := After(EMPTY, run);
    PresentMeans(y, conn);
    PresentIsNotSuspect(y, conn);
    GapFree(run, conn);
    if y.links[conn].queue == [] && y.links[conn].waiting == [] {
      more := [];
      assert run + more == run;
    } else {
      var e := if |y.links[conn].queue| > 0 then Reads(conn) else Writes(conn);
      OneNearer(y, conn, e);
      StepKeeps(y, e, conn);
      Then(EMPTY, run, e);
      var rest := CatchesUp(run + [e], conn);
      more := [e] + rest;
      assert run + more == run + [e] + rest;
    }
  }

  lemma OneNearer(y: Room, conn: Conn, e: Event)
    requires Present(y, conn) && OnItsWay(y.links[conn]) > 0
    requires e == if |y.links[conn].queue| > 0 then Reads(conn) else Writes(conn)
    ensures Possible(y, e) && conn in Next(y, e).links && OnItsWay(Next(y, e).links[conn]) < OnItsWay(y.links[conn])
    ensures Next(y, e).log == y.log
  {
    hide Ended;
  }

  // ------------------------------------------------------------------
  // Who could not be written to.
  // ------------------------------------------------------------------

  /** Out of the room, or about to be when this fan-out ends. */
  ghost predicate Going(y: Room, conn: Conn, f: nat) {
    conn in y.links && f < y.nextFanout && (conn !in y.peers || (f in y.fanouts && conn in y.fanouts[f].failed))
  }

  lemma StepGoing(y: Room, e: Event, conn: Conn, f: nat)
    requires Possible(y, e) && Going(y, conn, f)
    ensures Going(Next(y, e), conn, f)
    ensures e == Settles(f) ==> conn !in Next(y, e).peers
  {
    hide Asked;
    forall c, targets, w
      ensures c in Asked(y.links, targets, w) <==> c in y.links
    {
      AskedKeys(y.links, targets, w);
    }
  }

  lemma {:induction false} RunGoing(y: Room, run: seq<Event>, conn: Conn, f: nat)
    requires Feasible(y, run) && Going(y, conn, f)
    ensures Going(After(y, run), conn, f)
    ensures Settles(f) in run ==> conn !in After(y, run).peers
    decreases |run|
  {
    hide Next, Possible, Going;
    if run != [] {
      StepGoing(y, run[0], conn, f);
      RunGoing(Next(y, run[0]), run[1..], conn, f);
      if run[0] == Settles(f) {
        GoingIsIn(y, conn, f);
        GoingIsIn(Next(y, run[0]), conn, f);
        GoneStaysGone(Next(y, run[0]), run[1..], conn);
      }
    }
  }

  lemma GoingIsIn(y: Room, conn: Conn, f: nat)
    requires Going(y, conn, f)
    ensures conn in y.links
  {
  }

  /** A peer that could not be written to is out of the room once the last write of that fan-out has ended. */
  lemma FailedIsDropped(y: Room, e: Event, conn: Conn, f: nat, run: seq<Event>)
    requires Inv(y) && Possible(y, e) && f in y.fanouts
    requires (e.Fails? && e.conn == conn && y.links[conn].waiting[e.i].fanout == Some(f))
          || (e == CutsOff(conn) && y.links[conn].waiting[0].fanout == Some(f))
    requires Feasible(Next(y, e), run) && Settles(f) in run
    ensures conn !in After(Next(y, e), run).peers
  {
    hide After, Feasible, Told, Booked;
    RunGoing(Next(y, e), run, conn, f);
  }

  // ------------------------------------------------------------------
  // Who is gone.
  // ------------------------------------------------------------------

  ghost predicate Gone(y: Room, conn: Conn) {
    conn !in y.peers && conn in y.links
  }

  /** Nobody comes back, and nobody who is gone is told anything that was not under way to it. */
  lemma StepGone(y: Room, e: Event, conn: Conn)
    requires Possible(y, e) && Gone(y, conn)
    ensures Gone(Next(y, e), conn)
    ensures |Stream(Next(y, e).links[conn])| <= |Stream(y.links[conn])|
  {
    hide Ended;
  }

  lemma {:induction false} GoneStaysGone(y: Room, run: seq<Event>, conn: Conn)
    requires Feasible(y, run) && Gone(y, conn)
    ensures Gone(After(y, run), conn)
    ensures |Stream(After(y, run).links[conn])| <= |Stream(y.links[conn])|
    decreases |run|
  {
    hide Next, Possible, Stream;
    if run != [] {
      StepGone(y, run[0], conn);
      GoneStaysGone(Next(y, run[0]), run[1..], conn);
    }
  }

  /** Whoever left, or was in the room when it was retired, is gone for good. */
  lemma LeavingIsForGood(y: Room, e: Event, run: seq<Event>, conn: Conn)
    requires conn in y.peers && conn in y.links && Possible(y, e) && (e == Leaves(conn) || e == Retires)
    requires Feasible(Next(y, e), run)
    ensures conn !in After(Next(y, e), run).peers && conn in After(Next(y, e), run).links
    ensures |Stream(After(Next(y, e), run).links[conn])| <= |Stream(y.links[conn])|
  {
    hide After, Feasible, Stream;
    GoneStaysGone(Next(y, e), run, conn);
  }
}
