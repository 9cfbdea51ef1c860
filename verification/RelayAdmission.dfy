/**
 Who gets in, and who stays: `_admits`, `_join`, `hello` and the departures of
 backend/main.py, for every state that `RelayTable` can reach.

 `RelayTable` says what the relay's tables keep. Here is what an arrival can count on:
 each refusal has its reason in the tables, whoever gives none is admitted, and whoever
 was admitted stays, under its token, until its connection goes or its room expires.
 */
module RelayAdmission {
  import opened Options
  import opened RelayTable

  // ------------------------------------------------------------------
  // An arrival.
  // ------------------------------------------------------------------

  /** The room an arrival finds, if there is one that has not outlived its session. */
  predicate Stands(limits: Limits, y: Relay, a: Arrival) {
    a.hash in y.rooms && !(limits.maxSession > 0 && a.now - y.rooms[a.hash].created > limits.maxSession)
  }

  /** Who is in it. */
  function Occupants(limits: Limits, y: Relay, a: Arrival): map<Conn, Peer> {
    if Stands(limits, y, a) then y.rooms[a.hash].peers else map[]
  }

  predicate LacksOrgToken(limits: Limits, a: Arrival) {
    limits.joinToken.Some? && a.org != limits.joinToken.value
  }

  /** Its address has all the connections it may have, over all rooms. */
  ghost predicate AddressFull(limits: Limits, y: Relay, a: Arrival) {
    limits.maxConnsPerIp > 0 && a.ip != "" && |At(y.rooms, a.ip)| >= limits.maxConnsPerIp
  }

  /** It would need a new room, and there are as many as there may be. */
  predicate RelayFull(limits: Limits, y: Relay, a: Arrival) {
    !Stands(limits, y, a) && |y.rooms.Keys - {a.hash}| >= limits.maxRooms
  }

  /** Somebody there presented another token; in an empty room that waits, somebody before. */
  predicate TokenDiffers(limits: Limits, y: Relay, a: Arrival) {
    || (exists c :: c in Occupants(limits, y, a) && Occupants(limits, y, a)[c].token != a.token)
    || (Stands(limits, y, a) && y.rooms[a.hash].peers == map[] && y.rooms[a.hash].auth.Some? && y.rooms[a.hash].auth.value != a.token)
  }

  /** The answer, by the state of the tables alone. */
  ghost function Expected(limits: Limits, y: Relay, a: Arrival): Verdict {
    if LacksOrgToken(limits, a) then Refused(OrgTokenRequired)
    else if AddressFull(limits, y, a) then Refused(TooManyConnections)
    else if RelayFull(limits, y, a) then Refused(RelayBusy)
    else if |Occupants(limits, y, a)| >= limits.maxPeers then Refused(RoomFull)
    else if TokenDiffers(limits, y, a) then Refused(AuthFailed)
    else Admitted(|Occupants(limits, y, a)|)
  }

  lemma RoomsWithout(rooms: map<string, Room>, h: string)
    ensures (rooms - {h}).Keys == rooms.Keys - {h}
    ensures h !in rooms ==> rooms.Keys - {h} == rooms.Keys
    ensures |rooms| == |rooms.Keys| && |rooms - {h}| == |rooms.Keys - {h}|
  {
    assert |rooms - {h}| == |(rooms - {h}).Keys|;
  }

  lemma TokensAgree(limits: Limits, y: Relay, h: string, token: string)
    requires h in y.rooms && RoomFine(limits, y, h)
    ensures Admits(y.rooms[h], token)
       <==> !(exists c :: c in y.rooms[h].peers && y.rooms[h].peers[c].token != token)
            && !(y.rooms[h].peers == map[] && y.rooms[h].auth.Some? && y.rooms[h].auth.value != token)
  {
    hide Watched, Tracked, OwnTimer, DistinctIds;
    var room := y.rooms[h];
    if room.peers != map[] {
      var c :| c in room.peers;
      assert room.peers[c].token == TokenOf(room.auth);
    }
  }

  /** Every arrival gets the answer that the tables call for, and no other. */
  lemma JoinAnswers(limits: Limits, y: Relay, a: Arrival)
    requires Inv(limits, y)
    ensures Join(limits, y, a).1 == Expected(limits, y, a)
  {
    hide RoomFine, Capped, Ordered, At, Enter, Admits;
    RoomsWithout(y.rooms, a.hash);
    if Stands(limits, y, a) {
      TokensAgree(limits, y, a.hash, a.token);
    } else {
      EmptyAdmits(Room(y.nextRoom, map[], None, None, a.now), a.token);
    }
  }

  lemma EmptyAdmits(room: Room, token: string)
    requires room.auth.None? && room.peers == map[]
    ensures Admits(room, token)
  {
  }

  // ---- what it does to the tables

  lemma PreparedShape(limits: Limits, y: Relay, a: Arrival)
    ensures var z := Prepared(limits, y, a);
            && z.handlers == y.handlers && z.nextRoom == y.nextRoom
            && PeersIn(z.rooms, a.hash) == Occupants(limits, y, a)
            && (a.hash in z.rooms <==> Stands(limits, y, a))
            && (forall h :: h != a.hash || Stands(limits, y, a) ==> (h in z.rooms <==> h in y.rooms) && (h in z.rooms ==> z.rooms[h] == y.rooms[h]))
  {
    hide ReleaseAll;
  }

  lemma OpenedShape(y: Relay, a: Arrival)
    ensures var z := Opened(y, a);
            && z.handlers == y.handlers && z.nextRoom >= y.nextRoom && a.hash in z.rooms
            && PeersIn(z.rooms, a.hash) == PeersIn(y.rooms, a.hash)
            && (forall h :: h != a.hash || h in y.rooms ==> (h in z.rooms <==> h in y.rooms) && (h in z.rooms ==> z.rooms[h] == y.rooms[h]))
            && (a.hash !in y.rooms ==> z.rooms[a.hash].auth.None? && z.rooms[a.hash].id == y.nextRoom)
  {
  }

  lemma EnterLeaves(y: Relay, a: Arrival)
    requires a.hash in y.rooms
    ensures var z := Enter(y, a);
            && a.hash in z.rooms
            && z.rooms[a.hash].peers == y.rooms[a.hash].peers[a.conn := Peer(a.peerId, "", a.ip, a.token)]
            && z.rooms[a.hash].id == y.rooms[a.hash].id && z.rooms[a.hash].created == y.rooms[a.hash].created
            && (y.rooms[a.hash].peers == map[] ==> TokenOf(z.rooms[a.hash].auth) == a.token)
            && (y.rooms[a.hash].peers != map[] ==> z.rooms[a.hash].auth == y.rooms[a.hash].auth)
            && z.handlers == y.handlers[a.conn := Handler(a.hash, y.rooms[a.hash].id, Joined)] && z.nextRoom == y.nextRoom
            && forall h :: h != a.hash ==> (h in z.rooms <==> h in y.rooms) && (h in z.rooms ==> z.rooms[h] == y.rooms[h])
  {
    hide Cancelled, Charge;
  }

  /** An admission gave the token of whoever is there already. */
  lemma AdmittedToken(y: Relay, a: Arrival)
    requires a.hash in y.rooms && Admits(y.rooms[a.hash], a.token) && OneToken(y.rooms[a.hash])
    ensures TokenOf(Enter(y, a).rooms[a.hash].auth) == a.token
  {
    hide Cancelled, Charge;
  }

  ghost predicate SameRooms(y: Relay, z: Relay, but: string) {
    forall h :: h != but ==> (h in z.rooms <==> h in y.rooms) && (h in z.rooms ==> z.rooms[h] == y.rooms[h])
  }

  /**
   What an answer leaves behind. Whoever is admitted is one more peer of that room, whose
   token is its own; whoever is refused is in no room; and no other room is touched.
   */
  lemma JoinLeaves(limits: Limits, y: Relay, a: Arrival)
    requires Inv(limits, y)
    ensures var (z, verdict) := Join(limits, y, a);
            && SameRooms(y, z, a.hash)
            && (verdict.Admitted? ==>
                  && a.hash in z.rooms
                  && z.rooms[a.hash].peers == Occupants(limits, y, a)[a.conn := Peer(a.peerId, "", a.ip, a.token)]
                  && TokenOf(z.rooms[a.hash].auth) == a.token
                  && z.handlers == y.handlers[a.conn := Handler(a.hash, z.rooms[a.hash].id, Joined)])
            && (verdict.Refused? ==>
                  && z.handlers == y.handlers
                  && (PeersIn(z.rooms, a.hash) == PeersIn(y.rooms, a.hash) || PeersIn(z.rooms, a.hash) == Occupants(limits, y, a)))
  {
    hide Inv, Prepared, Opened, Enter, Admits, Stands, Occupants, Count, TokenOf;
    PreparedShape(limits, y, a);
    var y1 := Prepared(limits, y, a);
    OpenedShape(y1, a);
    var y2 := Opened(y1, a);
    EnterLeaves(y2, a);
    OccupantsAgree(limits, y, a);
    if Admits(y2.rooms[a.hash], a.token) { AdmittedToken(y2, a); }
  }

  lemma OccupantsAgree(limits: Limits, y: Relay, a: Arrival)
    requires Inv(limits, y)
    ensures OneToken(Opened(Prepared(limits, y, a), a).rooms[a.hash])
  {
    hide ReleaseAll, Accounted, Capped, Ordered, Tracked, Watched, OwnTimer, DistinctIds;
    assert a.hash in y.rooms ==> RoomFine(limits, y, a.hash);
  }

  // ------------------------------------------------------------------
  // Who stays.
  // ------------------------------------------------------------------

  ghost predicate InRoom(y: Relay, conn: Conn, h: string, id: nat, token: string, created: int) {
    && h in y.rooms && y.rooms[h].id == id && y.rooms[h].created == created
    && conn in y.rooms[h].peers && y.rooms[h].peers[conn].token == token
  }

  /** Its own connection goes on, and nothing finds its room expired. */
  predicate Spares(limits: Limits, e: Event, conn: Conn, h: string, created: int) {
    match e
    case Arrive(a) => a.conn != conn && (a.hash == h && limits.maxSession > 0 ==> a.now - created <= limits.maxSession)
    case Sweep(hash, now) => hash == h && limits.maxSession > 0 ==> now - created <= limits.maxSession
    case Unreachable(c) => c != conn
    case Gone(c) => c != conn
    case _ => true
  }

  lemma JoinKeeps(limits: Limits, y: Relay, a: Arrival, conn: Conn, h: string, id: nat, token: string, created: int)
    requires InRoom(y, conn, h, id, token, created) && Spares(limits, Arrive(a), conn, h, created)
    ensures InRoom(Join(limits, y, a).0, conn, h, id, token, created)
  {
    hide Prepared, Opened, Enter, Admits, Count;
    PreparedShape(limits, y, a);
    OpenedShape(Prepared(limits, y, a), a);
    EnterLeaves(Opened(Prepared(limits, y, a), a), a);
  }

  lemma StepKeeps(limits: Limits, y: Relay, e: Event, conn: Conn, h: string, id: nat, token: string, created: int)
    requires InRoom(y, conn, h, id, token, created) && Spares(limits, e, conn, h, created)
    ensures InRoom(Next(limits, y, e), conn, h, id, token, created)
  {
    hide Join, Charge, Release, ReleaseAll, Count;
    if e.Arrive? { JoinKeeps(limits, y, e.a, conn, h, id, token, created); }
  }

  predicate AllSpare(limits: Limits, run: seq<Event>, conn: Conn, h: string, created: int) {
    forall k :: 0 <= k < |run| ==> Spares(limits, run[k], conn, h, created)
  }

  lemma {:induction false} RunKeeps(limits: Limits, y: Relay, run: seq<Event>, conn: Conn, h: string, id: nat, token: string, created: int)
    requires InRoom(y, conn, h, id, token, created) && AllSpare(limits, run, conn, h, created)
    ensures InRoom(After(limits, y, run), conn, h, id, token, created)
    decreases |run|
  {
    hide InRoom, Next, Spares;
    if run != [] {
      StepKeeps(limits, y, run[0], conn, h, id, token, created);
      RunKeeps(limits, Next(limits, y, run[0]), run[1..], conn, h, id, token, created);
    }
  }

  /**
   Whoever gives no reason for a refusal is admitted, and stays in that very room, whoever
   else comes and goes, until its own connection goes or something finds the room expired.
   */
  lemma AdmittedStays(limits: Limits, before: seq<Event>, a: Arrival, after: seq<Event>)
    requires Feasible(limits, EMPTY, before) && limits.maxPeers > 0
    requires Expected(limits, After(limits, EMPTY, before), a).Admitted?
    requires var room := Join(limits, After(limits, EMPTY, before), a).0.rooms;
             a.hash in room && AllSpare(limits, after, a.conn, a.hash, room[a.hash].created)
    ensures var y := After(limits, EMPTY, before); var z := After(limits, Next(limits, y, Arrive(a)), after);
            && a.hash in z.rooms && z.rooms[a.hash].id == Join(limits, y, a).0.rooms[a.hash].id
            && a.conn in z.rooms[a.hash].peers && z.rooms[a.hash].peers[a.conn].token == a.token
  {
    hide After, Feasible, Join, AllSpare, Inv, Expected;
    var y := After(limits, EMPTY, before);
    EmptyInv(limits);
    RunInv(limits, EMPTY, before);
    JoinAnswers(limits, y, a);
    JoinLeaves(limits, y, a);
    var room := Join(limits, y, a).0.rooms[a.hash];
    RunKeeps(limits, Next(limits, y, Arrive(a)), after, a.conn, a.hash, room.id, a.token, room.created);
  }

  // ------------------------------------------------------------------
  // Who goes.
  // ------------------------------------------------------------------

  /** A connection that is gone, or cannot be written to, is in no room, and everyone else is where it was. */
  lemma GoneIsOut(limits: Limits, y: Relay, e: Event, conn: Conn)
    requires Inv(limits, y) && (e == Gone(conn) || e == Unreachable(conn))
    ensures forall h :: PeersIn(Next(limits, y, e).rooms, h) == PeersIn(y.rooms, h) - {conn}
  {
    hide Inv, Release;
    if conn in y.handlers && y.handlers[conn].stage.Leaving? { LeavingInv(limits, y, conn); }
    forall h
      ensures PeersIn(Next(limits, y, e).rooms, h) == PeersIn(y.rooms, h) - {conn}
    {
      if h in y.rooms && conn in y.rooms[h].peers { OnlyWhereItJoined(limits, y, conn, h); }
    }
  }

  /** A handler that has begun to leave has its peer out of the room already. */
  lemma LeavingInv(limits: Limits, y: Relay, conn: Conn)
    requires Inv(limits, y) && conn in y.handlers && y.handlers[conn].stage.Leaving?
    ensures forall h :: h in y.rooms ==> conn !in y.rooms[h].peers
  {
    forall h | h in y.rooms
      ensures conn !in y.rooms[h].peers
    {
      if conn in y.rooms[h].peers { OnlyWhereItJoined(limits, y, conn, h); }
    }
  }

  lemma OnlyWhereItJoined(limits: Limits, y: Relay, conn: Conn, h: string)
    requires Inv(limits, y) && h in y.rooms && conn in y.rooms[h].peers
    ensures conn in y.handlers && y.handlers[conn] == Handler(h, y.rooms[h].id, Joined)
  {
    hide Accounted, Capped, Ordered, Watched, OwnTimer, DistinctIds, OneToken;
    assert RoomFine(limits, y, h);
  }

  /** When its departure has been handled it has no handler, and a room found empty has a timer of its own running. */
  lemma DepartureEnds(limits: Limits, y: Relay, conn: Conn)
    requires Inv(limits, y) && conn in y.handlers
    ensures var z := Next(limits, Next(limits, y, Gone(conn)), Departed(conn)); var h := y.handlers[conn];
            && z.handlers == y.handlers - {conn}
            && (h.hash in z.rooms && z.rooms[h.hash].id == h.room && z.rooms[h.hash].peers == map[] ==>
                  && z.rooms[h.hash].evictTask.Some? && z.rooms[h.hash].evictTask.value in z.timers
                  && z.timers[z.rooms[h.hash].evictTask.value] == h.hash)
  {
    hide Accounted, Capped, Ordered, Release, RoomFine;
    WriteFailedKeepsHandlers(y, conn);
    assert (y.handlers[conn := y.handlers[conn].(stage := Leaving)]) - {conn} == y.handlers - {conn};
  }

  /** An admission stops the timer that was set when the room was last found empty. */
  lemma AdmissionStopsTheClock(limits: Limits, y: Relay, a: Arrival)
    requires Join(limits, y, a).1.Admitted? && Stands(limits, y, a) && y.rooms[a.hash].evictTask.Some?
    ensures y.rooms[a.hash].evictTask.value !in Join(limits, y, a).0.timers
    ensures a.hash in Join(limits, y, a).0.rooms
    ensures var task := Join(limits, y, a).0.rooms[a.hash].evictTask;
            task.Some? ==> task.value !in Join(limits, y, a).0.timers
  {
    hide Charge, ReleaseAll, Count, Admits;
  }

  /** A room found past its lifetime is no more, and no other is touched. */
  lemma ExpiredGoes(limits: Limits, y: Relay, hash: string, now: int)
    requires hash in y.rooms && limits.maxSession > 0 && now - y.rooms[hash].created > limits.maxSession
    ensures hash !in Next(limits, y, Sweep(hash, now)).rooms && SameRooms(y, Next(limits, y, Sweep(hash, now)), hash)
  {
    hide ReleaseAll;
  }

  // ------------------------------------------------------------------
  // A locked room stays locked.
  // ------------------------------------------------------------------

  /** The room of this identity, if it is still there, is bound to this token. */
  ghost predicate Bound(y: Relay, h: string, id: nat, token: string) {
    id < y.nextRoom && (h in y.rooms && y.rooms[h].id == id ==> y.rooms[h].auth == Some(token))
  }

  lemma JoinBound(limits: Limits, y: Relay, a: Arrival, h: string, id: nat, token: string)
    requires Bound(y, h, id, token) && token != ""
    ensures Bound(Join(limits, y, a).0, h, id, token)
  {
    hide Prepared, Opened, Enter, Count, Stands, Occupants;
    PreparedShape(limits, y, a);
    OpenedShape(Prepared(limits, y, a), a);
    EnterLeaves(Opened(Prepared(limits, y, a), a), a);
  }

  lemma StepBound(limits: Limits, y: Relay, e: Event, h: string, id: nat, token: string)
    requires Bound(y, h, id, token) && token != ""
    ensures Bound(Next(limits, y, e), h, id, token)
  {
    hide Join, Charge, Release, ReleaseAll, Count;
    if e.Arrive? { JoinBound(limits, y, e.a, h, id, token); }
  }

  lemma {:induction false} RunBound(limits: Limits, y: Relay, run: seq<Event>, h: string, id: nat, token: string)
    requires Bound(y, h, id, token) && token != ""
    ensures Bound(After(limits, y, run), h, id, token)
    decreases |run|
  {
    hide Bound, Next;
    if run != [] {
      StepBound(limits, y, run[0], h, id, token);
      RunBound(limits, Next(limits, y, run[0]), run[1..], h, id, token);
    }
  }

  /** As long as that room is there, even empty, nobody is admitted to it with another token. */
  lemma LockedStaysLocked(limits: Limits, y: Relay, run: seq<Event>, h: string, a: Arrival)
    requires Inv(limits, y) && h in y.rooms && y.rooms[h].auth.Some? && y.rooms[h].auth.value != ""
    requires Feasible(limits, y, run) && limits.maxPeers > 0
    requires var z := After(limits, y, run); h in z.rooms && z.rooms[h].id == y.rooms[h].id
    requires a.hash == h && Stands(limits, After(limits, y, run), a) && a.token != y.rooms[h].auth.value
    ensures Join(limits, After(limits, y, run), a).1.Refused?
  {
    hide After, Inv, Accounted, Expected, Feasible, Join;
    InvHere(limits, y, h);
    RunInv(limits, y, run);
    RunBound(limits, y, run, h, y.rooms[h].id, y.rooms[h].auth.value);
    var z := After(limits, y, run);
    JoinAnswers(limits, z, a);
    InvHere(limits, z, h);
    TokensAgree(limits, z, h, a.token);
    RefusedIfDifferent(limits, z, a);
  }

  lemma InvHere(limits: Limits, y: Relay, h: string)
    requires Inv(limits, y) && h in y.rooms
    ensures RoomFine(limits, y, h) && y.rooms[h].id < y.nextRoom
  {
  }

  lemma RefusedIfDifferent(limits: Limits, y: Relay, a: Arrival)
    requires Stands(limits, y, a) && !Admits(y.rooms[a.hash], a.token) && RoomFine(limits, y, a.hash)
    ensures Expected(limits, y, a).Refused?
  {
    hide At, RoomFine;
    TokensAgree(limits, y, a.hash, a.token);
  }

  // ------------------------------------------------------------------
  // Hello.
  // ------------------------------------------------------------------

  /** Another peer of the room has this id. */
  predicate OthersId(room: Room, conn: Conn, id: string) {
    exists c :: c in room.peers && c != conn && room.peers[c].peerId == id
  }

  /**
   A device gets the id it asks for exactly if no other peer of its room has it, and its
   nickname always; it is told when the id was taken, and the room when anything changed.
   */
  lemma HelloDecides(limits: Limits, y: Relay, h: string, conn: Conn, wanted: Option<string>, name: Option<string>)
    requires Inv(limits, y) && h in y.rooms && conn in y.rooms[h].peers
    ensures var (z, changed, taken) := Adopt(y, conn, wanted, name); var me := y.rooms[h].peers[conn];
            && SameRooms(y, z, h) && h in z.rooms && z.rooms[h].peers.Keys == y.rooms[h].peers.Keys
            && (forall c :: c in y.rooms[h].peers && c != conn ==> z.rooms[h].peers[c] == y.rooms[h].peers[c])
            && z.rooms[h].peers[conn].peerId
               == (if wanted.Some? && !OthersId(y.rooms[h], conn, wanted.value) then wanted.value else me.peerId)
            && z.rooms[h].peers[conn].name == (if name.Some? then name.value else me.name)
            && z.rooms[h].peers[conn].ip == me.ip && z.rooms[h].peers[conn].token == me.token
            && (taken <==> wanted.Some? && wanted.value != me.peerId && OthersId(y.rooms[h], conn, wanted.value))
            && (changed <==> z.rooms[h].peers[conn] != me)
  {
    hide Inv;
    OnlyWhereItJoined(limits, y, conn, h);
    InvHere(limits, y, h);
    hide RoomFine;
    IdsApart(limits, y, h);
  }

  lemma IdsApart(limits: Limits, y: Relay, h: string)
    requires h in y.rooms && RoomFine(limits, y, h)
    ensures DistinctIds(y.rooms[h].peers)
  {
  }
}
