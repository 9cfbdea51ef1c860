/**
 The relay's tables: backend/main.py `_join`, `_admits`, `_adopt_identity`,
 `_drop_peer`, `_depart`, `_after_departure`, `_evict_later` and `_retire`, on one
 replica with the shared backend off, where none of these suspends between reading
 the tables and writing them.

 Room objects have an identity of their own: a connection's handlers hold on to the
 object they joined, while the table is keyed by hash, so a handler can outlive its
 room and run beside a new room of the same hash.
 */
module RelayTable {

  import opened Options

  type Conn = nat

  datatype Peer = Peer(peerId: string, name: string, ip: string, token: string)

  datatype Room = Room(id: nat, peers: map<Conn, Peer>, auth: Option<string>, evictTask: Option<nat>, created: int)

  /** What the departure handler of a connection has still to do. */
  datatype Stage = Joined | Leaving

  datatype Handler = Handler(hash: string, room: nat, stage: Stage)

  datatype Limits = Limits(maxRooms: nat, maxPeers: nat, maxConnsPerIp: nat, maxSession: nat, joinToken: Option<string>)

  datatype Relay = Relay(
    rooms: map<string, Room>, ipConns: map<string, nat>,
    timers: map<nat, string>, handlers: map<Conn, Handler>,
    nextRoom: nat, nextTimer: nat)

  datatype Code = OrgTokenRequired | TooManyConnections | RelayBusy | RoomFull | AuthFailed

  datatype Verdict = Refused(code: Code) | Admitted(existing: nat)

  const EMPTY := Relay(map[], map[], map[], map[], 0, 0)

  // ------------------------------------------------------------------
  // The tables' small operations.
  // ------------------------------------------------------------------

  function Count(ipConns: map<string, nat>, ip: string): nat {
    if ip in ipConns then ipConns[ip] else 0
  }

  function Charge(ipConns: map<string, nat>, ip: string): map<string, nat> {
    if ip == "" then ipConns else ipConns[ip := Count(ipConns, ip) + 1]
  }

  /** The last one out takes the address's entry along. */
  function Release(ipConns: map<string, nat>, ip: string): map<string, nat> {
    if ip == "" then ipConns
    else if ip in ipConns && ipConns[ip] > 1 then ipConns[ip := ipConns[ip] - 1]
    else ipConns - {ip}
  }

  function FromAddress(peers: map<Conn, Peer>, ip: string): set<Conn> {
    set c | c in peers && peers[c].ip == ip
  }

  /** What releasing every peer of a room comes to. */
  function ReleaseAll(ipConns: map<string, nat>, peers: map<Conn, Peer>): map<string, nat> {
    map ip | ip in ipConns && ipConns[ip] > |FromAddress(peers, ip)| :: ipConns[ip] - |FromAddress(peers, ip)|
  }

  function Live(y: Relay, h: Handler): bool {
    h.hash in y.rooms && y.rooms[h.hash].id == h.room
  }

  function DropPeer(y: Relay, hash: string, conn: Conn): Relay {
    if hash !in y.rooms || conn !in y.rooms[hash].peers then y
    else
      var room := y.rooms[hash];
      y.(rooms := y.rooms[hash := room.(peers := room.peers - {conn})],
         ipConns := Release(y.ipConns, room.peers[conn].ip))
  }

  function Retire(y: Relay, hash: string): Relay {
    if hash !in y.rooms then y
    else y.(rooms := y.rooms - {hash}, ipConns := ReleaseAll(y.ipConns, y.rooms[hash].peers))
  }

  predicate Expired(limits: Limits, room: Room, now: int) {
    limits.maxSession > 0 && now - room.created > limits.maxSession
  }

  function TokenOf(auth: Option<string>): string {
    if auth.Some? then auth.value else ""
  }

  /** The first of a room may present anything, which then binds the others; no token counts as the empty one. */
  predicate Admits(room: Room, token: string) {
    (room.auth.None? && room.peers == map[]) || TokenOf(room.auth) == token
  }

  // ------------------------------------------------------------------
  // Joining.
  // ------------------------------------------------------------------

  datatype Arrival = Arrival(conn: Conn, hash: string, token: string, org: string, ip: string, peerId: string, now: int)

  function Prepared(limits: Limits, y: Relay, a: Arrival): Relay {
    if a.hash in y.rooms && Expired(limits, y.rooms[a.hash], a.now) then Retire(y, a.hash) else y
  }

  function Opened(y: Relay, a: Arrival): Relay {
    if a.hash in y.rooms then y
    else y.(rooms := y.rooms[a.hash := Room(y.nextRoom, map[], None, None, a.now)], nextRoom := y.nextRoom + 1)
  }

  function Enter(y: Relay, a: Arrival): Relay
    requires a.hash in y.rooms
  {
    var room := y.rooms[a.hash];
    var auth := if room.peers == map[] then (if a.token == "" then None else Some(a.token)) else room.auth;
    y.(rooms := y.rooms[a.hash := room.(auth := auth, evictTask := Cancelled(y, room),
                                        peers := room.peers[a.conn := Peer(a.peerId, "", a.ip, a.token)])],
       timers := if room.evictTask.Some? then y.timers - {room.evictTask.value} else y.timers,
       ipConns := Charge(y.ipConns, a.ip),
       handlers := y.handlers[a.conn := Handler(a.hash, room.id, Joined)])
  }

  function Cancelled(y: Relay, room: Room): Option<nat> {
    if room.evictTask.Some? && room.evictTask.value in y.timers then None else room.evictTask
  }

  function Join(limits: Limits, y: Relay, a: Arrival): (Relay, Verdict) {
    if limits.joinToken.Some? && a.org != limits.joinToken.value then (y, Refused(OrgTokenRequired))
    else if limits.maxConnsPerIp > 0 && a.ip != "" && Count(y.ipConns, a.ip) >= limits.maxConnsPerIp then
      (y, Refused(TooManyConnections))
    else
      var y1 := Prepared(limits, y, a);
      if a.hash !in y1.rooms && |y1.rooms| >= limits.maxRooms then (y1, Refused(RelayBusy))
      else
        var y2 := Opened(y1, a);
        var room := y2.rooms[a.hash];
        if |room.peers| >= limits.maxPeers then (y2, Refused(RoomFull))
        else if !Admits(room, a.token) then (y2, Refused(AuthFailed))
        else (Enter(y2, a), Admitted(|room.peers|))
  }

  // ------------------------------------------------------------------
  // Hello, departure, eviction.
  // ------------------------------------------------------------------

  predicate Taken(room: Room, id: string) {
    exists c :: c in room.peers && room.peers[c].peerId == id
  }

  /** `hello`: take the wanted id if nobody in the room has it, and the nickname. */
  function Adopt(y: Relay, conn: Conn, wanted: Option<string>, name: Option<string>): (r: (Relay, bool, bool)) {
    if conn !in y.handlers || !Live(y, y.handlers[conn]) || conn !in y.rooms[y.handlers[conn].hash].peers then (y, false, false)
    else
      var hash := y.handlers[conn].hash;
      var room := y.rooms[hash];
      var me := room.peers[conn];
      var wants := wanted.Some? && wanted.value != me.peerId;
      var taken := wants && Taken(room, wanted.value);
      var renamed := name.Some? && name.value != me.name;
      var me2 := me.(peerId := if wants && !taken then wanted.value else me.peerId,
                     name := if renamed then name.value else me.name);
      (y.(rooms := y.rooms[hash := room.(peers := room.peers[conn := me2])]), (wants && !taken) || renamed, taken)
  }

  /** A write to this peer failed: it goes, and its own handler will notice later. */
  function WriteFailed(y: Relay, conn: Conn): Relay {
    if conn !in y.handlers || !Live(y, y.handlers[conn]) then y else DropPeer(y, y.handlers[conn].hash, conn)
  }

  /** First half of a departure: the peer is removed synchronously. */
  function Close(y: Relay, conn: Conn): Relay {
    if conn !in y.handlers || y.handlers[conn].stage.Leaving? then y
    else WriteFailed(y, conn).(handlers := y.handlers[conn := y.handlers[conn].(stage := Leaving)])
  }

  /** Second half: a room found empty gets a timer, and the handler is finished. */
  function AfterDeparture(y: Relay, conn: Conn): Relay {
    if conn !in y.handlers || y.handlers[conn].stage.Joined? then y
    else
      var h := y.handlers[conn];
      var y1 := y.(handlers := y.handlers - {conn});
      if Live(y, h) && y.rooms[h.hash].peers != map[] then y1
      else
        y1.(timers := y.timers[y.nextTimer := h.hash], nextTimer := y.nextTimer + 1,
            rooms := if Live(y, h) then y.rooms[h.hash := y.rooms[h.hash].(evictTask := Some(y.nextTimer))] else y.rooms)
  }

  function TimerFires(y: Relay, t: nat): Relay {
    if t !in y.timers then y
    else
      var hash := y.timers[t];
      y.(timers := y.timers - {t},
         rooms := if hash in y.rooms && y.rooms[hash].peers == map[] then y.rooms - {hash} else y.rooms)
  }

  datatype Event =
    | Arrive(a: Arrival)
    | Hello(conn: Conn, wanted: Option<string>, name: Option<string>)
    | Unreachable(conn: Conn)
    | Gone(conn: Conn)
    | Departed(conn: Conn)
    | TtlPassed(timer: nat)
    | Sweep(hash: string, now: int)

  /** A connection is new, and its provisional id is not in the room already. */
  predicate Possible(y: Relay, e: Event) {
    e.Arrive? ==>
      && e.a.conn !in y.handlers
      && (e.a.hash in y.rooms ==> !Taken(y.rooms[e.a.hash], e.a.peerId))
  }

  function Next(limits: Limits, y: Relay, e: Event): Relay {
    match e
    case Arrive(a) => Join(limits, y, a).0
    case Hello(conn, wanted, name) => Adopt(y, conn, wanted, name).0
    case Unreachable(conn) => WriteFailed(y, conn)
    case Gone(conn) => Close(y, conn)
    case Departed(conn) => AfterDeparture(y, conn)
    case TtlPassed(t) => TimerFires(y, t)
    case Sweep(hash, now) =>
      if hash in y.rooms && Expired(limits, y.rooms[hash], now) then Retire(y, hash) else y
  }

  // ------------------------------------------------------------------
  // The invariant.
  // ------------------------------------------------------------------

  /** Every peer on the relay that came from one address, wherever it is. */
  ghost function At(rooms: map<string, Room>, ip: string): set<(string, Conn)> {
    set h, c | h in rooms && c in rooms[h].peers && rooms[h].peers[c].ip == ip :: (h, c)
  }

  ghost predicate Accounted(y: Relay) {
    && (forall ip :: ip != "" ==> Count(y.ipConns, ip) == |At(y.rooms, ip)|)
    && (forall ip :: ip in y.ipConns ==> y.ipConns[ip] > 0 && ip != "")
  }

  ghost predicate Capped(limits: Limits, y: Relay) {
    && |y.rooms| <= limits.maxRooms
    && (limits.maxConnsPerIp > 0 ==> forall ip :: ip in y.ipConns ==> y.ipConns[ip] <= limits.maxConnsPerIp)
  }

  ghost predicate DistinctIds(peers: map<Conn, Peer>) {
    forall c, d :: c in peers && d in peers && c != d ==> peers[c].peerId != peers[d].peerId
  }

  ghost predicate OneToken(room: Room) {
    forall c :: c in room.peers ==> room.peers[c].token == TokenOf(room.auth)
  }

  ghost predicate Tracked(y: Relay, hash: string) {
    hash in y.rooms ==>
      forall c :: c in y.rooms[hash].peers ==>
        c in y.handlers && y.handlers[c] == Handler(hash, y.rooms[hash].id, Joined)
  }

  ghost predicate HandlerDue(y: Relay, hash: string) {
    hash in y.rooms && exists c :: c in y.handlers && y.handlers[c].hash == hash && y.handlers[c].room == y.rooms[hash].id
  }

  ghost predicate TimerRunning(y: Relay, hash: string) {
    exists t :: t in y.timers && y.timers[t] == hash
  }

  /** Not stranded: somebody is in it, or something is still going to look at it. */
  ghost predicate Watched(y: Relay, hash: string) {
    hash in y.rooms && y.rooms[hash].peers == map[] ==> TimerRunning(y, hash) || HandlerDue(y, hash)
  }

  ghost predicate Ordered(y: Relay) {
    && (forall c :: c in y.handlers ==> y.handlers[c].room < y.nextRoom)
    && (forall t :: t in y.timers ==> t < y.nextTimer)
  }

  /** The room's own timer, while it runs, is a timer of this room. */
  ghost predicate OwnTimer(y: Relay, hash: string) {
    hash in y.rooms && y.rooms[hash].evictTask.Some? ==>
      && y.rooms[hash].evictTask.value < y.nextTimer
      && (y.rooms[hash].evictTask.value in y.timers ==> y.timers[y.rooms[hash].evictTask.value] == hash)
  }

  ghost predicate RoomFine(limits: Limits, y: Relay, hash: string) {
    hash in y.rooms ==>
      && |y.rooms[hash].peers| <= limits.maxPeers
      && y.rooms[hash].id < y.nextRoom
      && DistinctIds(y.rooms[hash].peers)
      && OneToken(y.rooms[hash])
      && Tracked(y, hash)
      && Watched(y, hash)
      && OwnTimer(y, hash)
  }

  ghost predicate Inv(limits: Limits, y: Relay) {
    Accounted(y) && Capped(limits, y) && Ordered(y) && forall h :: h in y.rooms ==> RoomFine(limits, y, h)
  }

  // ------------------------------------------------------------------
  // Counting peers by address.
  // ------------------------------------------------------------------

  /** The rooms differ in one room only, by one peer. */
  lemma AtInsert(rooms: map<string, Room>, h: string, room: Room, c: Conn, ip: string)
    requires h in rooms && c !in rooms[h].peers && c in room.peers && room.peers - {c} == rooms[h].peers
    ensures At(rooms[h := room], ip)
         == if room.peers[c].ip == ip then At(rooms, ip) + {(h, c)} else At(rooms, ip)
    ensures (h, c) !in At(rooms, ip)
  {
    var after := rooms[h := room];
    assert forall d :: d in room.peers && d != c ==> d in rooms[h].peers && room.peers[d] == rooms[h].peers[d] by {
      forall d | d in room.peers && d != c
        ensures d in rooms[h].peers && room.peers[d] == rooms[h].peers[d]
      {
        assert d in room.peers - {c};
      }
    }
    assert forall d :: d in rooms[h].peers ==> d in room.peers && room.peers[d] == rooms[h].peers[d] by {
      forall d | d in rooms[h].peers
        ensures d in room.peers && room.peers[d] == rooms[h].peers[d]
      {
        assert d in room.peers - {c};
      }
    }
  }

  /** Nothing that matters to the count changed. */
  lemma AtSame(rooms: map<string, Room>, after: map<string, Room>, ip: string)
    requires forall h :: h in rooms && h !in after ==> rooms[h].peers == map[]
    requires forall h :: h in after && h !in rooms ==> after[h].peers == map[]
    requires forall h :: h in rooms && h in after ==> after[h].peers.Keys == rooms[h].peers.Keys
    requires forall h, c :: h in rooms && h in after && c in rooms[h].peers ==> after[h].peers[c].ip == rooms[h].peers[c].ip
    ensures At(after, ip) == At(rooms, ip)
  {
  }

  lemma {:induction false} PairsOf(h: string, conns: set<Conn>, pairs: set<(string, Conn)>)
    requires pairs == set c | c in conns :: (h, c)
    ensures |pairs| == |conns|
    decreases conns
  {
    if conns != {} {
      var c :| c in conns;
      var rest := set d | d in conns - {c} :: (h, d);
      assert pairs == rest + {(h, c)};
      PairsOf(h, conns - {c}, rest);
    }
  }

  lemma AtWithout(rooms: map<string, Room>, h: string, ip: string)
    requires h in rooms
    ensures |At(rooms, ip)| == |At(rooms - {h}, ip)| + |FromAddress(rooms[h].peers, ip)|
  {
    var here := set c | c in FromAddress(rooms[h].peers, ip) :: (h, c);
    PairsOf(h, FromAddress(rooms[h].peers, ip), here);
    assert forall g, c :: (g, c) in At(rooms, ip) <==> (g, c) in At(rooms - {h}, ip) || (g, c) in here;
    assert At(rooms, ip) == At(rooms - {h}, ip) + here;
    assert At(rooms - {h}, ip) !! here;
  }

  lemma ChargeAccounted(y: Relay, z: Relay, h: string, c: Conn, ip: string)
    requires Accounted(y) && h in y.rooms && h in z.rooms && z.rooms == y.rooms[h := z.rooms[h]]
    requires c !in y.rooms[h].peers && c in z.rooms[h].peers && z.rooms[h].peers - {c} == y.rooms[h].peers
    requires z.rooms[h].peers[c].ip == ip && z.ipConns == Charge(y.ipConns, ip)
    ensures Accounted(z)
  {
    forall other | other != ""
      ensures Count(z.ipConns, other) == |At(z.rooms, other)|
    {
      AtInsert(y.rooms, h, z.rooms[h], c, other);
    }
  }

  lemma ReleaseAccounted(y: Relay, z: Relay, h: string, c: Conn, ip: string)
    requires Accounted(y) && h in y.rooms && h in z.rooms && z.rooms == y.rooms[h := z.rooms[h]]
    requires c in y.rooms[h].peers && z.rooms[h].peers == y.rooms[h].peers - {c}
    requires y.rooms[h].peers[c].ip == ip && z.ipConns == Release(y.ipConns, ip)
    ensures Accounted(z)
  {
    forall other | other != ""
      ensures Count(z.ipConns, other) == |At(z.rooms, other)|
    {
      AtRemoved(y.rooms, h, z.rooms[h], c, other);
    }
    hide At;
  }

  lemma AtRemoved(rooms: map<string, Room>, h: string, room: Room, c: Conn, ip: string)
    requires h in rooms && c in rooms[h].peers && room.peers == rooms[h].peers - {c}
    ensures |At(rooms[h := room], ip)| == if rooms[h].peers[c].ip == ip then |At(rooms, ip)| - 1 else |At(rooms, ip)|
  {
    var after := rooms[h := room];
    assert rooms == after[h := rooms[h]];
    AtInsert(after, h, rooms[h], c, ip);
    hide At;
  }

  lemma SameAccounted(y: Relay, z: Relay)
    requires Accounted(y) && z.ipConns == y.ipConns
    requires forall h :: h in y.rooms && h !in z.rooms ==> y.rooms[h].peers == map[]
    requires forall h :: h in z.rooms && h !in y.rooms ==> z.rooms[h].peers == map[]
    requires forall h :: h in y.rooms && h in z.rooms ==> z.rooms[h].peers.Keys == y.rooms[h].peers.Keys
    requires forall h, c :: h in y.rooms && h in z.rooms && c in y.rooms[h].peers ==> z.rooms[h].peers[c].ip == y.rooms[h].peers[c].ip
    ensures Accounted(z)
  {
    forall ip | ip != ""
      ensures Count(z.ipConns, ip) == |At(z.rooms, ip)|
    {
      AtSame(y.rooms, z.rooms, ip);
    }
  }

  function PeersIn(rooms: map<string, Room>, h: string): map<Conn, Peer> {
    if h in rooms then rooms[h].peers else map[]
  }

  /** Rooms came and went, or changed otherwise, but every peer is where it was. */
  lemma NobodyMoved(y: Relay, z: Relay)
    requires Accounted(y) && z.ipConns == y.ipConns
    requires forall h :: PeersIn(z.rooms, h) == PeersIn(y.rooms, h)
    ensures Accounted(z)
  {
    forall ip | ip != ""
      ensures Count(z.ipConns, ip) == |At(z.rooms, ip)|
    {
      NobodyMovedAt(y.rooms, z.rooms, ip);
    }
  }

  lemma NobodyMovedAt(rooms: map<string, Room>, after: map<string, Room>, ip: string)
    requires forall h :: PeersIn(after, h) == PeersIn(rooms, h)
    ensures At(rooms, ip) == At(after, ip)
  {
    forall h, c
      ensures (h, c) in At(rooms, ip) <==> (h, c) in At(after, ip)
    {
      assert PeersIn(after, h) == PeersIn(rooms, h);
    }
  }

  lemma DepartureMovesNobody(y: Relay, conn: Conn)
    requires Accounted(y)
    ensures Accounted(AfterDeparture(y, conn))
  {
    hide Accounted;
    NobodyMoved(y, AfterDeparture(y, conn));
  }

  lemma OpeningMovesNobody(y: Relay, a: Arrival)
    requires Accounted(y)
    ensures Accounted(Opened(y, a))
  {
    hide Accounted;
    NobodyMoved(y, Opened(y, a));
  }

  lemma TimerMovesNobody(y: Relay, t: nat)
    requires Accounted(y)
    ensures Accounted(TimerFires(y, t))
  {
    hide Accounted;
    NobodyMoved(y, TimerFires(y, t));
  }

  lemma RetireAccounted(y: Relay, hash: string)
    requires Accounted(y)
    ensures Accounted(Retire(y, hash))
  {
    if hash in y.rooms {
      var z := Retire(y, hash);
      forall ip | ip != ""
        ensures Count(z.ipConns, ip) == |At(z.rooms, ip)|
      {
        AtWithout(y.rooms, hash, ip);
      }
    }
  }

  // ------------------------------------------------------------------
  // Each operation keeps the invariant.
  // ------------------------------------------------------------------

  /** Nothing a room depends on was touched. */
  ghost predicate Untouched(y: Relay, z: Relay, h: string) {
    && h in y.rooms && h in z.rooms && z.rooms[h] == y.rooms[h]
    && y.nextRoom <= z.nextRoom && y.nextTimer <= z.nextTimer
    && (forall t :: t in y.timers && y.timers[t] == h ==> t in z.timers && z.timers[t] == h)
    && (forall t :: t in z.timers && t < y.nextTimer ==> t in y.timers && y.timers[t] == z.timers[t])
    && (forall c :: c in y.handlers && y.handlers[c].hash == h && y.handlers[c].room == y.rooms[h].id ==>
          c in z.handlers && z.handlers[c] == y.handlers[c])
  }

  lemma Kept(limits: Limits, y: Relay, z: Relay, h: string)
    requires Untouched(y, z, h) && RoomFine(limits, y, h)
    ensures RoomFine(limits, z, h)
  {
  }

  lemma RetireInv(limits: Limits, y: Relay, hash: string)
    requires Inv(limits, y)
    ensures Inv(limits, Retire(y, hash))
  {
    hide Accounted, RoomFine;
    RetireAccounted(y, hash);
    if hash in y.rooms {
      var z := Retire(y, hash);
      assert z.rooms.Keys == y.rooms.Keys - {hash};
      forall h | h in z.rooms
        ensures RoomFine(limits, z, h)
      {
        Kept(limits, y, z, h);
      }
    }
  }

  lemma DropPeerFine(limits: Limits, y: Relay, hash: string, conn: Conn)
    requires RoomFine(limits, y, hash) && hash in y.rooms && conn in y.rooms[hash].peers
    ensures RoomFine(limits, DropPeer(y, hash, conn), hash)
  {
    var z := DropPeer(y, hash, conn);
    assert z.rooms[hash].peers.Keys == y.rooms[hash].peers.Keys - {conn};
    assert z.handlers[conn].hash == hash && z.handlers[conn].room == z.rooms[hash].id;
    assert HandlerDue(z, hash);
  }

  lemma WriteFailedInv(limits: Limits, y: Relay, conn: Conn)
    requires Inv(limits, y)
    ensures Inv(limits, WriteFailed(y, conn))
  {
    hide Accounted, RoomFine;
    var z := WriteFailed(y, conn);
    if conn in y.handlers && Live(y, y.handlers[conn]) && conn in y.rooms[y.handlers[conn].hash].peers {
      var hash := y.handlers[conn].hash;
      ReleaseAccounted(y, z, hash, conn, y.rooms[hash].peers[conn].ip);
      assert z.rooms.Keys == y.rooms.Keys;
      forall h | h in z.rooms
        ensures RoomFine(limits, z, h)
      {
        if h == hash {
          DropPeerFine(limits, y, hash, conn);
        } else {
          Kept(limits, y, z, h);
        }
      }
    }
  }

  lemma NotThereAfter(limits: Limits, y: Relay, conn: Conn, h: string)
    requires Inv(limits, y) && conn in y.handlers
    ensures h in WriteFailed(y, conn).rooms ==> conn !in WriteFailed(y, conn).rooms[h].peers
  {
    hide Accounted;
    if h in y.rooms {
      assert RoomFine(limits, y, h);
    }
  }

  /** A handler moving on does not matter to a room its connection has left. */
  lemma StageFine(limits: Limits, y: Relay, conn: Conn, h: string)
    requires RoomFine(limits, y, h) && h in y.rooms && conn in y.handlers && conn !in y.rooms[h].peers
    ensures RoomFine(limits, y.(handlers := y.handlers[conn := y.handlers[conn].(stage := Leaving)]), h)
  {
    var z := y.(handlers := y.handlers[conn := y.handlers[conn].(stage := Leaving)]);
    if HandlerDue(y, h) {
      var c :| c in y.handlers && y.handlers[c].hash == h && y.handlers[c].room == y.rooms[h].id;
      assert c in z.handlers && z.handlers[c].hash == h && z.handlers[c].room == z.rooms[h].id;
    }
  }

  lemma CloseInv(limits: Limits, y: Relay, conn: Conn)
    requires Inv(limits, y)
    ensures Inv(limits, Close(y, conn))
  {
    hide RoomFine, DropPeer, At;
    if conn in y.handlers && y.handlers[conn].stage.Joined? {
      WriteFailedInv(limits, y, conn);
      var y1 := WriteFailed(y, conn);
      WriteFailedKeepsHandlers(y, conn);
      var z := Close(y, conn);
      forall h | h in z.rooms
        ensures RoomFine(limits, z, h)
      {
        NotThereAfter(limits, y, conn, h);
        StageFine(limits, y1, conn, h);
      }
    }
  }

  lemma WriteFailedKeepsHandlers(y: Relay, conn: Conn)
    ensures WriteFailed(y, conn).handlers == y.handlers
  {
  }

  lemma ClockFine(limits: Limits, y: Relay, z: Relay, hash: string)
    requires RoomFine(limits, y, hash) && hash in y.rooms && hash in z.rooms && y.rooms[hash].peers == map[]
    requires z.rooms[hash] == y.rooms[hash].(evictTask := Some(y.nextTimer))
    requires z.timers == y.timers[y.nextTimer := hash] && z.nextTimer == y.nextTimer + 1 && z.nextRoom == y.nextRoom
    ensures RoomFine(limits, z, hash)
  {
    assert y.nextTimer in z.timers && z.timers[y.nextTimer] == hash;
  }

  lemma OccupiedFine(limits: Limits, y: Relay, z: Relay, hash: string, conn: Conn)
    requires RoomFine(limits, y, hash) && hash in y.rooms && y.rooms[hash].peers != map[]
    requires conn !in y.rooms[hash].peers && z == y.(handlers := y.handlers - {conn})
    ensures RoomFine(limits, z, hash)
  {
  }

  lemma DepartedFine(limits: Limits, y: Relay, conn: Conn, h: string)
    requires h in y.rooms && RoomFine(limits, y, h) && Ordered(y)
    ensures h in AfterDeparture(y, conn).rooms && RoomFine(limits, AfterDeparture(y, conn), h)
  {
    hide RoomFine;
    var z := AfterDeparture(y, conn);
    if conn in y.handlers && y.handlers[conn].stage.Leaving? {
      if h == y.handlers[conn].hash && Live(y, y.handlers[conn]) {
        LeftAlready(limits, y, conn, h);
        if y.rooms[h].peers == map[] {
          ClockFine(limits, y, z, h);
        } else {
          OccupiedFine(limits, y, z, h, conn);
        }
      } else {
        Kept(limits, y, z, h);
      }
    }
  }

  lemma AfterDepartureInv(limits: Limits, y: Relay, conn: Conn)
    requires Inv(limits, y)
    ensures Inv(limits, AfterDeparture(y, conn))
  {
    hide RoomFine, At, Accounted;
    var z := AfterDeparture(y, conn);
    assert z.rooms.Keys == y.rooms.Keys;
    DepartureMovesNobody(y, conn);
    forall h | h in z.rooms
      ensures RoomFine(limits, z, h)
    {
      DepartedFine(limits, y, conn, h);
    }
  }

  lemma LeftAlready(limits: Limits, y: Relay, conn: Conn, h: string)
    requires RoomFine(limits, y, h) && h in y.rooms && conn in y.handlers && y.handlers[conn].stage.Leaving?
    ensures conn !in y.rooms[h].peers
  {
  }

  lemma FiredFine(limits: Limits, y: Relay, z: Relay, t: nat, h: string)
    requires RoomFine(limits, y, h) && h in y.rooms && y.rooms[h].peers != map[]
    requires z.timers == y.timers - {t} && h in z.rooms && z.rooms[h] == y.rooms[h]
    requires z.handlers == y.handlers && z.nextRoom == y.nextRoom && z.nextTimer == y.nextTimer
    ensures RoomFine(limits, z, h)
  {
  }

  lemma SurvivesTimer(limits: Limits, y: Relay, t: nat, h: string)
    requires h in TimerFires(y, t).rooms && (h in y.rooms ==> RoomFine(limits, y, h))
    ensures RoomFine(limits, TimerFires(y, t), h)
  {
    hide RoomFine;
    if t in y.timers && h == y.timers[t] {
      FiredFine(limits, y, TimerFires(y, t), t, h);
    } else {
      Kept(limits, y, TimerFires(y, t), h);
    }
  }

  lemma TimerFiresInv(limits: Limits, y: Relay, t: nat)
    requires Inv(limits, y)
    ensures Inv(limits, TimerFires(y, t))
  {
    hide RoomFine, At, Accounted;
    var z := TimerFires(y, t);
    TimerMovesNobody(y, t);
    if z.rooms != y.rooms {
      assert z.rooms.Keys == y.rooms.Keys - {y.timers[t]};
    }
    forall h | h in z.rooms
      ensures RoomFine(limits, z, h)
    {
      SurvivesTimer(limits, y, t, h);
    }
  }

  lemma AdoptFine(limits: Limits, y: Relay, z: Relay, hash: string, conn: Conn, me: Peer)
    requires RoomFine(limits, y, hash) && hash in y.rooms && conn in y.rooms[hash].peers
    requires me.token == y.rooms[hash].peers[conn].token
    requires me.peerId == y.rooms[hash].peers[conn].peerId || !Taken(y.rooms[hash], me.peerId)
    requires z == y.(rooms := y.rooms[hash := y.rooms[hash].(peers := y.rooms[hash].peers[conn := me])])
    ensures RoomFine(limits, z, hash)
  {
    assert z.rooms[hash].peers.Keys == y.rooms[hash].peers.Keys;
    assert |z.rooms[hash].peers| == |y.rooms[hash].peers|;
  }

  lemma AdoptAccounted(y: Relay, conn: Conn, wanted: Option<string>, name: Option<string>)
    requires Accounted(y)
    ensures Accounted(Adopt(y, conn, wanted, name).0)
  {
    hide At, Accounted, Taken;
    SameAccounted(y, Adopt(y, conn, wanted, name).0);
  }

  lemma AdoptInv(limits: Limits, y: Relay, conn: Conn, wanted: Option<string>, name: Option<string>)
    requires Inv(limits, y)
    ensures Inv(limits, Adopt(y, conn, wanted, name).0)
  {
    hide RoomFine, At, Accounted, Taken;
    var z := Adopt(y, conn, wanted, name).0;
    if conn in y.handlers && Live(y, y.handlers[conn]) && conn in y.rooms[y.handlers[conn].hash].peers {
      var hash := y.handlers[conn].hash;
      assert z.rooms.Keys == y.rooms.Keys;
      AdoptAccounted(y, conn, wanted, name);
      forall h | h in z.rooms
        ensures RoomFine(limits, z, h)
      {
        if h == hash {
          AdoptFine(limits, y, z, hash, conn, z.rooms[hash].peers[conn]);
        } else {
          Kept(limits, y, z, h);
        }
      }
    }
  }

  lemma OpenedInv(limits: Limits, y: Relay, a: Arrival)
    requires Inv(limits, y) && (a.hash in y.rooms || |y.rooms| < limits.maxRooms)
    ensures var z := Opened(y, a);
            && Accounted(z) && Capped(limits, z) && Ordered(z)
            && a.hash in z.rooms && (forall h :: h in z.rooms && h != a.hash ==> RoomFine(limits, z, h))
            && (a.hash in y.rooms ==> z == y)
            && (a.hash !in y.rooms ==> z.rooms[a.hash] == Room(y.nextRoom, map[], None, None, a.now) && z.nextRoom == y.nextRoom + 1)
            && z.handlers == y.handlers && z.nextTimer == y.nextTimer && z.timers == y.timers && z.ipConns == y.ipConns
  {
    hide RoomFine, At, Accounted;
    var z := Opened(y, a);
    if a.hash !in y.rooms {
      assert z.rooms.Keys == y.rooms.Keys + {a.hash};
      OpeningMovesNobody(y, a);
      forall h | h in z.rooms && h != a.hash
        ensures RoomFine(limits, z, h)
      {
        OpenedKeeps(limits, y, a, h);
      }
    }
  }

  lemma OpenedKeeps(limits: Limits, y: Relay, a: Arrival, h: string)
    requires h in y.rooms && RoomFine(limits, y, h)
    ensures h in Opened(y, a).rooms && RoomFine(limits, Opened(y, a), h)
  {
    hide RoomFine;
    Kept(limits, y, Opened(y, a), h);
  }

  lemma EnterShape(y: Relay, a: Arrival)
    requires a.hash in y.rooms && a.conn !in y.rooms[a.hash].peers
    ensures a.hash in Enter(y, a).rooms
    ensures var room, after := y.rooms[a.hash], Enter(y, a).rooms[a.hash];
            && after.id == room.id && after.peers == room.peers[a.conn := Peer(a.peerId, "", a.ip, a.token)]
            && |after.peers| == |room.peers| + 1 && after.peers != map[]
            && after.auth == if room.peers == map[] then (if a.token == "" then None else Some(a.token)) else room.auth
  {
    var room, after := y.rooms[a.hash], Enter(y, a).rooms[a.hash];
    assert after.peers.Keys == room.peers.Keys + {a.conn};
    assert a.conn in after.peers;
  }

  lemma EnterIds(room: Room, after: Room, a: Arrival)
    requires DistinctIds(room.peers) && !Taken(room, a.peerId)
    requires after.peers == room.peers[a.conn := Peer(a.peerId, "", a.ip, a.token)]
    ensures DistinctIds(after.peers)
  {
  }

  lemma EnterToken(room: Room, after: Room, a: Arrival)
    requires OneToken(room) && Admits(room, a.token)
    requires after.peers == room.peers[a.conn := Peer(a.peerId, "", a.ip, a.token)]
    requires after.auth == if room.peers == map[] then (if a.token == "" then None else Some(a.token)) else room.auth
    ensures OneToken(after)
  {
  }

  lemma EnterTimer(y: Relay, a: Arrival)
    requires a.hash in y.rooms && OwnTimer(y, a.hash)
    ensures OwnTimer(Enter(y, a), a.hash)
  {
  }

  lemma EnterFine(limits: Limits, y: Relay, a: Arrival)
    requires a.hash in y.rooms && a.conn !in y.handlers && !Taken(y.rooms[a.hash], a.peerId)
    requires |y.rooms[a.hash].peers| < limits.maxPeers && Admits(y.rooms[a.hash], a.token)
    requires y.rooms[a.hash].id < y.nextRoom
    requires DistinctIds(y.rooms[a.hash].peers) && OneToken(y.rooms[a.hash]) && Tracked(y, a.hash) && OwnTimer(y, a.hash)
    ensures RoomFine(limits, Enter(y, a), a.hash)
  {
    hide DistinctIds, OneToken, OwnTimer, Taken, Admits;
    var room := y.rooms[a.hash];
    assert a.conn !in room.peers;
    EnterShape(y, a);
    var after := Enter(y, a).rooms[a.hash];
    EnterIds(room, after, a);
    EnterToken(room, after, a);
    EnterTimer(y, a);
  }

  lemma EnterKept(limits: Limits, y: Relay, a: Arrival, h: string)
    requires a.hash in y.rooms && a.conn !in y.handlers && OwnTimer(y, a.hash)
    requires h in y.rooms && h != a.hash && RoomFine(limits, y, h)
    ensures RoomFine(limits, Enter(y, a), h)
  {
    Kept(limits, y, Enter(y, a), h);
  }

  lemma EnterInv(limits: Limits, y: Relay, a: Arrival)
    requires Accounted(y) && Capped(limits, y) && Ordered(y) && a.hash in y.rooms
    requires forall h :: h in y.rooms && h != a.hash ==> RoomFine(limits, y, h)
    requires a.conn !in y.handlers && !Taken(y.rooms[a.hash], a.peerId)
    requires |y.rooms[a.hash].peers| < limits.maxPeers && Admits(y.rooms[a.hash], a.token)
    requires y.rooms[a.hash].id < y.nextRoom
    requires DistinctIds(y.rooms[a.hash].peers) && OneToken(y.rooms[a.hash]) && Tracked(y, a.hash) && OwnTimer(y, a.hash)
    requires limits.maxConnsPerIp > 0 && a.ip != "" ==> Count(y.ipConns, a.ip) < limits.maxConnsPerIp
    ensures Inv(limits, Enter(y, a))
  {
    hide RoomFine, At, Accounted, Taken, OwnTimer, Admits, DistinctIds, OneToken;
    var z := Enter(y, a);
    assert a.conn !in y.rooms[a.hash].peers;
    assert z.rooms[a.hash].peers - {a.conn} == y.rooms[a.hash].peers;
    ChargeAccounted(y, z, a.hash, a.conn, a.ip);
    assert z.rooms.Keys == y.rooms.Keys;
    forall h | h in z.rooms
      ensures RoomFine(limits, z, h)
    {
      if h == a.hash {
        EnterFine(limits, y, a);
      } else {
        EnterKept(limits, y, a, h);
      }
    }
  }

  lemma PreparedInv(limits: Limits, y: Relay, a: Arrival)
    requires Inv(limits, y)
    ensures Inv(limits, Prepared(limits, y, a)) && Prepared(limits, y, a).handlers == y.handlers
    ensures Count(Prepared(limits, y, a).ipConns, a.ip) <= Count(y.ipConns, a.ip)
    ensures a.hash in Prepared(limits, y, a).rooms ==> Prepared(limits, y, a) == y
  {
    hide Inv;
    RetireInv(limits, y, a.hash);
    RetireFrees(y, a.hash);
  }

  /** The last step of a join, in whatever room there now is. */
  lemma AdmittedInv(limits: Limits, y: Relay, a: Arrival)
    requires Inv(limits, y) && a.conn !in y.handlers && (a.hash in y.rooms ==> !Taken(y.rooms[a.hash], a.peerId))
    requires a.hash in y.rooms || |y.rooms| < limits.maxRooms
    requires |Opened(y, a).rooms[a.hash].peers| < limits.maxPeers && Admits(Opened(y, a).rooms[a.hash], a.token)
    requires limits.maxConnsPerIp > 0 && a.ip != "" ==> Count(y.ipConns, a.ip) < limits.maxConnsPerIp
    ensures Inv(limits, Enter(Opened(y, a), a))
  {
    hide At, Accounted, Taken, Admits, Enter, Capped, Ordered, Count, Watched;
    OpenedInv(limits, y, a);
    var y2 := Opened(y, a);
    if a.hash in y.rooms {
      assert RoomFine(limits, y, a.hash);
    } else {
      FreshRoom(y2, a);
    }
    EnterInv(limits, y2, a);
  }

  lemma JoinInv(limits: Limits, y: Relay, a: Arrival)
    requires Inv(limits, y) && Possible(y, Arrive(a)) && limits.maxPeers > 0
    ensures Inv(limits, Join(limits, y, a).0)
  {
    hide Inv, Prepared, Taken, Admits, Enter, Count, Opened;
    PreparedInv(limits, y, a);
    var y1 := Prepared(limits, y, a);
    if a.hash in y1.rooms || |y1.rooms| < limits.maxRooms {
      OpenedAlone(limits, y1, a);
      var room := Opened(y1, a).rooms[a.hash];
      if |room.peers| < limits.maxPeers && Admits(room, a.token)
         && !(limits.maxConnsPerIp > 0 && a.ip != "" && Count(y.ipConns, a.ip) >= limits.maxConnsPerIp) {
        AdmittedInv(limits, y1, a);
      }
    }
  }

  /** A room made for an arrival never refuses it, so it is not left behind empty. */
  lemma OpenedAlone(limits: Limits, y: Relay, a: Arrival)
    ensures a.hash in Opened(y, a).rooms
    ensures a.hash in y.rooms ==> Opened(y, a) == y
    ensures a.hash !in y.rooms ==> Opened(y, a).rooms[a.hash].peers == map[] && Admits(Opened(y, a).rooms[a.hash], a.token)
  {
  }

  lemma FreshRoom(y: Relay, a: Arrival)
    requires a.hash in y.rooms && y.rooms[a.hash].peers == map[] && y.rooms[a.hash].evictTask.None?
    ensures !Taken(y.rooms[a.hash], a.peerId) && DistinctIds(y.rooms[a.hash].peers) && OneToken(y.rooms[a.hash])
    ensures Tracked(y, a.hash) && OwnTimer(y, a.hash)
  {
  }

  lemma RetireFrees(y: Relay, hash: string)
    ensures hash !in Retire(y, hash).rooms
    ensures Retire(y, hash).handlers == y.handlers
    ensures forall ip :: Count(Retire(y, hash).ipConns, ip) <= Count(y.ipConns, ip)
    ensures forall h :: h in Retire(y, hash).rooms ==> h in y.rooms && Retire(y, hash).rooms[h] == y.rooms[h]
  {
  }

  // ------------------------------------------------------------------
  // Every run.
  // ------------------------------------------------------------------

  lemma NextInv(limits: Limits, y: Relay, e: Event)
    requires Inv(limits, y) && Possible(y, e) && limits.maxPeers > 0
    ensures Inv(limits, Next(limits, y, e))
  {
    hide Inv, Join, Adopt, WriteFailed, Close, AfterDeparture, TimerFires, Retire;
    match e {
      case Arrive(a) => JoinInv(limits, y, a);
      case Hello(conn, wanted, name) => AdoptInv(limits, y, conn, wanted, name);
      case Unreachable(conn) => WriteFailedInv(limits, y, conn);
      case Gone(conn) => CloseInv(limits, y, conn);
      case Departed(conn) => AfterDepartureInv(limits, y, conn);
      case TtlPassed(t) => TimerFiresInv(limits, y, t);
      case Sweep(hash, now) => RetireInv(limits, y, hash);
    }
  }

  predicate Feasible(limits: Limits, y: Relay, run: seq<Event>)
    decreases |run|
  {
    run == [] || (Possible(y, run[0]) && Feasible(limits, Next(limits, y, run[0]), run[1..]))
  }

  function After(limits: Limits, y: Relay, run: seq<Event>): Relay
    decreases |run|
  {
    if run == [] then y else After(limits, Next(limits, y, run[0]), run[1..])
  }

  lemma {:induction false} RunInv(limits: Limits, y: Relay, run: seq<Event>)
    requires Inv(limits, y) && Feasible(limits, y, run) && limits.maxPeers > 0
    ensures Inv(limits, After(limits, y, run))
    decreases |run|
  {
    hide Inv, Next, Possible;
    if run != [] {
      NextInv(limits, y, run[0]);
      RunInv(limits, Next(limits, y, run[0]), run[1..]);
    }
  }

  lemma EmptyInv(limits: Limits)
    ensures Inv(limits, EMPTY)
  {
    assert forall ip :: At(EMPTY.rooms, ip) == {};
  }

  /** After anything at all, the address counts are the true ones, and within the cap. */
  lemma CountsAreTrue(limits: Limits, run: seq<Event>)
    requires Feasible(limits, EMPTY, run) && limits.maxPeers > 0
    ensures forall ip :: ip != "" ==> Count(After(limits, EMPTY, run).ipConns, ip) == |At(After(limits, EMPTY, run).rooms, ip)|
    ensures forall ip :: ip in After(limits, EMPTY, run).ipConns ==>
              After(limits, EMPTY, run).ipConns[ip] > 0 && At(After(limits, EMPTY, run).rooms, ip) != {}
    ensures limits.maxConnsPerIp > 0 ==>
              forall ip :: ip != "" ==> |At(After(limits, EMPTY, run).rooms, ip)| <= limits.maxConnsPerIp
  {
    hide After, Feasible, At;
    EmptyInv(limits);
    RunInv(limits, EMPTY, run);
    var y := After(limits, EMPTY, run);
    forall ip | ip in y.ipConns
      ensures At(y.rooms, ip) != {}
    {
      assert Count(y.ipConns, ip) == |At(y.rooms, ip)|;
    }
  }

  /** After anything at all, every room keeps its caps, its ids apart, one token, and somebody to look after it. */
  lemma {:induction false} RoomsAreFine(limits: Limits, run: seq<Event>, hash: string)
    requires Feasible(limits, EMPTY, run) && limits.maxPeers > 0 && hash in After(limits, EMPTY, run).rooms
    ensures var y := After(limits, EMPTY, run); var room := y.rooms[hash];
            && |y.rooms| <= limits.maxRooms && |room.peers| <= limits.maxPeers
            && (forall c, d :: c in room.peers && d in room.peers && c != d ==> room.peers[c].peerId != room.peers[d].peerId)
            && (forall c, d :: c in room.peers && d in room.peers ==> room.peers[c].token == room.peers[d].token)
            && (room.peers == map[] ==> TimerRunning(y, hash) || HandlerDue(y, hash))
  {
    hide After, Feasible, Accounted, TimerRunning, HandlerDue, Tracked, OwnTimer;
    EmptyInv(limits);
    RunInv(limits, EMPTY, run);
    assert RoomFine(limits, After(limits, EMPTY, run), hash);
  }

  /** A room goes, or makes way for another of its name, only empty or past its lifetime. */
  lemma LeavesOnlyEmpty(limits: Limits, y: Relay, e: Event, hash: string)
    requires hash in y.rooms
    requires hash !in Next(limits, y, e).rooms || Next(limits, y, e).rooms[hash].id != y.rooms[hash].id
    ensures match e {
              case TtlPassed(t) => t in y.timers && y.timers[t] == hash && y.rooms[hash].peers == map[]
              case Sweep(h, now) => h == hash && Expired(limits, y.rooms[hash], now)
              case Arrive(a) => a.hash == hash && Expired(limits, y.rooms[hash], a.now)
              case _ => false
            }
  {
    match e {
      case Arrive(a) =>
        if !(a.hash == hash && Expired(limits, y.rooms[hash], a.now)) {
          JoinElsewhere(limits, y, a, hash);
        }
      case _ =>
    }
  }

  lemma JoinElsewhere(limits: Limits, y: Relay, a: Arrival, hash: string)
    requires hash in y.rooms && !(a.hash == hash && Expired(limits, y.rooms[hash], a.now))
    ensures hash in Join(limits, y, a).0.rooms && Join(limits, y, a).0.rooms[hash].id == y.rooms[hash].id
  {
    hide Admits, Expired, Count, Enter, Opened, Prepared;
    PreparedElsewhere(limits, y, a, hash);
    var y1 := Prepared(limits, y, a);
    OpenedElsewhere(y1, a, hash);
    if |Opened(y1, a).rooms[a.hash].peers| < limits.maxPeers {
      EnterElsewhere(Opened(y1, a), a, hash);
    }
  }

  lemma PreparedElsewhere(limits: Limits, y: Relay, a: Arrival, hash: string)
    requires hash in y.rooms && !(a.hash == hash && Expired(limits, y.rooms[hash], a.now))
    ensures hash in Prepared(limits, y, a).rooms && Prepared(limits, y, a).rooms[hash] == y.rooms[hash]
  {
  }

  lemma OpenedElsewhere(y: Relay, a: Arrival, hash: string)
    requires hash in y.rooms
    ensures hash in Opened(y, a).rooms && Opened(y, a).rooms[hash] == y.rooms[hash] && a.hash in Opened(y, a).rooms
  {
  }

  lemma EnterElsewhere(y: Relay, a: Arrival, hash: string)
    requires hash in y.rooms && a.hash in y.rooms
    ensures hash in Enter(y, a).rooms && Enter(y, a).rooms[hash].id == y.rooms[hash].id
  {
  }

  /** Retiring releases exactly the retired room's own peers: other rooms' counts stand. */
  lemma RetireReleasesItsOwn(y: Relay, hash: string, ip: string)
    requires Accounted(y) && hash in y.rooms && ip != ""
    ensures Count(Retire(y, hash).ipConns, ip) == Count(y.ipConns, ip) - |FromAddress(y.rooms[hash].peers, ip)|
    ensures Count(Retire(y, hash).ipConns, ip) == |At(y.rooms - {hash}, ip)|
  {
    RetireAccounted(y, hash);
    AtWithout(y.rooms, hash, ip);
  }

  // ------------------------------------------------------------------
  // A relay everybody has left comes back to nothing.
  // ------------------------------------------------------------------

  lemma NobodyLeft(limits: Limits, y: Relay)
    requires Inv(limits, y) && y.handlers == map[]
    ensures y.ipConns == map[]
    ensures forall h :: h in y.rooms ==> y.rooms[h].peers == map[] && TimerRunning(y, h)
  {
    hide Capped, DistinctIds, OneToken, OwnTimer, TimerRunning;
    forall h | h in y.rooms
      ensures y.rooms[h].peers == map[] && TimerRunning(y, h)
    {
      assert RoomFine(limits, y, h);
      assert forall c :: c in y.rooms[h].peers ==> c in y.handlers;
    }
    assert forall ip :: At(y.rooms, ip) == {};
    assert forall ip :: ip in y.ipConns ==> Count(y.ipConns, ip) > 0;
  }

  function FireAll(y: Relay, order: seq<nat>): Relay
    decreases |order|
  {
    if order == [] then y else FireAll(TimerFires(y, order[0]), order[1..])
  }

  /** Once every handler has finished and every timer has run, no room is left. */
  lemma {:induction false} Drains(limits: Limits, y: Relay, order: seq<nat>)
    requires Inv(limits, y) && y.handlers == map[] && forall t :: t in y.timers ==> t in order
    ensures FireAll(y, order).rooms == map[] && FireAll(y, order).ipConns == map[] && FireAll(y, order).timers == map[]
    decreases |order|
  {
    hide Inv;
    NobodyLeft(limits, y);
    if order == [] {
      assert y.timers == map[];
      assert forall h :: h in y.rooms ==> TimerRunning(y, h);
    } else {
      TimerFiresInv(limits, y, order[0]);
      Drains(limits, TimerFires(y, order[0]), order[1..]);
    }
  }
}
