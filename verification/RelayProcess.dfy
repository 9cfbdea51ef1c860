/**
 The relay process: the tables of backend/main.py, changed in place by the handlers.
 Each method leaves exactly the tables that its step in `RelayTable` describes.
 */
module RelayProcesses {

  import opened Options
  import opened RelayTable

  class RelayProcess {
    const limits: Limits
    var rooms: map<string, Room>
    var ipConns: map<string, nat>
    var timers: map<nat, string>
    var handlers: map<Conn, Handler>
    var nextRoom: nat
    var nextTimer: nat

    function View(): Relay
      reads this
    {
      Relay(rooms, ipConns, timers, handlers, nextRoom, nextTimer)
    }

    constructor (limits: Limits)
      ensures this.limits == limits && View() == EMPTY
    {
      this.limits := limits;
      rooms, ipConns, timers, handlers := map[], map[], map[], map[];
      nextRoom, nextTimer := 0, 0;
    }

    /** The one place an address count goes down. */
    method DropPeer(hash: string, conn: Conn)
      requires hash in rooms
      modifies this`rooms, this`ipConns
      ensures View() == RelayTable.DropPeer(old(View()), hash, conn)
    {
      var room := rooms[hash];
      if conn in room.peers {
        var ip := room.peers[conn].ip;
        rooms := rooms[hash := room.(peers := room.peers - {conn})];
        if ip != "" {
          var count: int := if ip in ipConns then ipConns[ip] else 1;
          var remaining := count - 1;
          if remaining > 0 {
            ipConns := ipConns[ip := remaining];
          } else {
            ipConns := ipConns - {ip};
          }
        }
      }
    }

    /** Close a room past its lifetime: every peer is dropped before it leaves the table. */
    method Retire(hash: string)
      requires hash in rooms && Accounted(View())
      modifies this`rooms, this`ipConns
      ensures View() == RelayTable.Retire(old(View()), hash)
    {
      ghost var start := View();
      var conns := rooms[hash].peers.Keys;
      while conns != {}
        invariant hash in rooms && rooms == start.rooms[hash := rooms[hash]]
        invariant rooms[hash].peers == map c | c in conns :: start.rooms[hash].peers[c]
        invariant conns <= start.rooms[hash].peers.Keys
        invariant timers == start.timers && handlers == start.handlers && nextRoom == start.nextRoom && nextTimer == start.nextTimer
        invariant Accounted(View())
        decreases conns
      {
        hide Accounted, At;
        var conn :| conn in conns;
        ghost var before := View();
        DropPeer(hash, conn);
        ReleaseAccounted(before, View(), hash, conn, before.rooms[hash].peers[conn].ip);
        conns := conns - {conn};
      }
      RetiredAlike(start, View(), hash);
      assert rooms - {hash} == start.rooms - {hash};
      rooms := rooms - {hash};
    }

    /** The peer goes in: the room is armed if it was empty, and its eviction called off. */
    method Enter(a: Arrival)
      requires a.hash in rooms
      modifies this`rooms, this`timers, this`ipConns, this`handlers
      ensures View() == RelayTable.Enter(old(View()), a)
    {
      var room := rooms[a.hash];
      if room.peers == map[] {
        room := room.(auth := if a.token == "" then None else Some(a.token));
      }
      if room.evictTask.Some? && room.evictTask.value in timers {
        timers := timers - {room.evictTask.value};
        room := room.(evictTask := None);
      }
      room := room.(peers := room.peers[a.conn := Peer(a.peerId, "", a.ip, a.token)]);
      rooms := rooms[a.hash := room];
      if a.ip != "" {
        ipConns := ipConns[a.ip := Count(ipConns, a.ip) + 1];
      }
      handlers := handlers[a.conn := Handler(a.hash, room.id, Joined)];
    }

    method Join(a: Arrival) returns (verdict: Verdict)
      requires Accounted(View())
      modifies this
      ensures (View(), verdict) == RelayTable.Join(limits, old(View()), a)
    {
      hide Accounted, Admits, Expired, Count, RelayTable.Retire, RelayTable.Enter;
      if limits.joinToken.Some? && a.org != limits.joinToken.value {
        return Refused(OrgTokenRequired);
      }
      if limits.maxConnsPerIp > 0 && a.ip != "" && Count(ipConns, a.ip) >= limits.maxConnsPerIp {
        return Refused(TooManyConnections);
      }
      if a.hash in rooms && Expired(limits, rooms[a.hash], a.now) {
        Retire(a.hash);
      }
      if a.hash !in rooms {
        if |rooms| >= limits.maxRooms {
          return Refused(RelayBusy);
        }
        rooms := rooms[a.hash := Room(nextRoom, map[], None, None, a.now)];
        nextRoom := nextRoom + 1;
      }
      var room := rooms[a.hash];
      if |room.peers| >= limits.maxPeers {
        return Refused(RoomFull);
      }
      if !Admits(room, a.token) {
        return Refused(AuthFailed);
      }
      var existing := |room.peers|;
      Enter(a);
      verdict := Admitted(existing);
    }

    method AdoptIdentity(conn: Conn, wanted: Option<string>, name: Option<string>) returns (changed: bool, taken: bool)
      requires conn in handlers && Live(View(), handlers[conn]) && conn in rooms[handlers[conn].hash].peers
      modifies this`rooms
      ensures (View(), changed, taken) == Adopt(old(View()), conn, wanted, name)
    {
      var hash := handlers[conn].hash;
      var room := rooms[hash];
      var me := room.peers[conn];
      changed, taken := false, false;
      if wanted.Some? && wanted.value != me.peerId {
        taken := HasId(room, wanted.value);
        if !taken {
          me := me.(peerId := wanted.value);
          changed := true;
        }
      }
      if name.Some? && name.value != me.name {
        me := me.(name := name.value);
        changed := true;
      }
      rooms := rooms[hash := room.(peers := room.peers[conn := me])];
    }

    method HasId(room: Room, id: string) returns (found: bool)
      ensures found == Taken(room, id)
    {
      var left := room.peers.Keys;
      found := false;
      while left != {} && !found
        invariant left <= room.peers.Keys
        invariant forall c :: c in room.peers && c !in left && !found ==> room.peers[c].peerId != id
        invariant found ==> Taken(room, id)
        decreases left
      {
        var c :| c in left;
        found := room.peers[c].peerId == id;
        left := left - {c};
      }
    }

    /** An ordinary departure, as far as it goes without waiting. */
    method Depart(conn: Conn)
      requires conn in handlers && handlers[conn].stage.Joined?
      modifies this`rooms, this`ipConns, this`handlers
      ensures View() == Close(old(View()), conn)
    {
      var h := handlers[conn];
      if h.hash in rooms && rooms[h.hash].id == h.room {
        DropPeer(h.hash, conn);
      }
      handlers := handlers[conn := h.(stage := Leaving)];
    }

    method AfterDeparture(conn: Conn)
      requires conn in handlers && handlers[conn].stage.Leaving?
      modifies this
      ensures View() == RelayTable.AfterDeparture(old(View()), conn)
    {
      var h := handlers[conn];
      var here := h.hash in rooms && rooms[h.hash].id == h.room;
      handlers := handlers - {conn};
      if !here || rooms[h.hash].peers == map[] {
        timers := timers[nextTimer := h.hash];
        if here {
          rooms := rooms[h.hash := rooms[h.hash].(evictTask := Some(nextTimer))];
        }
        nextTimer := nextTimer + 1;
      }
    }

    method EvictLater(t: nat)
      requires t in timers
      modifies this`rooms, this`timers
      ensures View() == TimerFires(old(View()), t)
    {
      var hash := timers[t];
      timers := timers - {t};
      if hash in rooms && rooms[hash].peers == map[] {
        rooms := rooms - {hash};
      }
    }
  }

  /** Dropping the peers one at a time frees what releasing them all at once frees. */
  lemma RetiredAlike(start: Relay, y: Relay, hash: string)
    requires Accounted(start) && Accounted(y) && hash in start.rooms && hash in y.rooms
    requires y.rooms == start.rooms[hash := y.rooms[hash]] && y.rooms[hash].peers == map[]
    ensures y.ipConns == RelayTable.Retire(start, hash).ipConns
  {
    var z := RelayTable.Retire(start, hash);
    RetireAccounted(start, hash);
    forall ip | ip != ""
      ensures Count(y.ipConns, ip) == Count(z.ipConns, ip)
    {
      NobodyMovedAt(y.rooms, z.rooms, ip);
    }
    hide At;
    SameCounts(y.ipConns, z.ipConns);
  }

  lemma SameCounts(a: map<string, nat>, b: map<string, nat>)
    requires forall ip :: ip in a ==> a[ip] > 0 && ip != ""
    requires forall ip :: ip in b ==> b[ip] > 0 && ip != ""
    requires forall ip :: ip != "" ==> Count(a, ip) == Count(b, ip)
    ensures a == b
  {
    forall ip
      ensures ip in a <==> ip in b
      ensures ip in a ==> a[ip] == b[ip]
    {
      if ip != "" {
        assert Count(a, ip) == Count(b, ip);
      }
    }
  }
}
