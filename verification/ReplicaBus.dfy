/**
 One room on several replicas: `publish`, the subscription pump and its delivery from
 backend/shared.py, with `_broadcast`, `_deliver_remote` and `_forward` of
 backend/main.py. The bus is first in, first out for each subscriber and drops nothing
 while the subscription lives. A fan-out within one replica is one step here.
 */
module ReplicaBus {

  type Conn = nat

  /** A room-wide frame is named by its place in the log of accepted frames. */
  datatype Body = RoomWide(frame: nat) | Targeted(to: string) | Nudge

  datatype Message = Message(origin: nat, body: Body)

  /** `up` is history: how many frames had been accepted when this subscription began. */
  datatype Replica = Replica(peers: map<Conn, string>, healthy: bool, subscribed: bool, up: nat, queue: seq<Message>)

  /** History: who sent a frame, on which replica, and whether that replica could publish it. */
  datatype Accepted = Accepted(origin: nat, sender: Conn, published: bool)

  /** `got`, `home` and `since` are kept for every connection there ever was. */
  datatype Bus = Bus(
    replicas: seq<Replica>, log: seq<Accepted>,
    got: map<Conn, multiset<nat>>, home: map<Conn, nat>, since: map<Conn, nat>)

  function Quiet(n: nat): Bus {
    Bus(seq(n, _ => Replica(map[], true, true, 0, [])), [], map[], map[], map[])
  }

  // ------------------------------------------------------------------
  // Steps.
  // ------------------------------------------------------------------

  /** What a replica hands to the bus: stamped with its own name, or nothing when there is no bus to be had. */
  function Handed(healthy: bool, origin: nat, body: Body): seq<Message> {
    if healthy then [Message(origin, body)] else []
  }

  /** The bus: every subscriber's queue gets it, the origin's own included. */
  function Publish(replicas: seq<Replica>, origin: nat, body: Body): (after: seq<Replica>)
    requires origin < |replicas|
    ensures |after| == |replicas|
    ensures forall r :: 0 <= r < |replicas| ==>
              after[r] == if replicas[origin].healthy && replicas[r].subscribed
                          then replicas[r].(queue := replicas[r].queue + [Message(origin, body)]) else replicas[r]
  {
    var handed := Handed(replicas[origin].healthy, origin, body);
    seq(|replicas|, r requires 0 <= r < |replicas| =>
      if handed != [] && replicas[r].subscribed then replicas[r].(queue := replicas[r].queue + handed) else replicas[r])
  }

  /** How often a connection was given a frame. */
  function Seen(got: map<Conn, multiset<nat>>, c: Conn, frame: nat): nat {
    if c in got then got[c][frame] else 0
  }

  function Delivered(got: map<Conn, multiset<nat>>, targets: set<Conn>, frame: nat): map<Conn, multiset<nat>> {
    map c | c in got :: if c in targets then got[c][frame := got[c][frame] + 1] else got[c]
  }

  /** The fan-out on one replica; a peer that cannot be written to is dropped. */
  function Fan(y: Bus, r: nat, frame: nat, exclude: set<Conn>, failed: set<Conn>): Bus
    requires r < |y.replicas|
  {
    var targets := y.replicas[r].peers.Keys - exclude;
    y.(got := Delivered(y.got, targets - failed, frame),
       replicas := y.replicas[r := y.replicas[r].(peers := y.replicas[r].peers - (targets * failed))])
  }

  /** A room-wide frame from a connection of replica `r`: published, then fanned out here. */
  function Accept(y: Bus, r: nat, conn: Conn, failed: set<Conn>): Bus
    requires r < |y.replicas|
  {
    var frame := |y.log|;
    var y1 := y.(replicas := Publish(y.replicas, r, RoomWide(frame)), log := y.log + [Accepted(r, conn, y.replicas[r].healthy)]);
    Fan(y1, r, frame, {conn}, failed)
  }

  function Drop(y: Bus, r: nat, conns: set<Conn>): Bus
    requires r < |y.replicas|
  {
    y.(replicas := y.replicas[r := y.replicas[r].(peers := y.replicas[r].peers - conns)])
  }

  function Announce(y: Bus, r: nat): Bus
    requires r < |y.replicas|
  {
    y.(replicas := Publish(y.replicas, r, Nudge))
  }

  function Find(peers: map<Conn, string>, id: string): set<Conn> {
    set c | c in peers && peers[c] == id
  }

  /** A targeted frame for a peer here; if it cannot be written to it goes, and the rosters are told. */
  function SendTo(y: Bus, r: nat, to: string, failed: set<Conn>): Bus
    requires r < |y.replicas|
  {
    var gone := Find(y.replicas[r].peers, to) * failed;
    if gone == {} then y else Announce(Drop(y, r, gone), r)
  }

  /** What is done with a message of another replica. */
  function Handle(y: Bus, r: nat, m: Message, failed: set<Conn>): (after: Bus)
    requires r < |y.replicas|
    ensures |after.replicas| == |y.replicas| && y.replicas[r].queue <= after.replicas[r].queue
  {
    match m.body
    case RoomWide(frame) => Fan(y, r, frame, {}, failed)
    case Targeted(to) => SendTo(y, r, to, failed)
    case Nudge => Drop(y, r, failed)
  }

  /** The queue without its first message. */
  function Advanced(y: Bus, r: nat): (after: Bus)
    requires r < |y.replicas| && |y.replicas[r].queue| > 0
    ensures |after.replicas| == |y.replicas|
  {
    y.(replicas := y.replicas[r := y.replicas[r].(queue := y.replicas[r].queue[1..])])
  }

  /** The pump takes the next message, and skips what this replica published itself. */
  function Pump(y: Bus, r: nat, failed: set<Conn>): (after: Bus)
    requires r < |y.replicas| && |y.replicas[r].queue| > 0
    ensures |after.replicas| == |y.replicas| && y.replicas[r].queue[1..] <= after.replicas[r].queue
  {
    var m := y.replicas[r].queue[0];
    if m.origin == r then Advanced(y, r) else Handle(Advanced(y, r), r, m, failed)
  }

  function Join(y: Bus, r: nat, conn: Conn, id: string): Bus
    requires r < |y.replicas|
  {
    Announce(y.(replicas := y.replicas[r := y.replicas[r].(peers := y.replicas[r].peers[conn := id])],
                got := y.got[conn := multiset{}], home := y.home[conn := r], since := y.since[conn := |y.log|]), r)
  }

  datatype Event =
    | Joins(r: nat, conn: Conn, id: string)
    | Leaves(r: nat, conn: Conn, announced: bool)
    | Sends(r: nat, conn: Conn, failed: set<Conn>)
    | Targets(r: nat, to: string, remote: bool, failed: set<Conn>)
    | Pumps(r: nat, failed: set<Conn>)
    | Degrades(r: nat)
    | LosesPump(r: nat)
    | Subscribes(r: nat)

  predicate Possible(y: Bus, e: Event) {
    && e.r < |y.replicas|
    && match e
       case Joins(_, conn, _) => conn !in y.got
       case Sends(r, conn, _) => conn in y.home && y.home[conn] == r
       case Pumps(r, _) => |y.replicas[r].queue| > 0
       case Subscribes(r) => !y.replicas[r].subscribed
       case _ => true
  }

  function Next(y: Bus, e: Event): Bus
    requires Possible(y, e)
  {
    match e
    case Joins(r, conn, id) => Join(y, r, conn, id)
    case Leaves(r, conn, announced) => if announced then Announce(Drop(y, r, {conn}), r) else Drop(y, r, {conn})
    case Sends(r, conn, failed) => Accept(y, r, conn, failed)
    case Targets(r, to, remote, failed) =>
      if Find(y.replicas[r].peers, to) != {} then SendTo(y, r, to, failed)
      else if remote then y.(replicas := Publish(y.replicas, r, Targeted(to))) else y
    case Pumps(r, failed) => Pump(y, r, failed)
    case Degrades(r) => y.(replicas := y.replicas[r := y.replicas[r].(healthy := false)])
    case LosesPump(r) => y.(replicas := y.replicas[r := y.replicas[r].(healthy := false, subscribed := false, queue := [])])
    case Subscribes(r) =>
      y.(replicas := y.replicas[r := y.replicas[r].(healthy := true, subscribed := true, up := |y.log|, queue := [])])
  }

  // ------------------------------------------------------------------
  // The invariant.
  // ------------------------------------------------------------------

  /** How often a frame is still to be pumped. */
  function Pending(queue: seq<Message>, frame: nat): nat {
    if queue == [] then 0 else (if queue[0].body == RoomWide(frame) then 1 else 0) + Pending(queue[1..], frame)
  }

  ghost predicate Housed(y: Bus) {
    && (forall r, c :: 0 <= r < |y.replicas| && c in y.replicas[r].peers ==> At(y, r, c))
    && (forall f :: 0 <= f < |y.log| ==> y.log[f].sender in y.home && y.home[y.log[f].sender] == y.log[f].origin)
    && y.home.Keys == y.got.Keys
  }

  ghost predicate At(y: Bus, r: nat, c: Conn) {
    c in y.got && c in y.home && y.home[c] == r && c in y.since && y.since[c] <= |y.log|
  }

  /** A queue holds no frame twice, and none under a false origin. */
  ghost predicate QueueInv(log: seq<Accepted>, queue: seq<Message>) {
    && (forall f: nat :: Pending(queue, f) <= if f < |log| then 1 else 0)
    && (forall i :: 0 <= i < |queue| && queue[i].body.RoomWide? ==> TrueOrigin(log, queue[i]))
  }

  ghost predicate TrueOrigin(log: seq<Accepted>, m: Message)
    requires m.body.RoomWide?
  {
    m.body.frame < |log| && log[m.body.frame].origin == m.origin
  }

  ghost predicate OnceInv(y: Bus) {
    forall c, f: nat :: Seen(y.got, c, f) <= 1 && (Seen(y.got, c, f) > 0 ==> f < |y.log| && y.log[f].sender != c)
  }

  /** What a peer of this replica has of a frame, together with what it will still get. */
  ghost predicate Due(y: Bus, r: nat, f: nat, c: Conn)
    requires r < |y.replicas| && f < |y.log| && c in y.since
  {
    if r == y.log[f].origin then
      c != y.log[f].sender && y.since[c] <= f ==> Seen(y.got, c, f) == 1
    else
      && Seen(y.got, c, f) + Pending(y.replicas[r].queue, f) <= 1
      && (y.replicas[r].subscribed && y.replicas[r].up <= f && y.log[f].published && y.since[c] <= f ==>
            Seen(y.got, c, f) + Pending(y.replicas[r].queue, f) == 1)
  }

  ghost predicate DueInv(y: Bus) {
    forall r, f, c :: 0 <= r < |y.replicas| && 0 <= f < |y.log| && c in y.replicas[r].peers && c in y.since ==> Due(y, r, f, c)
  }

  ghost predicate QueuesInv(y: Bus) {
    forall r :: 0 <= r < |y.replicas| ==> y.replicas[r].up <= |y.log| && QueueInv(y.log, y.replicas[r].queue)
  }

  ghost predicate Inv(y: Bus) {
    Housed(y) && OnceInv(y) && DueInv(y) && QueuesInv(y)
  }

  lemma {:induction false} PendingAppend(queue: seq<Message>, m: Message, f: nat)
    ensures Pending(queue + [m], f) == Pending(queue, f) + (if m.body == RoomWide(f) then 1 else 0)
  {
    if queue == [] {
      assert [] + [m] == [m] && [m][1..] == [];
    } else {
      assert (queue + [m])[1..] == queue[1..] + [m];
      PendingAppend(queue[1..], m, f);
    }
  }

  // ------------------------------------------------------------------
  // Every step keeps it.
  // ------------------------------------------------------------------

  lemma DeliveredSeen(got: map<Conn, multiset<nat>>, targets: set<Conn>, frame: nat, c: Conn, f: nat)
    ensures Seen(Delivered(got, targets, frame), c, f)
         == Seen(got, c, f) + if c in got && c in targets && f == frame then 1 else 0
  {
  }

  lemma {:induction false} PendingIn(queue: seq<Message>, i: nat)
    requires i < |queue| && queue[i].body.RoomWide?
    ensures Pending(queue, queue[i].body.frame) > 0
  {
    if i > 0 { PendingIn(queue[1..], i - 1); }
  }

  /** Peers went; queues, deliveries and subscriptions are as they were. */
  lemma FewerPeers(y: Bus, z: Bus)
    requires Inv(y) && |z.replicas| == |y.replicas|
    requires z == y.(replicas := z.replicas)
    requires forall r :: 0 <= r < |y.replicas| ==>
               && z.replicas[r].peers.Keys <= y.replicas[r].peers.Keys
               && z.replicas[r].queue == y.replicas[r].queue
               && z.replicas[r].up == y.replicas[r].up
               && (z.replicas[r].subscribed ==> y.replicas[r].subscribed)
    ensures Inv(z)
  {
    hide QueueInv, Pending, Seen;
    forall r, f, c | 0 <= r < |z.replicas| && 0 <= f < |z.log| && c in z.replicas[r].peers && c in z.since
      ensures Due(z, r, f, c)
    {
      assert Due(y, r, f, c);
    }
  }

  /** A message with no room-wide frame in it, at the end of a queue. */
  lemma OtherQueued(log: seq<Accepted>, queue: seq<Message>, m: Message)
    requires QueueInv(log, queue) && !m.body.RoomWide?
    ensures QueueInv(log, queue + [m]) && forall f: nat :: Pending(queue + [m], f) == Pending(queue, f)
  {
    forall f: nat
      ensures Pending(queue + [m], f) == Pending(queue, f)
    {
      PendingAppend(queue, m, f);
    }
  }

  lemma PublishOtherInv(y: Bus, r: nat, body: Body)
    requires Inv(y) && r < |y.replicas| && !body.RoomWide?
    ensures Inv(y.(replicas := Publish(y.replicas, r, body)))
  {
    hide Pending, Publish, Seen, QueueInv;
    var z := y.(replicas := Publish(y.replicas, r, body));
    forall s | 0 <= s < |z.replicas|
      ensures QueueInv(z.log, z.replicas[s].queue) && forall f: nat :: Pending(z.replicas[s].queue, f) == Pending(y.replicas[s].queue, f)
    {
      OtherQueued(y.log, y.replicas[s].queue, Message(r, body));
    }
    forall s, f, c | 0 <= s < |z.replicas| && 0 <= f < |z.log| && c in z.replicas[s].peers && c in z.since
      ensures Due(z, s, f, c)
    {
      assert Due(y, s, f, c);
    }
  }

  lemma SendToInv(y: Bus, r: nat, to: string, failed: set<Conn>)
    requires Inv(y) && r < |y.replicas|
    ensures Inv(SendTo(y, r, to, failed))
  {
    hide Inv;
    var gone := Find(y.replicas[r].peers, to) * failed;
    if gone != {} {
      FewerPeers(y, Drop(y, r, gone));
      PublishOtherInv(Drop(y, r, gone), r, Nudge);
    }
  }

  /** A newcomer has nothing yet, and is due nothing from before. */
  lemma NewcomerInv(y: Bus, r: nat, conn: Conn, id: string, z: Bus)
    requires Inv(y) && r < |y.replicas| && conn !in y.got
    requires z == y.(replicas := y.replicas[r := y.replicas[r].(peers := y.replicas[r].peers[conn := id])],
                     got := y.got[conn := multiset{}], home := y.home[conn := r], since := y.since[conn := |y.log|])
    ensures Inv(z)
  {
    hide Pending, QueueInv;
    assert forall c, f: nat :: Seen(z.got, c, f) == Seen(y.got, c, f);
    hide Seen;
    forall s, f, c | 0 <= s < |z.replicas| && 0 <= f < |z.log| && c in z.replicas[s].peers && c in z.since
      ensures Due(z, s, f, c)
    {
      if c != conn { assert Due(y, s, f, c); } else { NewcomerDue(y, s, f, conn); }
    }
  }

  lemma NewcomerDue(y: Bus, s: nat, f: nat, conn: Conn)
    requires Housed(y) && QueuesInv(y) && conn !in y.got && s < |y.replicas| && f < |y.log|
    ensures Seen(y.got, conn, f) == 0 && Pending(y.replicas[s].queue, f) <= 1
  {
    assert QueueInv(y.log, y.replicas[s].queue);
  }

  lemma JoinedInv(y: Bus, r: nat, conn: Conn, id: string)
    requires Inv(y) && r < |y.replicas| && conn !in y.got
    ensures Inv(Join(y, r, conn, id))
  {
    hide Inv;
    var z := y.(replicas := y.replicas[r := y.replicas[r].(peers := y.replicas[r].peers[conn := id])],
                got := y.got[conn := multiset{}], home := y.home[conn := r], since := y.since[conn := |y.log|]);
    NewcomerInv(y, r, conn, id, z);
    PublishOtherInv(z, r, Nudge);
  }

  lemma AcceptedQueue(log: seq<Accepted>, queue: seq<Message>, a: Accepted)
    requires QueueInv(log, queue)
    ensures QueueInv(log + [a], queue) && QueueInv(log + [a], queue + [Message(a.origin, RoomWide(|log|))])
    ensures forall f: nat :: Pending(queue + [Message(a.origin, RoomWide(|log|))], f) == Pending(queue, f) + if f == |log| then 1 else 0
    ensures Pending(queue, |log|) == 0
  {
    var m := Message(a.origin, RoomWide(|log|));
    assert forall i :: 0 <= i < |queue| && queue[i].body.RoomWide? ==> TrueOrigin(log, queue[i]);
    forall f: nat
      ensures Pending(queue + [m], f) == Pending(queue, f) + if f == |log| then 1 else 0
    {
      PendingAppend(queue, m, f);
    }
  }

  /** After an accepted frame: who has it, and in which queues it is. */
  lemma AcceptShape(y: Bus, r: nat, conn: Conn, failed: set<Conn>, z: Bus)
    requires Inv(y) && r < |y.replicas| && z == Accept(y, r, conn, failed)
    ensures |z.replicas| == |y.replicas| && z.log == y.log + [Accepted(r, conn, y.replicas[r].healthy)]
    ensures z.home == y.home && z.since == y.since && z.got.Keys == y.got.Keys
    ensures forall s :: 0 <= s < |z.replicas| ==>
              && z.replicas[s].peers.Keys <= y.replicas[s].peers.Keys
              && z.replicas[s].up == y.replicas[s].up && z.replicas[s].subscribed == y.replicas[s].subscribed
              && z.replicas[s].queue == if y.replicas[r].healthy && y.replicas[s].subscribed
                                        then y.replicas[s].queue + [Message(r, RoomWide(|y.log|))] else y.replicas[s].queue
    ensures forall c, f: nat :: Seen(z.got, c, f)
              == Seen(y.got, c, f) + if c in y.got && c in y.replicas[r].peers && c != conn && c !in failed && f == |y.log| then 1 else 0
    ensures forall c :: c in z.replicas[r].peers ==> c == conn || c !in failed
  {
    forall c, f: nat
      ensures Seen(z.got, c, f)
           == Seen(y.got, c, f) + if c in y.got && c in y.replicas[r].peers && c != conn && c !in failed && f == |y.log| then 1 else 0
    {
      DeliveredSeen(y.got, y.replicas[r].peers.Keys - {conn} - failed, |y.log|, c, f);
    }
    hide Delivered, Seen, Inv;
  }

  lemma AcceptDue(y: Bus, r: nat, conn: Conn, failed: set<Conn>, z: Bus, s: nat, f: nat, c: Conn)
    requires Inv(y) && r < |y.replicas| && z == Accept(y, r, conn, failed) && conn in y.home && y.home[conn] == r
    requires s < |z.replicas| && f < |z.log| && c in z.replicas[s].peers && c in z.since
    ensures Due(z, s, f, c)
  {
    hide Accept, Pending, Seen, QueueInv;
    AcceptShape(y, r, conn, failed, z);
    assert At(y, s, c) && QueueInv(y.log, y.replicas[s].queue);
    AcceptedQueue(y.log, y.replicas[s].queue, Accepted(r, conn, y.replicas[r].healthy));
    assert Seen(y.got, c, |y.log|) == 0;
    if f < |y.log| { assert Due(y, s, f, c); }
  }

  lemma AcceptInv(y: Bus, r: nat, conn: Conn, failed: set<Conn>)
    requires Inv(y) && r < |y.replicas| && conn in y.home && y.home[conn] == r
    ensures Inv(Accept(y, r, conn, failed))
  {
    hide Due, QueueInv, Seen, Pending, Accept;
    var z := Accept(y, r, conn, failed);
    AcceptShape(y, r, conn, failed, z);
    forall s, f, c | 0 <= s < |z.replicas| && 0 <= f < |z.log| && c in z.replicas[s].peers && c in z.since
      ensures Due(z, s, f, c)
    {
      AcceptDue(y, r, conn, failed, z, s, f, c);
    }
    forall s | 0 <= s < |z.replicas|
      ensures z.replicas[s].up <= |z.log| && QueueInv(z.log, z.replicas[s].queue)
    {
      AcceptedQueue(y.log, y.replicas[s].queue, Accepted(r, conn, y.replicas[r].healthy));
      assert QueueInv(y.log, y.replicas[s].queue);
    }
    forall c, f: nat
      ensures Seen(z.got, c, f) <= 1 && (Seen(z.got, c, f) > 0 ==> f < |z.log| && z.log[f].sender != c)
    {
      assert Seen(y.got, c, f) <= 1;
    }
  }

  lemma QueueRest(log: seq<Accepted>, queue: seq<Message>)
    requires QueueInv(log, queue) && queue != []
    ensures QueueInv(log, queue[1..])
    ensures forall f: nat :: Pending(queue, f) == Pending(queue[1..], f) + if queue[0].body == RoomWide(f) then 1 else 0
    ensures queue[0].body.RoomWide? ==> TrueOrigin(log, queue[0]) && Pending(queue[1..], queue[0].body.frame) == 0
  {
    forall i | 0 <= i < |queue[1..]| && queue[1..][i].body.RoomWide?
      ensures TrueOrigin(log, queue[1..][i])
    {
      assert queue[1..][i] == queue[i + 1];
    }
    forall f: nat
      ensures Pending(queue, f) == Pending(queue[1..], f) + if queue[0].body == RoomWide(f) then 1 else 0
      ensures Pending(queue[1..], f) <= if f < |log| then 1 else 0
    {
      assert Pending(queue, f) <= if f < |log| then 1 else 0;
    }
    assert queue[0].body.RoomWide? ==> Pending(queue, queue[0].body.frame) <= 1;
  }

  /** Whatever is not a remote room-wide frame can be taken off the queue. */
  lemma AdvancedInv(y: Bus, r: nat)
    requires Inv(y) && r < |y.replicas| && |y.replicas[r].queue| > 0
    requires y.replicas[r].queue[0].body.RoomWide? ==> y.replicas[r].queue[0].origin == r
    ensures Inv(Advanced(y, r))
  {
    assert QueueInv(y.log, y.replicas[r].queue);
    QueueRest(y.log, y.replicas[r].queue);
    hide Pending, QueueInv, Seen;
    var z := Advanced(y, r);
    forall s, f, c | 0 <= s < |z.replicas| && 0 <= f < |z.log| && c in z.replicas[s].peers && c in z.since
      ensures Due(z, s, f, c)
    {
      assert Due(y, s, f, c);
    }
  }

  lemma RemoteShape(y: Bus, r: nat, frame: nat, failed: set<Conn>, z: Bus)
    requires r < |y.replicas| && |y.replicas[r].queue| > 0 && z == Fan(Advanced(y, r), r, frame, {}, failed)
    ensures |z.replicas| == |y.replicas| && z.log == y.log && z.home == y.home && z.since == y.since && z.got.Keys == y.got.Keys
    ensures forall s :: 0 <= s < |z.replicas| && s != r ==> z.replicas[s] == y.replicas[s]
    ensures z.replicas[r].peers.Keys <= y.replicas[r].peers.Keys && z.replicas[r].queue == y.replicas[r].queue[1..]
    ensures z.replicas[r].up == y.replicas[r].up && z.replicas[r].subscribed == y.replicas[r].subscribed
    ensures forall c, f: nat :: Seen(z.got, c, f)
              == Seen(y.got, c, f) + if c in y.got && c in y.replicas[r].peers && c !in failed && f == frame then 1 else 0
    ensures forall c :: c in z.replicas[r].peers ==> c !in failed
  {
    forall c, f: nat
      ensures Seen(z.got, c, f)
           == Seen(y.got, c, f) + if c in y.got && c in y.replicas[r].peers && c !in failed && f == frame then 1 else 0
    {
      DeliveredSeen(y.got, y.replicas[r].peers.Keys - {} - failed, frame, c, f);
    }
    hide Delivered, Seen;
  }

  /** Nobody here has the frame at the head of the queue, nor sent it. */
  lemma RemoteNew(y: Bus, r: nat, c: Conn)
    requires Inv(y) && r < |y.replicas| && |y.replicas[r].queue| > 0 && c in y.replicas[r].peers
    requires y.replicas[r].queue[0].body.RoomWide? && y.replicas[r].queue[0].origin != r
    ensures var frame := y.replicas[r].queue[0].body.frame;
            frame < |y.log| && y.log[frame].origin != r && Seen(y.got, c, frame) == 0 && c != y.log[frame].sender
  {
    assert QueueInv(y.log, y.replicas[r].queue);
    QueueRest(y.log, y.replicas[r].queue);
    hide Pending, QueueInv, Seen;
    assert At(y, r, c);
    assert Due(y, r, y.replicas[r].queue[0].body.frame, c);
  }

  lemma RemoteDueHere(y: Bus, r: nat, frame: nat, failed: set<Conn>, z: Bus, f: nat, c: Conn)
    requires Inv(y) && r < |y.replicas| && |y.replicas[r].queue| > 0 && z == Fan(Advanced(y, r), r, frame, {}, failed)
    requires y.replicas[r].queue[0].body == RoomWide(frame) && y.replicas[r].queue[0].origin != r
    requires r < |z.replicas| && f < |z.log| && c in z.replicas[r].peers && c in z.since
    ensures Due(z, r, f, c)
  {
    hide Pending, QueueInv, Seen, Fan, Advanced, OnceInv;
    PendingAtHead(y, r);
    RemoteShape(y, r, frame, failed, z);
    assert Due(y, r, f, c) && At(y, r, c);
  }

  lemma PendingAtHead(y: Bus, r: nat)
    requires QueuesInv(y) && r < |y.replicas| && |y.replicas[r].queue| > 0
    ensures forall f: nat :: Pending(y.replicas[r].queue, f)
              == Pending(y.replicas[r].queue[1..], f) + if y.replicas[r].queue[0].body == RoomWide(f) then 1 else 0
    ensures y.replicas[r].queue[0].body.RoomWide? ==> TrueOrigin(y.log, y.replicas[r].queue[0])
  {
    assert QueueInv(y.log, y.replicas[r].queue);
    QueueRest(y.log, y.replicas[r].queue);
  }

  lemma RemoteDueElsewhere(y: Bus, r: nat, frame: nat, failed: set<Conn>, z: Bus, s: nat, f: nat, c: Conn)
    requires Inv(y) && r < |y.replicas| && |y.replicas[r].queue| > 0 && z == Fan(Advanced(y, r), r, frame, {}, failed)
    requires s != r && s < |z.replicas| && f < |z.log| && c in z.replicas[s].peers && c in z.since
    ensures Due(z, s, f, c)
  {
    hide Pending, QueueInv, Seen, Fan, Advanced, OnceInv;
    RemoteShape(y, r, frame, failed, z);
    assert Due(y, s, f, c) && At(y, s, c);
    NotAtBoth(y, r, s, c);
  }

  lemma NotAtBoth(y: Bus, r: nat, s: nat, c: Conn)
    requires Housed(y) && r < |y.replicas| && s < |y.replicas| && r != s && c in y.replicas[s].peers
    ensures c !in y.replicas[r].peers
  {
    assert At(y, s, c);
    assert c in y.replicas[r].peers ==> At(y, r, c);
  }

  /** A remote room-wide frame: off the queue, and to every peer here. */
  lemma RemoteFrameInv(y: Bus, r: nat, failed: set<Conn>)
    requires Inv(y) && r < |y.replicas| && |y.replicas[r].queue| > 0
    requires y.replicas[r].queue[0].body.RoomWide? && y.replicas[r].queue[0].origin != r
    ensures Inv(Fan(Advanced(y, r), r, y.replicas[r].queue[0].body.frame, {}, failed))
  {
    hide Pending, QueueInv, Seen, Fan, Advanced, Due;
    var frame := y.replicas[r].queue[0].body.frame;
    var z := Fan(Advanced(y, r), r, frame, {}, failed);
    RestFine(y, r);
    RemoteShape(y, r, frame, failed, z);
    forall c | c in y.replicas[r].peers
      ensures Seen(y.got, c, frame) == 0 && c != y.log[frame].sender
    {
      RemoteNew(y, r, c);
    }
    forall s, f, c | 0 <= s < |z.replicas| && 0 <= f < |z.log| && c in z.replicas[s].peers && c in z.since
      ensures Due(z, s, f, c)
    {
      if s == r { RemoteDueHere(y, r, frame, failed, z, f, c); } else { RemoteDueElsewhere(y, r, frame, failed, z, s, f, c); }
    }
    RemoteOnce(y, r, frame, failed, z);
  }

  lemma RestFine(y: Bus, r: nat)
    requires QueuesInv(y) && r < |y.replicas| && |y.replicas[r].queue| > 0 && y.replicas[r].queue[0].body.RoomWide?
    ensures QueueInv(y.log, y.replicas[r].queue[1..]) && y.replicas[r].queue[0].body.frame < |y.log|
  {
    assert QueueInv(y.log, y.replicas[r].queue);
    QueueRest(y.log, y.replicas[r].queue);
  }

  lemma RemoteOnce(y: Bus, r: nat, frame: nat, failed: set<Conn>, z: Bus)
    requires OnceInv(y) && r < |y.replicas| && frame < |y.log| && z.log == y.log
    requires forall c :: c in y.replicas[r].peers ==> Seen(y.got, c, frame) == 0 && c != y.log[frame].sender
    requires forall c, f: nat :: Seen(z.got, c, f)
               == Seen(y.got, c, f) + if c in y.got && c in y.replicas[r].peers && c !in failed && f == frame then 1 else 0
    ensures OnceInv(z)
  {
    hide Seen;
  }

  lemma PumpInv(y: Bus, r: nat, failed: set<Conn>)
    requires Inv(y) && r < |y.replicas| && |y.replicas[r].queue| > 0
    ensures Inv(Pump(y, r, failed))
  {
    hide Inv, Fan, SendTo, Advanced;
    var m := y.replicas[r].queue[0];
    if m.origin == r {
      AdvancedInv(y, r);
    } else {
      match m.body {
        case RoomWide(frame) => RemoteFrameInv(y, r, failed);
        case Targeted(to) => AdvancedInv(y, r); SendToInv(Advanced(y, r), r, to, failed);
        case Nudge => AdvancedInv(y, r); FewerPeers(Advanced(y, r), Drop(Advanced(y, r), r, failed));
      }
    }
  }

  /** A subscription ended, or began with nothing in its queue. */
  lemma EmptiedInv(y: Bus, r: nat, after: Replica)
    requires Inv(y) && r < |y.replicas|
    requires after.peers == y.replicas[r].peers && after.queue == []
    requires after.up <= |y.log| && (after.subscribed ==> after.up == |y.log|)
    ensures Inv(y.(replicas := y.replicas[r := after]))
  {
    var z := y.(replicas := y.replicas[r := after]);
    assert forall f: nat :: Pending([], f) == 0;
    assert QueueInv(y.log, []);
    hide Pending, QueueInv, Seen;
    forall s, f, c | 0 <= s < |z.replicas| && 0 <= f < |z.log| && c in z.replicas[s].peers && c in z.since
      ensures Due(z, s, f, c)
    {
      assert Due(y, s, f, c);
    }
  }

  lemma NextInv(y: Bus, e: Event)
    requires Inv(y) && Possible(y, e)
    ensures Inv(Next(y, e))
  {
    hide Housed, OnceInv, DueInv, QueueInv, Accept, Pump, SendTo, Join;
    match e {
      case Joins(r, conn, id) => JoinedInv(y, r, conn, id);
      case Leaves(r, conn, _) =>
        FewerPeers(y, Drop(y, r, {conn}));
        PublishOtherInv(Drop(y, r, {conn}), r, Nudge);
      case Sends(r, conn, failed) => AcceptInv(y, r, conn, failed);
      case Targets(r, to, _, failed) => SendToInv(y, r, to, failed); PublishOtherInv(y, r, Targeted(to));
      case Pumps(r, failed) => PumpInv(y, r, failed);
      case Degrades(r) => FewerPeers(y, Next(y, e));
      case LosesPump(r) => EmptiedInv(y, r, Next(y, e).replicas[r]);
      case Subscribes(r) => EmptiedInv(y, r, Next(y, e).replicas[r]);
    }
  }

  // ------------------------------------------------------------------
  // Every run.
  // ------------------------------------------------------------------

  predicate Feasible(y: Bus, run: seq<Event>)
    decreases |run|
  {
    run == [] || (Possible(y, run[0]) && Feasible(Next(y, run[0]), run[1..]))
  }

  function After(y: Bus, run: seq<Event>): Bus
    requires Feasible(y, run)
    decreases |run|
  {
    if run == [] then y else After(Next(y, run[0]), run[1..])
  }

  lemma {:induction false} RunInv(y: Bus, run: seq<Event>)
    requires Inv(y) && Feasible(y, run)
    ensures Inv(After(y, run))
    decreases |run|
  {
    hide Inv, Next, Possible;
    if run != [] {
      NextInv(y, run[0]);
      RunInv(Next(y, run[0]), run[1..]);
    }
  }

  lemma QuietInv(n: nat)
    ensures Inv(Quiet(n))
  {
  }

  /** Nobody ever gets a frame twice, and no sender gets its own. */
  lemma AtMostOnce(n: nat, run: seq<Event>, c: Conn, f: nat)
    requires Feasible(Quiet(n), run) && c in After(Quiet(n), run).got
    ensures var y := After(Quiet(n), run);
            && y.got[c][f] <= 1
            && (f < |y.log| && y.log[f].sender == c ==> y.got[c][f] == 0)
  {
    hide After, Feasible, Housed, DueInv, QueuesInv;
    QuietInv(n);
    RunInv(Quiet(n), run);
    assert Seen(After(Quiet(n), run).got, c, f) <= 1;
  }

  /**
   A peer that was in the room when a frame was accepted and still is, on the replica
   that accepted it or on one subscribed since before, has it exactly once when that
   replica has nothing left to pump.
   */
  lemma ExactlyOnce(n: nat, run: seq<Event>, r: nat, c: Conn, f: nat)
    requires Feasible(Quiet(n), run)
    requires var y := After(Quiet(n), run);
             && r < |y.replicas| && f < |y.log| && c in y.replicas[r].peers && c in y.since && y.since[c] <= f
             && c != y.log[f].sender && y.replicas[r].queue == []
             && (r == y.log[f].origin || (y.replicas[r].subscribed && y.replicas[r].up <= f && y.log[f].published))
    ensures c in After(Quiet(n), run).got && After(Quiet(n), run).got[c][f] == 1
  {
    hide After, Feasible, OnceInv, QueueInv;
    QuietInv(n);
    RunInv(Quiet(n), run);
    assert At(After(Quiet(n), run), r, c);
    assert Due(After(Quiet(n), run), r, f, c);
  }

  // ------------------------------------------------------------------
  // Who stays, and what is accepted.
  // ------------------------------------------------------------------

  /** It does not leave, and no write on its replica fails for it. */
  predicate Spares(e: Event, r: nat, c: Conn) {
    e.r == r ==>
      match e
      case Leaves(_, conn, _) => conn != c
      case Sends(_, _, failed) => c !in failed
      case Targets(_, _, _, failed) => c !in failed
      case Pumps(_, failed) => c !in failed
      case _ => true
  }

  predicate AllSpare(run: seq<Event>, r: nat, c: Conn) {
    forall k :: 0 <= k < |run| ==> Spares(run[k], r, c)
  }

  /** Here, and this much of the log is from before it came. */
  ghost predicate Stays(y: Bus, r: nat, c: Conn, since: nat) {
    r < |y.replicas| && c in y.replicas[r].peers && c in y.got && c in y.since && y.since[c] == since
  }

  lemma HandleKeeps(y: Bus, r: nat, m: Message, failed: set<Conn>, s: nat, c: Conn, since: nat)
    requires Stays(y, s, c, since) && r < |y.replicas| && (r == s ==> c !in failed)
    ensures Stays(Handle(y, r, m, failed), s, c, since)
  {
  }

  lemma AcceptKeeps(y: Bus, r: nat, conn: Conn, failed: set<Conn>, s: nat, c: Conn, since: nat)
    requires Stays(y, s, c, since) && r < |y.replicas| && (r == s ==> c !in failed)
    ensures Stays(Accept(y, r, conn, failed), s, c, since)
  {
    hide Publish;
  }

  lemma SendToKeeps(y: Bus, r: nat, to: string, failed: set<Conn>, s: nat, c: Conn, since: nat)
    requires Stays(y, s, c, since) && r < |y.replicas| && (r == s ==> c !in failed)
    ensures Stays(SendTo(y, r, to, failed), s, c, since)
  {
    hide Publish;
  }

  lemma StepKeeps(y: Bus, e: Event, r: nat, c: Conn, since: nat)
    requires Stays(y, r, c, since) && Possible(y, e) && Spares(e, r, c)
    ensures Stays(Next(y, e), r, c, since)
  {
    hide Handle, Publish, Accept, SendTo;
    match e {
      case Sends(_, conn, failed) => AcceptKeeps(y, e.r, conn, failed, r, c, since);
      case Targets(_, to, _, failed) => SendToKeeps(y, e.r, to, failed, r, c, since);
      case Pumps(_, failed) =>
        if y.replicas[e.r].queue[0].origin != e.r {
          HandleKeeps(Advanced(y, e.r), e.r, y.replicas[e.r].queue[0], failed, r, c, since);
        }
      case _ =>
    }
  }

  lemma {:induction false} RunKeeps(y: Bus, run: seq<Event>, r: nat, c: Conn, since: nat)
    requires Stays(y, r, c, since) && Feasible(y, run) && AllSpare(run, r, c)
    ensures Stays(After(y, run), r, c, since)
    decreases |run|
  {
    hide Stays, Next, Possible, Spares;
    if run != [] {
      StepKeeps(y, run[0], r, c, since);
      RunKeeps(Next(y, run[0]), run[1..], r, c, since);
    }
  }

  /** The frames of a run, each with the replica and the connection it came in on. */
  function SentIn(run: seq<Event>): seq<(nat, Conn)>
    decreases |run|
  {
    if run == [] then [] else (if run[0].Sends? then [(run[0].r, run[0].conn)] else []) + SentIn(run[1..])
  }

  function Sources(log: seq<Accepted>): seq<(nat, Conn)> {
    seq(|log|, i requires 0 <= i < |log| => (log[i].origin, log[i].sender))
  }

  lemma StepAccepts(y: Bus, e: Event)
    requires Possible(y, e)
    ensures Sources(Next(y, e).log) == Sources(y.log) + SentIn([e])
  {
    hide Publish, Delivered;
    assert SentIn([e][1..]) == [];
  }

  /** Every frame is accepted, once, in the order of arrival. */
  lemma {:induction false} LogIsWhatWasSent(y: Bus, run: seq<Event>)
    requires Feasible(y, run)
    ensures Sources(After(y, run).log) == Sources(y.log) + SentIn(run)
    decreases |run|
  {
    hide Next, Possible, Sources;
    if run != [] {
      StepAccepts(y, run[0]);
      LogIsWhatWasSent(Next(y, run[0]), run[1..]);
    }
  }

  /** A frame from a replica with a bus is handed to it at once, and one from any other is not. */
  lemma AcceptedIsPublished(y: Bus, e: Event)
    requires Possible(y, e) && e.Sends?
    ensures var z := Next(y, e);
            && z.log == y.log + [Accepted(e.r, e.conn, y.replicas[e.r].healthy)]
            && forall s :: 0 <= s < |y.replicas| ==>
                 z.replicas[s].queue == y.replicas[s].queue
                   + if y.replicas[e.r].healthy && y.replicas[s].subscribed then [Message(e.r, RoomWide(|y.log|))] else []
  {
  }

  /** A message reaches every subscription that lives, once. */
  predicate Told(y: Bus, z: Bus, m: Message) {
    && |z.replicas| == |y.replicas|
    && forall s :: 0 <= s < |y.replicas| && y.replicas[s].subscribed ==> z.replicas[s].queue == y.replicas[s].queue + [m]
  }

  predicate Untold(y: Bus, z: Bus) {
    && |z.replicas| == |y.replicas|
    && forall s :: 0 <= s < |y.replicas| ==> z.replicas[s].queue == y.replicas[s].queue
  }

  /**
   Every replica is told when somebody comes, goes, or could not be given a frame meant
   for it alone; and a frame for somebody who is not here goes to wherever it may be.
   */
  lemma RostersAreTold(y: Bus, e: Event)
    requires Possible(y, e) && y.replicas[e.r].healthy
    ensures e.Joins? || (e.Leaves? && e.announced) ==> Told(y, Next(y, e), Message(e.r, Nudge))
    ensures e.Targets? && Find(y.replicas[e.r].peers, e.to) * e.failed != {} ==> Told(y, Next(y, e), Message(e.r, Nudge))
    ensures e.Targets? && Find(y.replicas[e.r].peers, e.to) == {} && e.remote ==> Told(y, Next(y, e), Message(e.r, Targeted(e.to)))
    ensures e.Targets? && Find(y.replicas[e.r].peers, e.to) == {} && !e.remote ==> Next(y, e) == y
    ensures e.Leaves? && !e.announced ==> Untold(y, Next(y, e))
  {
  }

  /** A replica that has lost the bus publishes nothing, whatever it is asked to. */
  lemma DegradedIsQuiet(y: Bus, r: nat, e: Event)
    requires r < |y.replicas| && e.r == r && Possible(Next(y, Degrades(r)), e) && !e.Pumps? && !e.LosesPump? && !e.Subscribes?
    ensures Untold(y, Next(Next(y, Degrades(r)), e))
  {
  }

  /**
   Whoever joined is still there, whatever befell the others, unless it left or could not
   be written to; and when its replica has nothing left to pump it has every frame that was
   sent since by anyone else, once, that came in there or was published to a subscription
   that had begun.
   */
  lemma JoinedGetsItOnce(n: nat, before: seq<Event>, r: nat, c: Conn, id: string, after: seq<Event>, f: nat)
    requires Feasible(Quiet(n), before) && Possible(After(Quiet(n), before), Joins(r, c, id))
    requires Feasible(Next(After(Quiet(n), before), Joins(r, c, id)), after) && AllSpare(after, r, c)
    requires |SentIn(before)| <= f < |SentIn(before)| + |SentIn(after)| && SentIn(after)[f - |SentIn(before)|].1 != c
    requires var z := After(Next(After(Quiet(n), before), Joins(r, c, id)), after);
             && r < |z.replicas| && z.replicas[r].queue == [] && f < |z.log|
             && (r == z.log[f].origin || (z.replicas[r].subscribed && z.replicas[r].up <= f && z.log[f].published))
    ensures var z := After(Next(After(Quiet(n), before), Joins(r, c, id)), after);
            c in z.replicas[r].peers && c in z.got && z.got[c][f] == 1
  {
    hide After, Feasible, AllSpare, Inv, Next, Possible, SentIn, Sources;
    var y, e := After(Quiet(n), before), Joins(r, c, id);
    var z := After(Next(y, e), after);
    QuietInv(n);
    RunInv(Quiet(n), before);
    NextInv(y, e);
    RunInv(Next(y, e), after);
    JoinStays(y, r, c, id);
    RunKeeps(Next(y, e), after, r, c, |y.log|);
    LogIsWhatWasSent(Quiet(n), before);
    LogIsWhatWasSent(Next(y, e), after);
    SourcesMean(Quiet(n).log);
    SourcesMean(y.log);
    SourcesMean(z.log);
    assert Sources(z.log)[f] == SentIn(after)[f - |SentIn(before)|];
    OnceHere(z, r, c, f);
  }

  lemma SourcesMean(log: seq<Accepted>)
    ensures |Sources(log)| == |log| && forall i :: 0 <= i < |log| ==> Sources(log)[i].1 == log[i].sender
  {
  }

  lemma JoinStays(y: Bus, r: nat, c: Conn, id: string)
    requires Possible(y, Joins(r, c, id))
    ensures Stays(Next(y, Joins(r, c, id)), r, c, |y.log|) && Next(y, Joins(r, c, id)).log == y.log
  {
  }

  lemma OnceHere(y: Bus, r: nat, c: Conn, f: nat)
    requires Inv(y) && c in y.since && Stays(y, r, c, y.since[c]) && f < |y.log| && y.since[c] <= f && c != y.log[f].sender && y.replicas[r].queue == []
    requires r == y.log[f].origin || (y.replicas[r].subscribed && y.replicas[r].up <= f && y.log[f].published)
    ensures y.got[c][f] == 1
  {
    hide OnceInv, QueueInv;
    assert At(y, r, c);
    assert Due(y, r, f, c);
  }

  // ------------------------------------------------------------------
  // Nothing goes round for ever.
  // ------------------------------------------------------------------

  function Peers(replicas: seq<Replica>): nat {
    if replicas == [] then 0 else |replicas[0].peers| + Peers(replicas[1..])
  }

  function Queued(replicas: seq<Replica>): nat {
    if replicas == [] then 0 else |replicas[0].queue| + Queued(replicas[1..])
  }

  /** Left to themselves, the pumps can take at most this many messages. */
  function Work(y: Bus): nat {
    Peers(y.replicas) * (|y.replicas| + 1) + Queued(y.replicas)
  }

  lemma {:induction false} OneChanged(replicas: seq<Replica>, r: nat, after: Replica)
    requires r < |replicas|
    ensures Peers(replicas[r := after]) == Peers(replicas) - |replicas[r].peers| + |after.peers|
    ensures Queued(replicas[r := after]) == Queued(replicas) - |replicas[r].queue| + |after.queue|
  {
    if r == 0 {
      assert replicas[r := after][1..] == replicas[1..];
    } else {
      assert replicas[r := after][1..] == replicas[1..][r - 1 := after];
      OneChanged(replicas[1..], r - 1, after);
    }
  }

  lemma {:induction false} AtMostOneMore(before: seq<Replica>, after: seq<Replica>)
    requires |after| == |before|
    requires forall r :: 0 <= r < |before| ==> after[r].peers == before[r].peers && |after[r].queue| <= |before[r].queue| + 1
    ensures Peers(after) == Peers(before) && Queued(after) <= Queued(before) + |before|
  {
    if before != [] { AtMostOneMore(before[1..], after[1..]); }
  }

  lemma FewerOf(peers: map<Conn, string>, gone: set<Conn>)
    ensures |peers - gone| <= |peers|
    ensures gone != {} && gone <= peers.Keys ==> |peers - gone| < |peers|
  {
    assert (peers - gone).Keys == peers.Keys - gone;
    assert peers.Keys == (peers.Keys - gone) + (peers.Keys * gone);
    if gone != {} && gone <= peers.Keys {
      assert peers.Keys * gone == gone;
    }
  }

  lemma DropWork(y: Bus, r: nat, gone: set<Conn>)
    requires r < |y.replicas|
    ensures Peers(Drop(y, r, gone).replicas) <= Peers(y.replicas) && Queued(Drop(y, r, gone).replicas) == Queued(y.replicas)
    ensures gone != {} && gone <= y.replicas[r].peers.Keys ==> Peers(Drop(y, r, gone).replicas) < Peers(y.replicas)
  {
    FewerOf(y.replicas[r].peers, gone);
    OneChanged(y.replicas, r, y.replicas[r].(peers := y.replicas[r].peers - gone));
  }

  /** A pump publishes only when it drops a peer; otherwise there is one message less. */
  lemma PumpWork(y: Bus, r: nat, failed: set<Conn>)
    requires r < |y.replicas| && |y.replicas[r].queue| > 0
    ensures |Pump(y, r, failed).replicas| == |y.replicas|
    ensures var z := Pump(y, r, failed);
            && Peers(z.replicas) <= Peers(y.replicas)
            && (Queued(z.replicas) == Queued(y.replicas) - 1
                || (Peers(z.replicas) < Peers(y.replicas) && Queued(z.replicas) < Queued(y.replicas) + |y.replicas|))
  {
    hide Peers, Queued, Delivered;
    var m := y.replicas[r].queue[0];
    var y1 := Advanced(y, r);
    OneChanged(y.replicas, r, y.replicas[r].(queue := y.replicas[r].queue[1..]));
    if m.origin != r {
      match m.body {
        case RoomWide(frame) =>
          var gone := (y1.replicas[r].peers.Keys - {}) * failed;
          DropWork(y1, r, gone);
          assert Fan(y1, r, frame, {}, failed).replicas == Drop(y1, r, gone).replicas;
        case Targeted(to) =>
          var gone := Find(y1.replicas[r].peers, to) * failed;
          DropWork(y1, r, gone);
          AtMostOneMore(Drop(y1, r, gone).replicas, Publish(Drop(y1, r, gone).replicas, r, Nudge));
        case Nudge => DropWork(y1, r, failed);
      }
    }
  }

  lemma WorkFalls(y: Bus, r: nat, failed: set<Conn>)
    requires r < |y.replicas| && |y.replicas[r].queue| > 0
    ensures Work(Pump(y, r, failed)) < Work(y)
  {
    hide Peers, Queued, Pump;
    PumpWork(y, r, failed);
    Falls(Peers(y.replicas), Peers(Pump(y, r, failed).replicas), Queued(y.replicas), Queued(Pump(y, r, failed).replicas), |y.replicas|);
  }

  lemma Falls(p: nat, p1: nat, q: nat, q1: nat, n: nat)
    requires p1 <= p && (q1 == q - 1 || (p1 < p && q1 < q + n))
    ensures p1 * (n + 1) + q1 < p * (n + 1) + q
  {
    Scales(p1, p, n + 1);
  }

  lemma Scales(p1: nat, p: nat, k: nat)
    requires p1 <= p
    ensures p1 * k <= p * k && (p1 < p ==> p1 * k + k <= p * k)
  {
    assert p * k == p1 * k + (p - p1) * k;
    if p1 < p { assert (p - p1) * k == k + (p - p1 - 1) * k; }
  }

  predicate PumpsOnly(run: seq<Event>) {
    forall i :: 0 <= i < |run| ==> run[i].Pumps?
  }

  /** So a room nobody sends into falls silent, whichever writes fail. */
  lemma {:induction false} FallsSilent(y: Bus, run: seq<Event>)
    requires Feasible(y, run) && PumpsOnly(run)
    ensures |run| <= Work(y)
    decreases |run|
  {
    hide Work, Pump;
    if run != [] {
      assert run[0].Pumps?;
      WorkFalls(y, run[0].r, run[0].failed);
      FallsSilent(Next(y, run[0]), run[1..]);
    }
  }
}
