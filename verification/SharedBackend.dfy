/**
 One replica's end of the bus: the `Backend` of backend/shared.py for one room, with the
 pump loop that hands remote messages on. What it hands to the bus is what
 `ReplicaBus.Publish` puts into every queue, and what its loop hands on is what that many
 steps of `ReplicaBus.Pump` handle.
 */
module SharedBackends {

  import opened ReplicaBus

  /** The messages of other replicas, in order. */
  function Remote(instance: nat, inbox: seq<Message>): seq<Message> {
    if inbox == [] then []
    else (if inbox[0].origin == instance then [] else [inbox[0]]) + Remote(instance, inbox[1..])
  }

  lemma {:induction false} RemoteConcat(instance: nat, a: seq<Message>, b: seq<Message>)
    ensures Remote(instance, a + b) == Remote(instance, a) + Remote(instance, b)
  {
    if a == [] {
      assert a + b == b;
    } else {
      assert (a + b)[1..] == a[1..] + b;
      RemoteConcat(instance, a[1..], b);
    }
  }

  /** Nothing of our own comes back, and nothing of anybody else's is lost or repeated. */
  lemma {:induction false} RemoteMeans(instance: nat, inbox: seq<Message>, m: Message)
    ensures multiset(Remote(instance, inbox))[m] == if m.origin == instance then 0 else multiset(inbox)[m]
  {
    if inbox != [] {
      assert inbox == [inbox[0]] + inbox[1..];
      RemoteMeans(instance, inbox[1..], m);
    }
  }

  // ------------------------------------------------------------------
  // The loop and the steps of the bus.
  // ------------------------------------------------------------------

  function Pumped(y: Bus, r: nat, n: nat, failed: set<Conn>): Bus
    requires r < |y.replicas| && n <= |y.replicas[r].queue|
    decreases n
  {
    if n == 0 then y else Pumped(Pump(y, r, failed), r, n - 1, failed)
  }

  function HandledAll(y: Bus, r: nat, messages: seq<Message>, failed: set<Conn>): (after: Bus)
    requires r < |y.replicas|
    ensures |after.replicas| == |y.replicas| && y.replicas[r].queue <= after.replicas[r].queue
    decreases |messages|
  {
    if messages == [] then y else HandledAll(Handle(y, r, messages[0], failed), r, messages[1..], failed)
  }

  function WithoutFirst(y: Bus, r: nat, n: nat): Bus
    requires r < |y.replicas| && n <= |y.replicas[r].queue|
  {
    y.(replicas := y.replicas[r := y.replicas[r].(queue := y.replicas[r].queue[n..])])
  }

  lemma DropCommutes(y: Bus, r: nat, gone: set<Conn>)
    requires r < |y.replicas| && |y.replicas[r].queue| > 0
    ensures Drop(Advanced(y, r), r, gone) == Advanced(Drop(y, r, gone), r)
  {
    assert Drop(Advanced(y, r), r, gone).replicas == Advanced(Drop(y, r, gone), r).replicas;
  }

  lemma AnnounceCommutes(y: Bus, r: nat)
    requires r < |y.replicas| && |y.replicas[r].queue| > 0
    ensures Announce(Advanced(y, r), r) == Advanced(Announce(y, r), r)
  {
    var a, b := Announce(Advanced(y, r), r), Advanced(Announce(y, r), r);
    assert forall m :: (y.replicas[r].queue + [m])[1..] == y.replicas[r].queue[1..] + [m];
    forall s | 0 <= s < |y.replicas|
      ensures a.replicas[s] == b.replicas[s]
    {
    }
    assert a.replicas == b.replicas;
  }

  lemma FanCommutes(y: Bus, r: nat, frame: nat, failed: set<Conn>)
    requires r < |y.replicas| && |y.replicas[r].queue| > 0
    ensures Fan(Advanced(y, r), r, frame, {}, failed) == Advanced(Fan(y, r, frame, {}, failed), r)
  {
    hide Delivered;
    assert Fan(Advanced(y, r), r, frame, {}, failed).replicas == Advanced(Fan(y, r, frame, {}, failed), r).replicas;
  }

  /** What is done with a message does not depend on the one that waits at the head. */
  lemma HandleCommutes(y: Bus, r: nat, m: Message, failed: set<Conn>)
    requires r < |y.replicas| && |y.replicas[r].queue| > 0
    ensures Handle(Advanced(y, r), r, m, failed) == Advanced(Handle(y, r, m, failed), r)
  {
    hide Fan, Drop, Announce;
    SamePeers(y, r);
    match m.body {
      case RoomWide(frame) => FanCommutes(y, r, frame, failed);
      case Targeted(to) =>
        var gone := Find(y.replicas[r].peers, to) * failed;
        DropCommutes(y, r, gone);
        DropKeepsQueue(y, r, gone);
        AnnounceCommutes(Drop(y, r, gone), r);
      case Nudge => DropCommutes(y, r, failed);
    }
  }

  lemma SamePeers(y: Bus, r: nat)
    requires r < |y.replicas| && |y.replicas[r].queue| > 0
    ensures Advanced(y, r).replicas[r].peers == y.replicas[r].peers
  {
  }

  lemma DropKeepsQueue(y: Bus, r: nat, gone: set<Conn>)
    requires r < |y.replicas|
    ensures |Drop(y, r, gone).replicas| == |y.replicas| && Drop(y, r, gone).replicas[r].queue == y.replicas[r].queue
  {
  }

  lemma {:induction false} AllCommute(y: Bus, r: nat, messages: seq<Message>, failed: set<Conn>)
    requires r < |y.replicas| && |y.replicas[r].queue| > 0
    ensures HandledAll(Advanced(y, r), r, messages, failed) == Advanced(HandledAll(y, r, messages, failed), r)
    decreases |messages|
  {
    hide Handle, Advanced;
    if messages != [] {
      HandleCommutes(y, r, messages[0], failed);
      AllCommute(Handle(y, r, messages[0], failed), r, messages[1..], failed);
    }
  }

  lemma OneThenMore(y: Bus, r: nat, n: nat)
    requires r < |y.replicas| && 0 < n <= |y.replicas[r].queue|
    ensures n - 1 <= |Advanced(y, r).replicas[r].queue|
    ensures WithoutFirst(Advanced(y, r), r, n - 1) == WithoutFirst(y, r, n)
  {
    assert y.replicas[r].queue[1..][n - 1..] == y.replicas[r].queue[n..];
  }

  lemma RemoteHead(instance: nat, queue: seq<Message>, n: nat)
    requires 0 < n <= |queue|
    ensures Remote(instance, queue[..n]) == (if queue[0].origin == instance then [] else [queue[0]]) + Remote(instance, queue[1..][..n - 1])
  {
    assert queue[..n][1..] == queue[1..][..n - 1];
  }

  /** Pumping so many messages is handling those of other replicas, in order, and nothing else. */
  lemma {:induction false} PumpingHandsOnRemote(y: Bus, r: nat, n: nat, failed: set<Conn>)
    requires r < |y.replicas| && n <= |y.replicas[r].queue|
    ensures Pumped(y, r, n, failed) == WithoutFirst(HandledAll(y, r, Remote(r, y.replicas[r].queue[..n]), failed), r, n)
    decreases n
  {
    hide Handle, Remote;
    if n == 0 {
      RemoteOfNone(r);
      assert y.replicas[r].queue[..0] == [] && y.replicas[r].queue[0..] == y.replicas[r].queue;
      assert WithoutFirst(y, r, 0).replicas == y.replicas;
    } else {
      var queue := y.replicas[r].queue;
      var m, rest := queue[0], Remote(r, queue[1..][..n - 1]);
      RemoteHead(r, queue, n);
      var y0 := if m.origin == r then y else Handle(y, r, m, failed);
      if m.origin != r { HandleCommutes(y, r, m, failed); }
      assert Pump(y, r, failed) == Advanced(y0, r);
      PumpingHandsOnRemote(Advanced(y0, r), r, n - 1, failed);
      assert Advanced(y0, r).replicas[r].queue[..n - 1] == queue[1..][..n - 1];
      AllCommute(y0, r, rest, failed);
      OneThenMore(HandledAll(y0, r, rest, failed), r, n);
      if m.origin != r { assert ([m] + rest)[1..] == rest; } else { assert [] + rest == rest; }
    }
  }

  lemma RemoteOfNone(instance: nat)
    ensures Remote(instance, []) == []
  {
  }

  /** What is handed over is what every subscriber's queue gets. */
  lemma HandedIsPublished(replicas: seq<Replica>, origin: nat, body: Body, r: nat)
    requires origin < |replicas| && r < |replicas| && replicas[r].subscribed
    ensures Publish(replicas, origin, body)[r] == replicas[r].(queue := replicas[r].queue + Handed(replicas[origin].healthy, origin, body))
  {
    if !replicas[origin].healthy {
      assert replicas[r].queue + [] == replicas[r].queue;
    }
  }

  // ------------------------------------------------------------------
  // The backend itself.
  // ------------------------------------------------------------------

  class Backend {
    const instance: nat
    const enabled: bool
    var healthy: bool
    var subscribed: bool
    var inbox: seq<Message>
    var delivered: seq<Message>

    /** Health is about a bus there is. */
    ghost predicate Valid()
      reads this
    {
      healthy ==> enabled
    }

    constructor (instance: nat, enabled: bool)
      ensures Valid() && this.instance == instance && this.enabled == enabled
      ensures !healthy && !subscribed && inbox == [] && delivered == []
    {
      this.instance, this.enabled := instance, enabled;
      healthy, subscribed, inbox, delivered := false, false, [], [];
    }

    method Publish(body: Body) returns (handed: seq<Message>)
      requires Valid()
      ensures handed == Handed(healthy, instance, body)
    {
      if !enabled || !healthy {
        return [];
      }
      handed := [Message(instance, body)];
    }

    /** One pump for a room, however often it is asked for. */
    method Subscribe()
      modifies this`subscribed, this`inbox
      ensures subscribed == (old(subscribed) || enabled)
      ensures inbox == if enabled && !old(subscribed) then [] else old(inbox)
    {
      if !enabled || subscribed {
        return;
      }
      subscribed := true;
      inbox := [];
    }

    /** Everything there is to pump, in order, without our own. */
    method Pump()
      requires subscribed
      modifies this`inbox, this`delivered
      ensures inbox == [] && delivered == old(delivered) + Remote(instance, old(inbox))
    {
      ghost var taken: seq<Message> := [];
      while inbox != []
        invariant taken + inbox == old(inbox)
        invariant delivered == old(delivered) + Remote(instance, taken)
        decreases |inbox|
      {
        var m := inbox[0];
        inbox := inbox[1..];
        RemoteConcat(instance, taken, [m]);
        taken := taken + [m];
        if m.origin == instance {
          continue;
        }
        delivered := delivered + [m];
      }
      assert taken == old(inbox);
    }
  }
}
