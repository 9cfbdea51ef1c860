/**
 The relay's clip log: `_handle_raw` on a clip, `_broadcast`, the welcome of `_join`
 and `SseConnection` of backend/main.py, for one room on one replica.

 A fan-out is not atomic. It takes its targets when it starts, each write succeeds or
 fails in its own time, and the peers whose write failed are dropped only when the
 last write of that fan-out has ended. In between, other clips come and go.
 */
module ClipLog {

  import opened Options

  type Conn = nat

  datatype Envelope = Envelope(number: nat, body: string)

  /** Only welcomes and clips carry clips; everything else the room says is Other. */
  datatype Frame = Welcome(last: Option<Envelope>) | Clip(envelope: Envelope) | Other

  /** A write that has been asked for: by a fan-out, or by a handler on its own. */
  datatype Write = Write(frame: Frame, fanout: Option<nat>)

  datatype Kind = WebSocket | Sse

  /**
   One connection. `waiting` is the line for its socket lock, `queue` the SSE
   queue, `got` what reached the client. `start`, `lost` and `welcomeFailed` are
   history: the log position at the join, and what failed since.
   */
  datatype Link = Link(kind: Kind, waiting: seq<Write>, queue: seq<Frame>, got: seq<Frame>,
                       start: nat, lost: nat, welcomeFailed: bool)

  datatype FanOut = FanOut(pending: set<Conn>, failed: set<Conn>)

  datatype Said = Said(sender: Conn, body: string)

  /** `log` is the history of every clip the room accepted. */
  datatype Room = Room(counter: nat, last: Option<Envelope>, peers: set<Conn>, links: map<Conn, Link>,
                       fanouts: map<nat, FanOut>, nextFanout: nat, retired: bool, log: seq<Said>)

  const EMPTY := Room(0, None, {}, map[], map[], 0, false, [])

  const SSE_QUEUE_MAX: nat := 256

  // ------------------------------------------------------------------
  // Steps.
  // ------------------------------------------------------------------

  function Asked(links: map<Conn, Link>, targets: set<Conn>, w: Write): map<Conn, Link> {
    map c | c in links :: if c in targets then links[c].(waiting := links[c].waiting + [w]) else links[c]
  }

  /** `_broadcast`, up to the point where it waits for its writes. */
  function Broadcast(y: Room, frame: Frame, exclude: set<Conn>): Room {
    var targets := y.peers - exclude;
    if targets == {} then y
    else
      y.(links := Asked(y.links, targets, Write(frame, Some(y.nextFanout))),
         fanouts := y.fanouts[y.nextFanout := FanOut(targets, {})],
         nextFanout := y.nextFanout + 1)
  }

  function Join(y: Room, conn: Conn, kind: Kind): Room {
    y.(peers := y.peers + {conn},
       links := y.links[conn := Link(kind, [Write(Welcome(y.last), None)], [], [], y.counter, 0, false)])
  }

  /** A clip: numbered, kept for replay, and fanned out to everybody else. */
  function Say(y: Room, conn: Conn, body: string): Room {
    var envelope := Envelope(y.counter + 1, body);
    Broadcast(y.(counter := y.counter + 1, last := Some(envelope), log := y.log + [Said(conn, body)]), Clip(envelope), {conn})
  }

  function Forward(y: Room, conn: Conn): Room {
    y.(links := Asked(y.links, {conn}, Write(Other, None)))
  }

  /** The fan-out learns how one of its writes ended. */
  function Ended(fanouts: map<nat, FanOut>, w: Write, conn: Conn, ok: bool): map<nat, FanOut> {
    if w.fanout.None? || w.fanout.value !in fanouts then fanouts
    else
      var f := fanouts[w.fanout.value];
      fanouts[w.fanout.value := FanOut(f.pending - {conn}, if ok then f.failed else f.failed + {conn})]
  }

  predicate CanWrite(link: Link) {
    |link.waiting| > 0 && (link.kind.Sse? ==> |link.queue| < SSE_QUEUE_MAX)
  }

  /** The first in line gets through: onto the socket, or into the queue. */
  function Written(y: Room, conn: Conn): Room
    requires conn in y.links && CanWrite(y.links[conn])
  {
    var link := y.links[conn];
    var w := link.waiting[0];
    var after := match link.kind
      case WebSocket => link.(waiting := link.waiting[1..], got := link.got + [w.frame])
      case Sse => link.(waiting := link.waiting[1..], queue := link.queue + [w.frame]);
    y.(links := y.links[conn := after], fanouts := Ended(y.fanouts, w, conn, true))
  }

  predicate CanCut(link: Link) {
    link.kind.WebSocket? && |link.waiting| > 0
  }

  /**
   The deadline cuts off the write that has the socket. It counts as failed, but the
   socket had taken the frame, and it arrives.
   */
  function CutOff(y: Room, conn: Conn): Room
    requires conn in y.links && CanCut(y.links[conn])
  {
    var link := y.links[conn];
    var w := link.waiting[0];
    y.(links := y.links[conn := link.(waiting := link.waiting[1..], got := link.got + [w.frame])],
       fanouts := Ended(y.fanouts, w, conn, false))
  }

  /** Any write waiting for a socket can time out; a queue refuses only when it is full. */
  predicate CanFail(link: Link, i: nat) {
    i < |link.waiting| && (link.kind.Sse? ==> i == 0 && |link.queue| >= SSE_QUEUE_MAX)
  }

  function Failed(y: Room, conn: Conn, i: nat): Room
    requires conn in y.links && CanFail(y.links[conn], i)
  {
    var link := y.links[conn];
    var w := link.waiting[i];
    y.(links := y.links[conn := link.(waiting := link.waiting[..i] + link.waiting[i + 1..],
                                      lost := link.lost + |Carried(w.frame)|,
                                      welcomeFailed := link.welcomeFailed || w.frame.Welcome?)],
       fanouts := Ended(y.fanouts, w, conn, false))
  }

  /** The event stream hands the client the oldest frame of its queue. */
  function Read(y: Room, conn: Conn): Room
    requires conn in y.links && |y.links[conn].queue| > 0
  {
    var link := y.links[conn];
    y.(links := y.links[conn := link.(queue := link.queue[1..], got := link.got + [link.queue[0]])])
  }

  /** All the writes of a fan-out have ended: whoever could not be written to goes. */
  function Settle(y: Room, f: nat): Room
    requires f in y.fanouts && y.fanouts[f].pending == {}
  {
    y.(peers := y.peers - y.fanouts[f].failed, fanouts := y.fanouts - {f})
  }

  datatype Event =
    | Joins(conn: Conn, kind: Kind)
    | Says(conn: Conn, body: string)
    | Announces(exclude: set<Conn>)
    | Forwards(conn: Conn)
    | Writes(conn: Conn)
    | Fails(conn: Conn, i: nat)
    | CutsOff(conn: Conn)
    | Reads(conn: Conn)
    | Settles(f: nat)
    | Leaves(conn: Conn)
    | Retires

  /** A peer that was dropped still has a handler, and can still say something. */
  predicate Possible(y: Room, e: Event) {
    match e
    case Joins(conn, _) => conn !in y.links && !y.retired
    case Says(conn, _) => conn in y.links
    case Announces(_) => true
    case Forwards(conn) => conn in y.peers
    case Writes(conn) => conn in y.links && CanWrite(y.links[conn])
    case Fails(conn, i) => conn in y.links && CanFail(y.links[conn], i)
    case CutsOff(conn) => conn in y.links && CanCut(y.links[conn])
    case Reads(conn) => conn in y.links && |y.links[conn].queue| > 0
    case Settles(f) => f in y.fanouts && y.fanouts[f].pending == {}
    case Leaves(conn) => conn in y.peers
    case Retires => true
  }

  function Next(y: Room, e: Event): Room
    requires Possible(y, e)
  {
    match e
    case Joins(conn, kind) => Join(y, conn, kind)
    case Says(conn, body) => Say(y, conn, body)
    case Announces(exclude) => Broadcast(y, Other, exclude)
    case Forwards(conn) => Forward(y, conn)
    case Writes(conn) => Written(y, conn)
    case Fails(conn, i) => Failed(y, conn, i)
    case CutsOff(conn) => CutOff(y, conn)
    case Reads(conn) => Read(y, conn)
    case Settles(f) => Settle(y, f)
    case Leaves(conn) => y.(peers := y.peers - {conn})
    case Retires => y.(peers := {}, last := None, retired := true)
  }

  // ------------------------------------------------------------------
  // What a peer should see, and what it has seen.
  // ------------------------------------------------------------------

  function Carried(frame: Frame): seq<Envelope> {
    match frame
    case Welcome(last) => if last.Some? then [last.value] else []
    case Clip(envelope) => [envelope]
    case Other => []
  }

  function Clips(frames: seq<Frame>): seq<Envelope> {
    if frames == [] then [] else Clips(frames[..|frames| - 1]) + Carried(frames[|frames| - 1])
  }

  function Frames(writes: seq<Write>): seq<Frame> {
    seq(|writes|, i requires 0 <= i < |writes| => writes[i].frame)
  }

  /** Everything on its way to the client, in the order it will get there. */
  function Stream(link: Link): seq<Frame> {
    link.got + link.queue + Frames(link.waiting)
  }

  function LogAt(log: seq<Said>, k: nat): Envelope
    requires 0 < k <= |log|
  {
    Envelope(k, log[k - 1].body)
  }

  /** The clips after position `start`, except the peer's own. */
  function Later(log: seq<Said>, start: nat, conn: Conn): seq<Envelope>
    decreases |log|
  {
    if |log| <= start then []
    else Later(log[..|log| - 1], start, conn) + (if log[|log| - 1].sender == conn then [] else [LogAt(log, |log|)])
  }

  /** The replay in the welcome, then every later clip but its own. */
  function Expected(log: seq<Said>, start: nat, conn: Conn): seq<Envelope>
    requires start <= |log|
  {
    (if start > 0 then [LogAt(log, start)] else []) + Later(log, start, conn)
  }

  // ------------------------------------------------------------------
  // The invariant.
  // ------------------------------------------------------------------

  ghost predicate Numbered(y: Room) {
    && y.counter == |y.log|
    && (!y.retired ==> y.last == if y.counter == 0 then None else Some(LogAt(y.log, y.counter)))
    && (y.retired ==> y.peers == {})
    && forall f :: f in y.fanouts ==> f < y.nextFanout
  }

  /** A fan-out that has not settled will drop this peer. */
  ghost predicate Doomed(y: Room, conn: Conn) {
    exists f :: f in y.fanouts && conn in y.fanouts[f].failed
  }

  ghost predicate Suspect(y: Room, conn: Conn) {
    conn in y.links && (y.links[conn].welcomeFailed || Doomed(y, conn))
  }

  ghost predicate Told(y: Room, conn: Conn) {
    conn in y.links ==>
      && y.links[conn].start <= |y.log|
      && |Clips(Stream(y.links[conn]))| + y.links[conn].lost == |Expected(y.log, y.links[conn].start, conn)|
      && (y.links[conn].lost == 0 ==> Clips(Stream(y.links[conn])) == Expected(y.log, y.links[conn].start, conn))
  }

  /** Every clip this peer's line still carries is one a live fan-out is waiting for. */
  ghost predicate Booked(y: Room, conn: Conn) {
    conn in y.links ==>
      && (y.links[conn].kind.WebSocket? ==> y.links[conn].queue == [])
      && (forall i :: 0 <= i < |y.links[conn].waiting| ==> HasFanout(y, y.links[conn].waiting[i], conn))
      && forall i, j :: 0 <= i < j < |y.links[conn].waiting| && y.links[conn].waiting[i].fanout.Some? ==>
           y.links[conn].waiting[i].fanout != y.links[conn].waiting[j].fanout
  }

  ghost predicate HasFanout(y: Room, w: Write, conn: Conn) {
    match w.fanout
    case Some(f) => f in y.fanouts && conn in y.fanouts[f].pending
    case None => !w.frame.Clip?
  }

  ghost predicate LinkInv(y: Room, conn: Conn) {
    conn in y.peers ==>
      && conn in y.links && Told(y, conn)
      && (y.links[conn].lost > 0 ==> Suspect(y, conn))
  }

  ghost predicate Inv(y: Room) {
    && Numbered(y)
    && (forall c :: c in y.links ==> Booked(y, c))
    && (forall c :: c in y.peers ==> LinkInv(y, c))
  }

  // ------------------------------------------------------------------
  // Sequences.
  // ------------------------------------------------------------------

  lemma {:induction false} ClipsConcat(a: seq<Frame>, b: seq<Frame>)
    ensures Clips(a + b) == Clips(a) + Clips(b)
    decreases |b|
  {
    if b == [] {
      assert a + b == a;
    } else {
      var front := b[..|b| - 1];
      assert (a + b)[..|a + b| - 1] == a + front;
      assert (a + b)[|a + b| - 1] == b[|b| - 1];
      ClipsConcat(a, front);
    }
  }

  lemma ClipsOne(frame: Frame)
    ensures Clips([frame]) == Carried(frame)
  {
    assert [frame][..0] == [];
    assert Clips([]) == [];
  }

  lemma StreamAsked(link: Link, w: Write)
    ensures Stream(link.(waiting := link.waiting + [w])) == Stream(link) + [w.frame]
    ensures Clips(Stream(link.(waiting := link.waiting + [w]))) == Clips(Stream(link)) + Carried(w.frame)
  {
    assert Frames(link.waiting + [w]) == Frames(link.waiting) + [w.frame];
    ClipsConcat(Stream(link), [w.frame]);
    ClipsOne(w.frame);
  }

  /** A write getting through moves a frame along; it does not change the stream. */
  lemma StreamWritten(link: Link)
    requires |link.waiting| > 0
    ensures link.kind.WebSocket? && link.queue == [] ==>
              Stream(link.(waiting := link.waiting[1..], got := link.got + [link.waiting[0].frame])) == Stream(link)
    ensures Stream(link.(waiting := link.waiting[1..], queue := link.queue + [link.waiting[0].frame])) == Stream(link)
  {
    assert Frames(link.waiting) == [link.waiting[0].frame] + Frames(link.waiting[1..]);
  }

  lemma StreamRead(link: Link)
    requires |link.queue| > 0
    ensures Stream(link.(queue := link.queue[1..], got := link.got + [link.queue[0]])) == Stream(link)
  {
    assert link.queue == [link.queue[0]] + link.queue[1..];
  }

  lemma StreamFailed(link: Link, i: nat)
    requires i < |link.waiting|
    ensures var after := link.(waiting := link.waiting[..i] + link.waiting[i + 1..]);
            && |Clips(Stream(after))| + |Carried(link.waiting[i].frame)| == |Clips(Stream(link))|
            && (Carried(link.waiting[i].frame) == [] ==> Clips(Stream(after)) == Clips(Stream(link)))
  {
    hide Clips, Carried;
    var w, before, behind := link.waiting[i], Frames(link.waiting[..i]), Frames(link.waiting[i + 1..]);
    var head := link.got + link.queue + before;
    FramesAround(link.waiting, i);
    assert Stream(link) == (head + [w.frame]) + behind;
    assert Stream(link.(waiting := link.waiting[..i] + link.waiting[i + 1..])) == head + behind;
    ClipsConcat(head + [w.frame], behind);
    ClipsConcat(head, [w.frame]);
    ClipsConcat(head, behind);
    ClipsOne(w.frame);
  }

  lemma FramesAround(writes: seq<Write>, i: nat)
    requires i < |writes|
    ensures Frames(writes) == Frames(writes[..i]) + [writes[i].frame] + Frames(writes[i + 1..])
    ensures Frames(writes[..i] + writes[i + 1..]) == Frames(writes[..i]) + Frames(writes[i + 1..])
  {
  }

  lemma {:induction false} ExpectedGrows(log: seq<Said>, s: Said, start: nat, conn: Conn)
    requires start <= |log|
    ensures Expected(log + [s], start, conn)
         == Expected(log, start, conn) + (if s.sender == conn then [] else [LogAt(log + [s], |log| + 1)])
  {
    assert (log + [s])[..|log|] == log;
  }

  // ------------------------------------------------------------------
  // Every step keeps it.
  // ------------------------------------------------------------------

  /** A link nothing was done to. */
  lemma Undisturbed(y: Room, z: Room, c: Conn)
    requires LinkInv(y, c) && (c in z.peers ==> c in y.peers) && z.log == y.log
    requires c in y.links ==> c in z.links && z.links[c] == y.links[c]
    requires Doomed(y, c) && c in z.peers ==> Doomed(z, c)
    ensures LinkInv(z, c)
  {
    hide Doomed, Expected, Clips;
  }

  lemma StillBooked(y: Room, z: Room, c: Conn)
    requires Booked(y, c) && c in y.links && c in z.links && z.links[c] == y.links[c]
    requires forall f :: f in y.fanouts && c in y.fanouts[f].pending ==> f in z.fanouts && c in z.fanouts[f].pending
    ensures Booked(z, c)
  {
  }

  /** One more frame at the end of a line. */
  lemma AskedBooked(y: Room, z: Room, c: Conn, w: Write)
    requires Booked(y, c) && Numbered(y) && c in y.links && c in z.links && HasFanout(z, w, c)
    requires z.links[c] == y.links[c].(waiting := y.links[c].waiting + [w])
    requires forall f :: f in y.fanouts ==> f in z.fanouts && z.fanouts[f] == y.fanouts[f]
    requires w.fanout.Some? ==> w.fanout.value == y.nextFanout
    ensures Booked(z, c)
  {
    var before, after := y.links[c].waiting, z.links[c].waiting;
    forall i | 0 <= i < |after|
      ensures HasFanout(z, after[i], c)
    {
      if i < |before| {
        assert HasFanout(y, before[i], c);
        assert after[i] == before[i];
      }
    }
    forall i, j | 0 <= i < j < |after| && after[i].fanout.Some?
      ensures after[i].fanout != after[j].fanout
    {
      assert after[i] == before[i] && HasFanout(y, before[i], c);
    }
  }

  lemma JoinInv(y: Room, conn: Conn, kind: Kind)
    requires Inv(y) && conn !in y.links && !y.retired
    ensures Inv(Join(y, conn, kind))
  {
    hide Doomed, LinkInv, Booked;
    var z := Join(y, conn, kind);
    forall c | c in z.links
      ensures Booked(z, c)
    {
      if c == conn { FreshBooked(y, conn, kind); } else { StillBooked(y, z, c); }
    }
    forall c | c in z.peers
      ensures LinkInv(z, c)
    {
      if c == conn { FreshTold(y, conn, kind); } else { DoomedAlike(y, z, c); Undisturbed(y, z, c); }
    }
  }

  lemma DoomedAlike(y: Room, z: Room, c: Conn)
    requires forall f :: f in y.fanouts && c in y.fanouts[f].failed ==> f in z.fanouts && c in z.fanouts[f].failed
    ensures Doomed(y, c) ==> Doomed(z, c)
  {
  }

  lemma FreshBooked(y: Room, conn: Conn, kind: Kind)
    ensures Booked(Join(y, conn, kind), conn)
  {
  }

  lemma FreshTold(y: Room, conn: Conn, kind: Kind)
    requires Numbered(y) && !y.retired
    ensures LinkInv(Join(y, conn, kind), conn)
  {
    var link := Join(y, conn, kind).links[conn];
    assert Stream(link) == [Welcome(y.last)];
    ClipsOne(Welcome(y.last));
  }

  /** What a room-wide write does to one peer of the room. */
  lemma BroadcastLink(y: Room, frame: Frame, exclude: set<Conn>, c: Conn)
    requires c in y.links
    ensures var z := Broadcast(y, frame, exclude);
            && c in z.links
            && z.links[c] == if c in y.peers && c !in exclude
                             then y.links[c].(waiting := y.links[c].waiting + [Write(frame, Some(y.nextFanout))]) else y.links[c]
  {
    if c in y.peers && c !in exclude {
      assert c in y.peers - exclude;
    }
  }

  lemma BroadcastBooked(y: Room, frame: Frame, exclude: set<Conn>, c: Conn)
    requires Numbered(y) && Booked(y, c) && c in y.links
    ensures Booked(Broadcast(y, frame, exclude), c)
  {
    hide Booked;
    var z := Broadcast(y, frame, exclude);
    BroadcastLink(y, frame, exclude, c);
    if c in y.peers && c !in exclude {
      AskedBooked(y, z, c, Write(frame, Some(y.nextFanout)));
    } else {
      StillBooked(y, z, c);
    }
  }

  lemma BroadcastShape(y: Room, frame: Frame, exclude: set<Conn>)
    requires Numbered(y)
    ensures Numbered(Broadcast(y, frame, exclude))
    ensures Broadcast(y, frame, exclude).links.Keys == y.links.Keys && Broadcast(y, frame, exclude).peers == y.peers
    ensures Broadcast(y, frame, exclude).log == y.log
    ensures forall f :: f in y.fanouts ==> f in Broadcast(y, frame, exclude).fanouts && Broadcast(y, frame, exclude).fanouts[f] == y.fanouts[f]
  {
  }

  /** A frame with no clip in it changes nobody's story. */
  lemma OtherTold(y: Room, z: Room, c: Conn, w: Write)
    requires LinkInv(y, c) && c in y.peers && c in y.links && c in z.links && z.log == y.log && Carried(w.frame) == []
    requires z.links[c] == y.links[c] || z.links[c] == y.links[c].(waiting := y.links[c].waiting + [w])
    requires forall f :: f in y.fanouts ==> f in z.fanouts && z.fanouts[f] == y.fanouts[f]
    ensures LinkInv(z, c)
  {
    hide Expected, Stream, Clips;
    StreamAsked(y.links[c], w);
    DoomedAlike(y, z, c);
    hide Doomed;
  }

  lemma AnnounceInv(y: Room, exclude: set<Conn>)
    requires Inv(y)
    ensures Inv(Broadcast(y, Other, exclude))
  {
    hide Doomed, LinkInv, Booked, Broadcast, Numbered;
    var z := Broadcast(y, Other, exclude);
    BroadcastShape(y, Other, exclude);
    forall c | c in z.links
      ensures Booked(z, c)
    {
      BroadcastBooked(y, Other, exclude, c);
    }
    forall c | c in z.peers
      ensures LinkInv(z, c)
    {
      Present(y, c);
      BroadcastLink(y, Other, exclude, c);
      OtherTold(y, z, c, Write(Other, Some(y.nextFanout)));
    }
  }

  lemma Present(y: Room, c: Conn)
    requires LinkInv(y, c) && c in y.peers
    ensures c in y.links && Told(y, c) && y.links[c].start <= |y.log|
  {
  }

  lemma ForwardInv(y: Room, conn: Conn)
    requires Inv(y) && conn in y.peers
    ensures Inv(Forward(y, conn))
  {
    hide Doomed, LinkInv, Booked;
    var z := Forward(y, conn);
    forall c | c in z.links
      ensures Booked(z, c)
    {
      if c == conn { AskedBooked(y, z, c, Write(Other, None)); } else { StillBooked(y, z, c); }
    }
    forall c | c in z.peers
      ensures LinkInv(z, c)
    {
      Present(y, c);
      OtherTold(y, z, c, Write(Other, None));
    }
  }

  /** A new clip is one more thing everybody else should see, and one more in their line. */
  lemma SayTold(y: Room, conn: Conn, body: string, c: Conn)
    requires Numbered(y) && LinkInv(y, c) && c in y.peers
    ensures LinkInv(Say(y, conn, body), c)
  {
    hide Expected, Stream, Clips, Doomed, Broadcast;
    var z := Say(y, conn, body);
    var y1 := y.(counter := y.counter + 1, last := Some(Envelope(y.counter + 1, body)), log := y.log + [Said(conn, body)]);
    var w := Write(Clip(Envelope(y.counter + 1, body)), Some(y.nextFanout));
    BroadcastLink(y1, w.frame, {conn}, c);
    StreamAsked(y.links[c], w);
    ExpectedGrows(y.log, Said(conn, body), y.links[c].start, c);
    SayShape(y, conn, body);
    DoomedAlike(y, z, c);
  }

  lemma SayShape(y: Room, conn: Conn, body: string)
    requires Numbered(y)
    ensures Numbered(Say(y, conn, body)) || y.retired
    ensures Say(y, conn, body).links.Keys == y.links.Keys && Say(y, conn, body).peers == y.peers
    ensures Say(y, conn, body).log == y.log + [Said(conn, body)]
    ensures forall f :: f in y.fanouts ==> f in Say(y, conn, body).fanouts && Say(y, conn, body).fanouts[f] == y.fanouts[f]
  {
  }

  lemma SayBooked(y: Room, conn: Conn, body: string, c: Conn)
    requires Numbered(y) && Booked(y, c) && c in y.links
    ensures Booked(Say(y, conn, body), c)
  {
    hide Booked;
    var z := Say(y, conn, body);
    var y1 := y.(counter := y.counter + 1, last := Some(Envelope(y.counter + 1, body)), log := y.log + [Said(conn, body)]);
    BroadcastLink(y1, Clip(Envelope(y.counter + 1, body)), {conn}, c);
    if c in y.peers && c != conn {
      AskedBooked(y, z, c, Write(Clip(Envelope(y.counter + 1, body)), Some(y.nextFanout)));
    } else {
      StillBooked(y, z, c);
    }
  }

  lemma SayInv(y: Room, conn: Conn, body: string)
    requires Inv(y)
    ensures Inv(Say(y, conn, body))
  {
    hide LinkInv, Booked, Say, Numbered;
    var z := Say(y, conn, body);
    SayShape(y, conn, body);
    SayNumbered(y, conn, body);
    forall c | c in z.links
      ensures Booked(z, c)
    {
      SayBooked(y, conn, body, c);
    }
    forall c | c in z.peers
      ensures LinkInv(z, c)
    {
      SayTold(y, conn, body, c);
    }
  }

  lemma SayNumbered(y: Room, conn: Conn, body: string)
    requires Numbered(y)
    ensures Numbered(Say(y, conn, body))
  {
  }

  lemma EndedKeeps(fanouts: map<nat, FanOut>, w: Write, conn: Conn, ok: bool)
    ensures Ended(fanouts, w, conn, ok).Keys == fanouts.Keys
    ensures forall f, c :: f in fanouts && c in fanouts[f].failed ==> c in Ended(fanouts, w, conn, ok)[f].failed
    ensures forall f, c :: f in fanouts && c != conn && c in fanouts[f].pending ==> c in Ended(fanouts, w, conn, ok)[f].pending
    ensures forall f :: f in fanouts && w.fanout != Some(f) ==> Ended(fanouts, w, conn, ok)[f] == fanouts[f]
    ensures !ok && w.fanout.Some? && w.fanout.value in fanouts ==> conn in Ended(fanouts, w, conn, ok)[w.fanout.value].failed
  {
  }

  /** One write fewer in a line: what is left is as it was. */
  lemma ShorterBooked(y: Room, z: Room, c: Conn, i: nat, ok: bool)
    requires Booked(y, c) && c in y.links && c in z.links && i < |y.links[c].waiting|
    requires z.links[c].waiting == y.links[c].waiting[..i] + y.links[c].waiting[i + 1..]
    requires z.links[c].kind == y.links[c].kind && (z.links[c].kind.WebSocket? ==> z.links[c].queue == [])
    requires z.fanouts == Ended(y.fanouts, y.links[c].waiting[i], c, ok)
    ensures Booked(z, c)
  {
    var before, after := y.links[c].waiting, z.links[c].waiting;
    EndedKeeps(y.fanouts, before[i], c, ok);
    hide Ended;
    forall k | 0 <= k < |after|
      ensures HasFanout(z, after[k], c)
    {
      var k0 := if k < i then k else k + 1;
      assert after[k] == before[k0] && HasFanout(y, before[k0], c);
    }
    forall j, k | 0 <= j < k < |after| && after[j].fanout.Some?
      ensures after[j].fanout != after[k].fanout
    {
      var j0, k0 := if j < i then j else j + 1, if k < i then k else k + 1;
      assert after[j] == before[j0] && after[k] == before[k0] && j0 < k0;
    }
  }

  /** The other lines, when one write of somebody else's ends. */
  lemma OthersKept(y: Room, z: Room, w: Write, conn: Conn, ok: bool, c: Conn)
    requires c != conn && c in y.links && c in z.links && z.links[c] == y.links[c] && z.peers == y.peers && z.log == y.log
    requires z.fanouts == Ended(y.fanouts, w, conn, ok) && Booked(y, c)
    ensures Booked(z, c)
    ensures LinkInv(y, c) ==> LinkInv(z, c)
  {
    hide Ended, Told;
    EndedKeeps(y.fanouts, w, conn, ok);
    StillBooked(y, z, c);
    DoomedAlike(y, z, c);
    if LinkInv(y, c) {
      Undisturbed(y, z, c);
    }
  }

  /** A write that got through leaves the peer's story as it was. */
  lemma WrittenTold(y: Room, conn: Conn)
    requires conn in y.links && CanWrite(y.links[conn]) && Booked(y, conn) && LinkInv(y, conn)
    ensures LinkInv(Written(y, conn), conn)
  {
    hide Ended, Clips, Stream, Expected;
    var link := y.links[conn];
    StreamWritten(link);
    EndedKeeps(y.fanouts, link.waiting[0], conn, true);
    DoomedAlike(y, Written(y, conn), conn);
    hide Doomed;
  }

  lemma WrittenInv(y: Room, conn: Conn)
    requires Inv(y) && conn in y.links && CanWrite(y.links[conn])
    ensures Inv(Written(y, conn))
  {
    hide LinkInv, Booked, Ended;
    var z := Written(y, conn);
    var w := y.links[conn].waiting[0];
    EndedKeeps(y.fanouts, w, conn, true);
    forall c | c in z.links
      ensures Booked(z, c)
    {
      if c == conn { WrittenBooked(y, conn); } else { OthersKept(y, z, w, conn, true, c); }
    }
    forall c | c in z.peers
      ensures LinkInv(z, c)
    {
      if c == conn { WrittenTold(y, conn); } else { Present(y, c); OthersKept(y, z, w, conn, true, c); }
    }
  }

  lemma WrittenBooked(y: Room, conn: Conn)
    requires conn in y.links && CanWrite(y.links[conn]) && Booked(y, conn)
    ensures Booked(Written(y, conn), conn)
  {
    hide Ended;
    var waiting := y.links[conn].waiting;
    assert waiting[..0] + waiting[1..] == waiting[1..];
    ShorterBooked(y, Written(y, conn), conn, 0, true);
  }

  /** A write cut off moves its frame along all the same, and its peer will be dropped. */
  lemma CutOffTold(y: Room, conn: Conn)
    requires conn in y.links && CanCut(y.links[conn]) && Booked(y, conn) && LinkInv(y, conn)
    ensures LinkInv(CutOff(y, conn), conn)
  {
    hide Ended, Clips, Stream, Expected;
    var link := y.links[conn];
    StreamWritten(link);
    EndedKeeps(y.fanouts, link.waiting[0], conn, false);
    DoomedAlike(y, CutOff(y, conn), conn);
    hide Doomed;
  }

  lemma CutOffBooked(y: Room, conn: Conn)
    requires conn in y.links && CanCut(y.links[conn]) && Booked(y, conn)
    ensures Booked(CutOff(y, conn), conn)
  {
    hide Ended;
    var waiting := y.links[conn].waiting;
    assert waiting[..0] + waiting[1..] == waiting[1..];
    ShorterBooked(y, CutOff(y, conn), conn, 0, false);
  }

  lemma CutOffInv(y: Room, conn: Conn)
    requires Inv(y) && conn in y.links && CanCut(y.links[conn])
    ensures Inv(CutOff(y, conn))
  {
    hide LinkInv, Booked, Ended;
    var z := CutOff(y, conn);
    var w := y.links[conn].waiting[0];
    EndedKeeps(y.fanouts, w, conn, false);
    forall c | c in z.links
      ensures Booked(z, c)
    {
      if c == conn { CutOffBooked(y, conn); } else { OthersKept(y, z, w, conn, false, c); }
    }
    forall c | c in z.peers
      ensures LinkInv(z, c)
    {
      if c == conn { CutOffTold(y, conn); } else { Present(y, c); OthersKept(y, z, w, conn, false, c); }
    }
  }

  /** A clip lost is a peer that will be dropped, or one whose welcome never came. */
  lemma FailedTold(y: Room, conn: Conn, i: nat)
    requires conn in y.links && CanFail(y.links[conn], i) && Booked(y, conn) && LinkInv(y, conn)
    ensures LinkInv(Failed(y, conn, i), conn)
  {
    hide Clips, Stream, Expected, Ended;
    var link := y.links[conn];
    var w := link.waiting[i];
    StreamFailed(link, i);
    EndedKeeps(y.fanouts, w, conn, false);
    var z := Failed(y, conn, i);
    DoomedAlike(y, z, conn);
    assert HasFanout(y, w, conn);
    if w.frame.Clip? {
      assert conn in z.fanouts[w.fanout.value].failed;
    }
    StreamSame(link, z.links[conn], i);
  }

  lemma StreamSame(link: Link, after: Link, i: nat)
    requires i < |link.waiting| && after.got == link.got && after.queue == link.queue
    requires after.waiting == link.waiting[..i] + link.waiting[i + 1..]
    ensures Stream(after) == Stream(link.(waiting := link.waiting[..i] + link.waiting[i + 1..]))
  {
  }

  lemma FailedBooked(y: Room, conn: Conn, i: nat)
    requires conn in y.links && CanFail(y.links[conn], i) && Booked(y, conn)
    ensures Booked(Failed(y, conn, i), conn)
  {
    hide Ended, Carried;
    ShorterBooked(y, Failed(y, conn, i), conn, i, false);
  }

  lemma FailedInv(y: Room, conn: Conn, i: nat)
    requires Inv(y) && conn in y.links && CanFail(y.links[conn], i)
    ensures Inv(Failed(y, conn, i))
  {
    hide LinkInv, Booked, Ended, Carried;
    var z := Failed(y, conn, i);
    var w := y.links[conn].waiting[i];
    EndedKeeps(y.fanouts, w, conn, false);
    forall c | c in z.links
      ensures Booked(z, c)
    {
      if c == conn { FailedBooked(y, conn, i); } else { OthersKept(y, z, w, conn, false, c); }
    }
    forall c | c in z.peers
      ensures LinkInv(z, c)
    {
      if c == conn { FailedTold(y, conn, i); } else { Present(y, c); OthersKept(y, z, w, conn, false, c); }
    }
  }

  lemma ReadInv(y: Room, conn: Conn)
    requires Inv(y) && conn in y.links && |y.links[conn].queue| > 0
    ensures Inv(Read(y, conn))
  {
    hide LinkInv, Booked;
    var z := Read(y, conn);
    forall c | c in z.links
      ensures Booked(z, c)
    {
      if c == conn { ReadFine(y, conn); } else { StillBooked(y, z, c); }
    }
    forall c | c in z.peers
      ensures LinkInv(z, c)
    {
      if c == conn { ReadFine(y, conn); } else { DoomedAlike(y, z, c); Undisturbed(y, z, c); }
    }
  }

  lemma ReadFine(y: Room, conn: Conn)
    requires conn in y.links && |y.links[conn].queue| > 0 && Booked(y, conn)
    ensures Booked(Read(y, conn), conn)
    ensures LinkInv(y, conn) ==> LinkInv(Read(y, conn), conn)
  {
    hide Clips, Stream, Expected;
    StreamRead(y.links[conn]);
    DoomedAlike(y, Read(y, conn), conn);
    hide Doomed;
  }

  lemma SettleInv(y: Room, f: nat)
    requires Inv(y) && f in y.fanouts && y.fanouts[f].pending == {}
    ensures Inv(Settle(y, f))
  {
    hide LinkInv, Booked;
    var z := Settle(y, f);
    forall c | c in z.links
      ensures Booked(z, c)
    {
      StillBooked(y, z, c);
    }
    forall c | c in z.peers
      ensures LinkInv(z, c)
    {
      StillDoomed(y, f, c);
      Undisturbed(y, z, c);
    }
  }

  lemma StillDoomed(y: Room, f: nat, c: Conn)
    requires f in y.fanouts && y.fanouts[f].pending == {} && c !in y.fanouts[f].failed
    ensures Doomed(y, c) ==> Doomed(Settle(y, f), c)
  {
    if Doomed(y, c) {
      var g :| g in y.fanouts && c in y.fanouts[g].failed;
      assert g in Settle(y, f).fanouts;
    }
  }

  /** Somebody, or everybody, goes: the others do not notice. */
  lemma GoneInv(y: Room, z: Room)
    requires Inv(y) && Numbered(z) && z.peers <= y.peers
    requires z.links == y.links && z.fanouts == y.fanouts && z.log == y.log
    ensures Inv(z)
  {
    hide LinkInv, Booked, Numbered;
    forall c | c in z.links
      ensures Booked(z, c)
    {
      StillBooked(y, z, c);
    }
    forall c | c in z.peers
      ensures LinkInv(z, c)
    {
      DoomedAlike(y, z, c);
      Undisturbed(y, z, c);
    }
  }

  lemma NextInv(y: Room, e: Event)
    requires Inv(y) && Possible(y, e)
    ensures Inv(Next(y, e))
  {
    hide LinkInv, Booked, Join, Say, Broadcast, Forward, Written, Failed, CutOff, Read, Settle, CanWrite, CanFail, CanCut;
    match e {
      case Joins(conn, kind) => JoinInv(y, conn, kind);
      case Says(conn, body) => SayInv(y, conn, body);
      case Announces(exclude) => AnnounceInv(y, exclude);
      case Forwards(conn) => ForwardInv(y, conn);
      case Writes(conn) => WrittenInv(y, conn);
      case Fails(conn, i) => FailedInv(y, conn, i);
      case CutsOff(conn) => CutOffInv(y, conn);
      case Reads(conn) => ReadInv(y, conn);
      case Settles(f) => SettleInv(y, f);
      case Leaves(_) => GoneInv(y, Next(y, e));
      case Retires => GoneInv(y, Next(y, e));
    }
  }

  // ------------------------------------------------------------------
  // Every run.
  // ------------------------------------------------------------------

  predicate Feasible(y: Room, run: seq<Event>)
    decreases |run|
  {
    run == [] || (Possible(y, run[0]) && Feasible(Next(y, run[0]), run[1..]))
  }

  function After(y: Room, run: seq<Event>): Room
    requires Feasible(y, run)
    decreases |run|
  {
    if run == [] then y else After(Next(y, run[0]), run[1..])
  }

  lemma {:induction false} RunInv(y: Room, run: seq<Event>)
    requires Inv(y) && Feasible(y, run)
    ensures Inv(After(y, run))
    decreases |run|
  {
    hide Inv, Next, Possible;
    if run != [] {
      NextInv(y, run[0]);
      RunInv(Next(y, run[0]), run[1..]);
    }
  }

  lemma EmptyInv()
    ensures Inv(EMPTY)
  {
    assert Numbered(EMPTY);
    assert forall c :: c in EMPTY.links ==> Booked(EMPTY, c);
    assert forall c :: c in EMPTY.peers ==> LinkInv(EMPTY, c);
  }

  /**
   A peer in the room no live fan-out has given up on, and whose welcome did not
   fail: what its client has is a beginning of the replay followed by every later
   clip but its own, and the rest of that is on its way in order. Once nothing is on
   its way, it has all of it.
   */
  lemma GapFree(run: seq<Event>, conn: Conn)
    requires Feasible(EMPTY, run) && conn in After(EMPTY, run).peers && !Suspect(After(EMPTY, run), conn)
    ensures conn in After(EMPTY, run).links && After(EMPTY, run).links[conn].start <= |After(EMPTY, run).log|
    ensures var y := After(EMPTY, run); var link := y.links[conn];
            && Clips(link.got) <= Expected(y.log, link.start, conn)
            && Clips(link.got) + Clips(link.queue + Frames(link.waiting)) == Expected(y.log, link.start, conn)
            && (link.queue == [] && link.waiting == [] ==> Clips(link.got) == Expected(y.log, link.start, conn))
  {
    hide After, Feasible, Clips, Expected, Stream, Booked, Numbered;
    EmptyInv();
    RunInv(EMPTY, run);
    var y := After(EMPTY, run);
    assert LinkInv(y, conn);
    var link := y.links[conn];
    StreamParts(link);
  }

  lemma StreamParts(link: Link)
    ensures Clips(Stream(link)) == Clips(link.got) + Clips(link.queue + Frames(link.waiting))
    ensures link.queue == [] && link.waiting == [] ==> Clips(link.queue + Frames(link.waiting)) == []
  {
    if link.queue == [] && link.waiting == [] {
      assert link.queue + Frames(link.waiting) == [];
    }
    assert Stream(link) == link.got + (link.queue + Frames(link.waiting));
    ClipsConcat(link.got, link.queue + Frames(link.waiting));
  }

  /** Whoever is in the room once every fan-out has settled, and was welcomed, has no gap. */
  lemma SettledIsGapFree(run: seq<Event>, conn: Conn)
    requires Feasible(EMPTY, run) && conn in After(EMPTY, run).peers && After(EMPTY, run).fanouts == map[]
    requires conn in After(EMPTY, run).links
    requires After(EMPTY, run).links[conn].waiting == [] && After(EMPTY, run).links[conn].queue == []
    requires !After(EMPTY, run).links[conn].welcomeFailed
    ensures After(EMPTY, run).links[conn].start <= |After(EMPTY, run).log|
    ensures Clips(After(EMPTY, run).links[conn].got)
         == Expected(After(EMPTY, run).log, After(EMPTY, run).links[conn].start, conn)
  {
    hide After, Feasible, Clips, Expected;
    GapFree(run, conn);
  }

  /** For anyone in the room: the stream is complete if and only if no clip to it was lost. */
  lemma GapFreeIffNothingLost(run: seq<Event>, conn: Conn)
    requires Feasible(EMPTY, run) && conn in After(EMPTY, run).peers
    ensures conn in After(EMPTY, run).links && After(EMPTY, run).links[conn].start <= |After(EMPTY, run).log|
    ensures var y := After(EMPTY, run); var link := y.links[conn];
            && (Clips(Stream(link)) == Expected(y.log, link.start, conn) <==> link.lost == 0)
            && (link.lost > 0 ==> Suspect(y, conn))
  {
    hide After, Feasible, Clips, Expected, Stream, Booked, Numbered, Suspect;
    EmptyInv();
    RunInv(EMPTY, run);
    assert LinkInv(After(EMPTY, run), conn);
  }

  /** In order, without repeats: the clips of others after `start`, and no others. */
  lemma {:induction false} LaterMeans(log: seq<Said>, start: nat, conn: Conn)
    ensures forall e :: e in Later(log, start, conn) <==>
              exists k :: start < k <= |log| && e == LogAt(log, k) && log[k - 1].sender != conn
    ensures forall i, j :: 0 <= i < j < |Later(log, start, conn)| ==>
              Later(log, start, conn)[i].number < Later(log, start, conn)[j].number
    decreases |log|
  {
    if |log| > start {
      var front := log[..|log| - 1];
      LaterMeans(front, start, conn);
      assert forall k :: start < k <= |front| ==> LogAt(front, k) == LogAt(log, k) && front[k - 1] == log[k - 1];
      forall e
        ensures e in Later(log, start, conn) <==>
                exists k :: start < k <= |log| && e == LogAt(log, k) && log[k - 1].sender != conn
      {
        if e in Later(front, start, conn) {
          var k :| start < k <= |front| && e == LogAt(front, k) && front[k - 1].sender != conn;
          assert e == LogAt(log, k) && log[k - 1].sender != conn;
        }
        if exists k :: start < k <= |log| && e == LogAt(log, k) && log[k - 1].sender != conn {
          var k :| start < k <= |log| && e == LogAt(log, k) && log[k - 1].sender != conn;
          if k < |log| {
            assert e == LogAt(front, k) && front[k - 1].sender != conn;
          }
        }
      }
      assert forall e :: e in Later(front, start, conn) ==> e.number < |log|;
    }
  }

  // ------------------------------------------------------------------
  // The window in which a peer still in the room does have a gap.
  // ------------------------------------------------------------------

  const Fresh: Link := Link(WebSocket, [Write(Welcome(None), None)], [], [], 0, 0, false)
  const Idle: Link := Fresh.(waiting := [], got := [Welcome(None)])
  const A := Write(Clip(Envelope(1, "a")), Some(0))
  const B := Write(Clip(Envelope(2, "b")), Some(1))
  const C := Write(Clip(Envelope(3, "c")), Some(2))
  const Log := [Said(1, "a"), Said(3, "b"), Said(4, "c")]

  /** Four devices join, and then each has its welcome before it says anything. */
  const Arrivals: seq<Event> := [Joins(1, WebSocket), Joins(2, WebSocket), Joins(3, WebSocket), Joins(4, WebSocket)]
  const Welcomes: seq<Event> := [Writes(1), Writes(2), Writes(3), Writes(4)]
  const Arrived: Room := Room(0, None, {1, 2, 3, 4}, map[1 := Fresh, 2 := Fresh, 3 := Fresh, 4 := Fresh], map[], 0, false, [])
  const Ready: Room := Arrived.(links := map[1 := Idle, 2 := Idle, 3 := Idle, 4 := Idle])

  /**
   Three of them say one thing each, and each is still waiting for its own fan-out. To the
   second device the write of "a" has the socket and "b" waits for it; one turn of the
   loop finds both past their deadlines. "a" was taken by the socket, "b" never was, and
   "c" goes through. To the others everything is still out.
   */
  const Talk: seq<Event> := [Says(1, "a"), Says(3, "b"), Says(4, "c")]
  const Trouble: seq<Event> := [Fails(2, 1), CutsOff(2), Writes(2)]

  lemma {:induction false} RunOn(y: Room, a: seq<Event>, b: seq<Event>)
    requires Feasible(y, a) && Feasible(After(y, a), b)
    ensures Feasible(y, a + b) && After(y, a + b) == After(After(y, a), b)
    decreases |a|
  {
    if a == [] {
      assert a + b == b;
    } else {
      assert (a + b)[1..] == a[1..] + b;
      RunOn(Next(y, a[0]), a[1..], b);
    }
  }

  lemma Stops(y: Room)
    ensures Feasible(y, []) && After(y, []) == y
  {
  }

  /** One event more. */
  lemma Then(y: Room, run: seq<Event>, e: Event)
    requires Feasible(y, run) && Possible(After(y, run), e)
    ensures Feasible(y, run + [e]) && After(y, run + [e]) == Next(After(y, run), e)
  {
    var z := After(y, run);
    assert [e][1..] == [];
    Stops(Next(z, e));
    assert Feasible(z, [e]) && After(z, [e]) == Next(z, e);
    RunOn(y, run, [e]);
  }

  lemma Arriving()
    ensures Feasible(EMPTY, Arrivals) && After(EMPTY, Arrivals) == Arrived
  {
    hide Feasible, After;
    Stops(EMPTY);
    Then(EMPTY, [], Joins(1, WebSocket));
    var one: seq<Event> := [] + [Joins(1, WebSocket)];
    Then(EMPTY, one, Joins(2, WebSocket));
    Then(EMPTY, one + [Joins(2, WebSocket)], Joins(3, WebSocket));
    Then(EMPTY, one + [Joins(2, WebSocket)] + [Joins(3, WebSocket)], Joins(4, WebSocket));
    assert Arrivals == one + [Joins(2, WebSocket)] + [Joins(3, WebSocket)] + [Joins(4, WebSocket)];
    assert Next(Next(Next(Next(EMPTY, Joins(1, WebSocket)), Joins(2, WebSocket)), Joins(3, WebSocket)), Joins(4, WebSocket)).links == Arrived.links;
  }

  lemma WelcomeIsWritten(y: Room, conn: Conn)
    requires conn in y.links && y.links[conn] == Fresh
    ensures Possible(y, Writes(conn)) && Next(y, Writes(conn)) == y.(links := y.links[conn := Idle])
  {
    assert Fresh.waiting[1..] == [] && Fresh.got + [Welcome(None)] == [Welcome(None)];
  }

  lemma Welcoming()
    ensures Feasible(Arrived, Welcomes) && After(Arrived, Welcomes) == Ready
  {
    hide Feasible, After, Written;
    Stops(Arrived);
    WelcomeIsWritten(Arrived, 1);
    Then(Arrived, [], Writes(1));
    var one: seq<Event> := [] + [Writes(1)];
    WelcomeIsWritten(After(Arrived, one), 2);
    Then(Arrived, one, Writes(2));
    WelcomeIsWritten(After(Arrived, one + [Writes(2)]), 3);
    Then(Arrived, one + [Writes(2)], Writes(3));
    WelcomeIsWritten(After(Arrived, one + [Writes(2)] + [Writes(3)]), 4);
    Then(Arrived, one + [Writes(2)] + [Writes(3)], Writes(4));
    assert Welcomes == one + [Writes(2)] + [Writes(3)] + [Writes(4)];
    assert Arrived.links[1 := Idle][2 := Idle][3 := Idle][4 := Idle] == Ready.links;
  }

  /** What one device's next clip does to a room of these four. */
  function Spoken(y: Room, who: Conn, body: string): Room {
    var envelope := Envelope(y.counter + 1, body);
    var targets := {1, 2, 3, 4} - {who};
    Room(y.counter + 1, Some(envelope), y.peers, Asked(y.links, targets, Write(Clip(envelope), Some(y.nextFanout))),
         y.fanouts[y.nextFanout := FanOut(targets, {})], y.nextFanout + 1, y.retired, y.log + [Said(who, body)])
  }

  lemma Speaks(y: Room, who: Conn, body: string)
    requires who in y.links && y.peers == {1, 2, 3, 4}
    ensures Possible(y, Says(who, body)) && Next(y, Says(who, body)) == Spoken(y, who, body)
  {
    hide Asked;
    var other := if who == 1 then 2 else 1;
    assert other in y.peers - {who};
  }

  /** Each clip waits for everyone but the device that said it. */
  const Spoke: Room := Room(3, Some(Envelope(3, "c")), {1, 2, 3, 4},
    map[1 := Idle.(waiting := [B, C]), 2 := Idle.(waiting := [A, B, C]),
        3 := Idle.(waiting := [A, C]), 4 := Idle.(waiting := [A, B])],
    map[0 := FanOut({2, 3, 4}, {}), 1 := FanOut({1, 2, 4}, {}), 2 := FanOut({1, 2, 3}, {})], 3, false, Log)

  const OneSpoke: Room := Room(1, Some(Envelope(1, "a")), {1, 2, 3, 4},
    map[1 := Idle, 2 := Idle.(waiting := [A]), 3 := Idle.(waiting := [A]), 4 := Idle.(waiting := [A])],
    map[0 := FanOut({2, 3, 4}, {})], 1, false, Log[..1])
  const TwoSpoke: Room := Room(2, Some(Envelope(2, "b")), {1, 2, 3, 4},
    map[1 := Idle.(waiting := [B]), 2 := Idle.(waiting := [A, B]), 3 := Idle.(waiting := [A]), 4 := Idle.(waiting := [A, B])],
    map[0 := FanOut({2, 3, 4}, {}), 1 := FanOut({1, 2, 4}, {})], 2, false, Log[..2])

  lemma FirstSpeaks()
    ensures Spoken(Ready, 1, "a") == OneSpoke
  {
    assert {1, 2, 3, 4} - {1} == {2, 3, 4} && [] + [A] == [A] && [] + [Log[0]] == Log[..1];
    assert Spoken(Ready, 1, "a").links == OneSpoke.links;
    assert Spoken(Ready, 1, "a").fanouts == OneSpoke.fanouts;
  }

  lemma ThirdSpeaks()
    ensures Spoken(OneSpoke, 3, "b") == TwoSpoke
  {
    assert {1, 2, 3, 4} - {3} == {1, 2, 4} && [] + [B] == [B] && [A] + [B] == [A, B] && Log[..1] + [Log[1]] == Log[..2];
    assert Spoken(OneSpoke, 3, "b").links == TwoSpoke.links;
    assert Spoken(OneSpoke, 3, "b").fanouts == TwoSpoke.fanouts;
  }

  lemma FourthSpeaks()
    ensures Spoken(TwoSpoke, 4, "c") == Spoke
  {
    assert {1, 2, 3, 4} - {4} == {1, 2, 3} && [A, B] + [C] == [A, B, C] && [A] + [C] == [A, C] && [B] + [C] == [B, C];
    assert Log[..2] + [Log[2]] == Log;
    assert Spoken(TwoSpoke, 4, "c").links == Spoke.links;
    assert Spoken(TwoSpoke, 4, "c").fanouts == Spoke.fanouts;
  }

  lemma TalkRuns()
    ensures Feasible(Ready, Talk) && After(Ready, Talk) == Spoke
  {
    hide Say, Feasible, After, Spoken;
    FirstSpeaks();
    ThirdSpeaks();
    FourthSpeaks();
    Stops(Ready);
    Speaks(Ready, 1, "a");
    Then(Ready, [], Says(1, "a"));
    var one: seq<Event> := [] + [Says(1, "a")];
    Speaks(OneSpoke, 3, "b");
    Then(Ready, one, Says(3, "b"));
    Speaks(TwoSpoke, 4, "c");
    Then(Ready, one + [Says(3, "b")], Says(4, "c"));
    assert Talk == one + [Says(3, "b")] + [Says(4, "c")];
  }

  const Failing: Room := Spoke.(links := Spoke.links[2 := Idle.(waiting := [A, C], lost := 1)],
                                fanouts := Spoke.fanouts[1 := FanOut({1, 4}, {2})])

  lemma ThenFails()
    ensures CanFail(Spoke.links[2], 1) && Failed(Spoke, 2, 1) == Failing
  {
    assert [A, B, C][..1] + [A, B, C][2..] == [A, C];
    assert {1, 2, 4} - {2} == {1, 4} && {} + {2} == {2};
    assert Failed(Spoke, 2, 1).links == Failing.links;
    assert Failed(Spoke, 2, 1).fanouts == Failing.fanouts;
  }

  const Cut: Room := Failing.(links := Failing.links[2 := Idle.(waiting := [C], got := [Welcome(None), A.frame], lost := 1)],
                              fanouts := Failing.fanouts[0 := FanOut({3, 4}, {2})])

  lemma ThenCutsOff()
    ensures CanCut(Failing.links[2]) && CutOff(Failing, 2) == Cut
  {
    assert [A, C][1..] == [C] && [Welcome(None)] + [A.frame] == [Welcome(None), A.frame];
    assert {2, 3, 4} - {2} == {3, 4} && {} + {2} == {2};
    assert CutOff(Failing, 2).links == Cut.links;
    assert CutOff(Failing, 2).fanouts == Cut.fanouts;
  }

  const Gap: Room := Cut.(links := Cut.links[2 := Idle.(got := [Welcome(None), A.frame, C.frame], lost := 1)],
                          fanouts := Cut.fanouts[2 := FanOut({1, 3}, {})])

  lemma ThenWrites()
    ensures CanWrite(Cut.links[2]) && Written(Cut, 2) == Gap
  {
    assert [C][1..] == [] && [Welcome(None), A.frame] + [C.frame] == [Welcome(None), A.frame, C.frame];
    assert {1, 2, 3} - {2} == {1, 3};
    assert Written(Cut, 2).links == Gap.links;
    assert Written(Cut, 2).fanouts == Gap.fanouts;
  }

  lemma TroubleRuns()
    ensures Feasible(Spoke, Trouble) && After(Spoke, Trouble) == Gap
  {
    hide Failed, CutOff, Written, Feasible, After;
    ThenFails();
    ThenCutsOff();
    ThenWrites();
    Stops(Spoke);
    Then(Spoke, [], Fails(2, 1));
    Then(Spoke, [] + [Fails(2, 1)], CutsOff(2));
    Then(Spoke, [] + [Fails(2, 1)] + [CutsOff(2)], Writes(2));
    assert Trouble == [] + [Fails(2, 1)] + [CutsOff(2)] + [Writes(2)];
  }

  lemma WhatItGot()
    ensures Clips(Gap.links[2].got) == [Envelope(1, "a"), Envelope(3, "c")]
  {
    hide Clips;
    ClipsOne(Welcome(None));
    ClipsOne(A.frame);
    ClipsOne(C.frame);
    ClipsConcat([Welcome(None)], [A.frame]);
    ClipsConcat([Welcome(None)] + [A.frame], [C.frame]);
    assert [Welcome(None)] + [A.frame] + [C.frame] == Gap.links[2].got;
    assert [] + [Envelope(1, "a")] + [Envelope(3, "c")] == [Envelope(1, "a"), Envelope(3, "c")];
  }

  lemma WhatItShouldHave()
    ensures Expected(Gap.log, 0, 2) == [Envelope(1, "a"), Envelope(2, "b"), Envelope(3, "c")]
  {
    assert [] + [Log[0]] == Log[..1] && Log[..1] + [Log[1]] == Log[..2] && Log[..2] + [Log[2]] == Log;
    ExpectedGrows([], Log[0], 0, 2);
    ExpectedGrows(Log[..1], Log[1], 0, 2);
    ExpectedGrows(Log[..2], Log[2], 0, 2);
    assert [] + [Envelope(1, "a")] + [Envelope(2, "b")] + [Envelope(3, "c")] == [Envelope(1, "a"), Envelope(2, "b"), Envelope(3, "c")];
  }

  /** While writes to the other peers are still out, the gap is there and so is the peer. */
  lemma GapBeforeSettling()
    ensures Feasible(EMPTY, Arrivals + (Welcomes + (Talk + Trouble)))
    ensures After(EMPTY, Arrivals + (Welcomes + (Talk + Trouble))) == Gap
    ensures 2 in Gap.peers && Suspect(Gap, 2)
    ensures Clips(Gap.links[2].got) == [Envelope(1, "a"), Envelope(3, "c")]
    ensures Expected(Gap.log, 0, 2) == [Envelope(1, "a"), Envelope(2, "b"), Envelope(3, "c")]
  {
    hide After, Feasible, Clips, Expected;
    Arriving();
    Welcoming();
    TalkRuns();
    TroubleRuns();
    RunOn(Ready, Talk, Trouble);
    RunOn(Arrived, Welcomes, Talk + Trouble);
    RunOn(EMPTY, Arrivals, Welcomes + (Talk + Trouble));
    WhatItGot();
    WhatItShouldHave();
    assert 1 in Gap.fanouts && 2 in Gap.fanouts[1].failed;
  }

  // ------------------------------------------------------------------
  // The downstream queue of the fallback transport.
  // ------------------------------------------------------------------

  /** `None` is the sentinel that ends the stream. */
  class SseConnection {
    var queue: seq<Option<Frame>>

    ghost predicate Valid()
      reads this
    {
      |queue| <= SSE_QUEUE_MAX
    }

    constructor ()
      ensures Valid() && queue == []
    {
      queue := [];
    }

    /** Never waits: a full queue is an error, and nothing is queued. */
    method SendText(frame: Frame) returns (ok: bool)
      requires Valid()
      modifies this
      ensures Valid() && ok == (|old(queue)| < SSE_QUEUE_MAX)
      ensures queue == if ok then old(queue) + [Some(frame)] else old(queue)
    {
      ok := |queue| < SSE_QUEUE_MAX;
      if ok {
        queue := queue + [Some(frame)];
      }
    }

    /** The sentinel always lands, at the cost of the oldest frame when there is no room. */
    method End()
      requires Valid()
      modifies this
      ensures Valid() && |queue| > 0 && queue[|queue| - 1] == None
      ensures queue == (if |old(queue)| < SSE_QUEUE_MAX then old(queue) else old(queue)[1..]) + [None]
    {
      if |queue| < SSE_QUEUE_MAX {
        queue := queue + [None];
        return;
      }
      queue := queue[1..];
      queue := queue + [None];
    }
  }
}
