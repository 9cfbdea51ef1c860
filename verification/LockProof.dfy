/**
 Proving a locked session: `createVerifier` of src/core/verify.js on every device of a
 room, with the VERIFY branch of src/main.js `onFrame`. Whoever is in the room holds the
 key, so every frame opens.

 The relay forwards what it is sent and remembers nothing of it. The fallback transport
 posts a frame a second time when the first POST did not report back, and the relay may
 have taken both: then every device gets that frame twice.
 */
module LockProof {

  import opened Options

  const VERIFY_MIN_INTERVAL: int := 3_000

  // ------------------------------------------------------------------
  // One device.
  // ------------------------------------------------------------------

  /** `lastAsk` is None when it never asked in this epoch, so that no time stands for it. */
  datatype Device = Device(gen: nat, epoch: nat, eligible: bool, verified: bool, lastAsk: Option<int>)

  /** What a seal under way remembers. */
  datatype Ticket = Ticket(gen: nat, epoch: nat, probe: bool)

  /** `transmit`, up to the seal. */
  function Begin(d: Device, probe: bool): Option<Ticket> {
    if d.eligible then Some(Ticket(d.gen, d.epoch, probe)) else None
  }

  /** `transmit`, from the seal on. */
  predicate MaySend(d: Device, ticket: Ticket) {
    ticket.gen == d.gen && ticket.epoch == d.epoch && d.eligible
  }

  predicate TooSoon(d: Device, now: int) {
    d.lastAsk.Some? && now - d.lastAsk.value < VERIFY_MIN_INTERVAL
  }

  /** `request`: only unverified and in company. An attempt that cannot be made leaves the interval alone. */
  function Question(d: Device, peers: nat, now: int): (Device, Option<Ticket>) {
    if d.verified || peers <= 1 || !d.eligible || TooSoon(d, now) then (d, None)
    else (d.(lastAsk := Some(now)), Begin(d, true))
  }

  /** `answer`: to a question, and to nothing else. */
  function Reply(d: Device, probe: bool, own: bool): Option<Ticket> {
    if probe && !own then Begin(d, false) else None
  }

  /** `announce`: an answer to nobody. */
  function Unasked(d: Device, peers: nat): Option<Ticket> {
    if peers > 1 then Begin(d, false) else None
  }

  /** `cancel`: what is in flight is abandoned, and a new room may be asked at once. */
  function Cancelled(d: Device): Device {
    d.(epoch := d.epoch + 1, lastAsk := None)
  }

  // ------------------------------------------------------------------
  // The room.
  // ------------------------------------------------------------------

  /** One frame of the exchange at one device: whose question it belongs to, and whether it is the question. */
  datatype Item = Item(device: nat, probe: bool, cause: nat)

  /** A seal under way. */
  datatype Job = Job(item: Item, ticket: Ticket)

  /** History: a frame put on the wire, where it was then, and how often it was posted. */
  datatype Sent = Sent(job: Job, gen: nat, epoch: nat, posts: nat)

  /** History: the device that started an exchange, whether it asked or announced, and when. */
  datatype Ask = Ask(device: nat, probe: bool, at: int, epoch: nat)

  datatype Room = Room(devices: seq<Device>, asks: seq<Ask>, sealing: seq<Job>, flight: seq<Item>, sent: seq<Sent>)

  function Start(n: nat): Room {
    Room(seq(n, _ => Device(0, 0, true, false, None)), [], [], [], [])
  }

  /** A new exchange begins. */
  function Begun(y: Room, i: nat, ticket: Ticket, now: int): Room
    requires i < |y.devices|
  {
    y.(asks := y.asks + [Ask(i, ticket.probe, now, y.devices[i].epoch)],
       sealing := y.sealing + [Job(Item(i, ticket.probe, |y.asks|), ticket)])
  }

  function Request(y: Room, i: nat, peers: nat, now: int): Room
    requires i < |y.devices|
  {
    var (d, ticket) := Question(y.devices[i], peers, now);
    if ticket.None? then y else Begun(y, i, ticket.value, now).(devices := y.devices[i := d])
  }

  function Announce(y: Room, i: nat, peers: nat, now: int): Room
    requires i < |y.devices|
  {
    var ticket := Unasked(y.devices[i], peers);
    if ticket.None? then y else Begun(y, i, ticket.value, now)
  }

  /** One copy for everybody else. */
  function Others(n: nat, item: Item): seq<Item> {
    if n == 0 then []
    else Others(n - 1, item) + (if n - 1 == item.device then [] else [Item(n - 1, item.probe, item.cause)])
  }

  function Without<T>(s: seq<T>, k: nat): seq<T>
    requires k < |s|
  {
    s[..k] + s[k + 1..]
  }

  function Finish(y: Room, k: nat): Room
    requires k < |y.sealing| && y.sealing[k].item.device < |y.devices|
  {
    var job := y.sealing[k];
    var d := y.devices[job.item.device];
    var y1 := y.(sealing := Without(y.sealing, k));
    if !MaySend(d, job.ticket) then y1
    else y1.(sent := y.sent + [Sent(job, d.gen, d.epoch, 1)], flight := y.flight + Others(|y.devices|, job.item))
  }

  /** The transport posts a frame once more, and the relay had taken it before. */
  function Repeat(y: Room, k: nat): Room
    requires k < |y.sent|
  {
    y.(sent := y.sent[k := y.sent[k].(posts := y.sent[k].posts + 1)],
       flight := y.flight + Others(|y.devices|, y.sent[k].job.item))
  }

  /** A frame opens, which verifies the device; a question is answered, an answer is not. */
  function Receive(y: Room, k: nat): Room
    requires k < |y.flight| && y.flight[k].device < |y.devices|
  {
    var item := y.flight[k];
    var d := y.devices[item.device].(verified := true);
    var ticket := Reply(d, item.probe, false);
    var y1 := y.(flight := Without(y.flight, k), devices := y.devices[item.device := d]);
    if ticket.None? then y1
    else y1.(sealing := y.sealing + [Job(Item(item.device, false, item.cause), ticket.value)])
  }

  datatype Event =
    | Requests(i: nat, peers: nat, now: int)
    | Announces(i: nat, peers: nat, now: int)
    | Seals(k: nat)
    | Repeats(k: nat)
    | Arrives(k: nat)
    | Loses(k: nat)
    | Turns(i: nat, eligible: bool)
    | Cancels(i: nat)
    | Moves(i: nat)

  /** A frame is posted twice at most. */
  predicate Possible(y: Room, e: Event) {
    match e
    case Requests(i, _, _) => i < |y.devices|
    case Announces(i, _, _) => i < |y.devices|
    case Seals(k) => k < |y.sealing| && y.sealing[k].item.device < |y.devices|
    case Repeats(k) => k < |y.sent| && y.sent[k].posts == 1
    case Arrives(k) => k < |y.flight| && y.flight[k].device < |y.devices|
    case Loses(k) => k < |y.flight|
    case Turns(i, _) => i < |y.devices|
    case Cancels(i) => i < |y.devices|
    case Moves(i) => i < |y.devices|
  }

  function Next(y: Room, e: Event): Room
    requires Possible(y, e)
  {
    match e
    case Requests(i, peers, now) => Request(y, i, peers, now)
    case Announces(i, peers, now) => Announce(y, i, peers, now)
    case Seals(k) => Finish(y, k)
    case Repeats(k) => Repeat(y, k)
    case Arrives(k) => Receive(y, k)
    case Loses(k) => y.(flight := Without(y.flight, k))
    case Turns(i, eligible) => y.(devices := y.devices[i := y.devices[i].(eligible := eligible)])
    case Cancels(i) => y.(devices := y.devices[i := Cancelled(y.devices[i])])
    case Moves(i) =>
      y.(devices := y.devices[i := Cancelled(y.devices[i]).(gen := y.devices[i].gen + 1, verified := false)])
  }

  // ------------------------------------------------------------------
  // Counting.
  // ------------------------------------------------------------------

  function Times(items: seq<Item>, x: Item): nat {
    if items == [] then 0 else Times(items[..|items| - 1], x) + (if items[|items| - 1] == x then 1 else 0)
  }

  function JobItems(jobs: seq<Job>): seq<Item> {
    seq(|jobs|, i requires 0 <= i < |jobs| => jobs[i].item)
  }

  function SentItems(sent: seq<Sent>): seq<Item> {
    seq(|sent|, i requires 0 <= i < |sent| => sent[i].job.item)
  }

  /** How often a frame was posted. */
  function Copies(sent: seq<Sent>, x: Item): nat {
    if sent == [] then 0
    else Copies(sent[..|sent| - 1], x) + (if sent[|sent| - 1].job.item == x then sent[|sent| - 1].posts else 0)
  }

  /** A question at its asker: being sealed, or sent. */
  function Asked(y: Room, i: nat, cause: nat): nat {
    Times(JobItems(y.sealing), Item(i, true, cause)) + Times(SentItems(y.sent), Item(i, true, cause))
  }

  /** An answer at a device: still to come, being sealed, or sent. */
  function Answered(y: Room, i: nat, cause: nat): nat {
    Times(y.flight, Item(i, true, cause)) + Times(JobItems(y.sealing), Item(i, false, cause))
    + Times(SentItems(y.sent), Item(i, false, cause))
  }

  /** One answer for each copy of the question, and an announcement at its own device. */
  function Allowance(y: Room, i: nat, cause: nat): nat {
    if cause >= |y.asks| then 0
    else if y.asks[cause].probe then
      if y.asks[cause].device == i then 0 else Copies(y.sent, Item(y.asks[cause].device, true, cause))
    else if y.asks[cause].device == i then 1 else 0
  }

  ghost predicate CauseInv(y: Room, i: nat, cause: nat) {
    && Asked(y, i, cause) <= (if cause < |y.asks| && y.asks[cause].probe && y.asks[cause].device == i then 1 else 0)
    && Answered(y, i, cause) <= Allowance(y, i, cause)
  }

  ghost predicate Placed(y: Room) {
    && (forall k :: 0 <= k < |y.sealing| ==> y.sealing[k].item.device < |y.devices|)
    && (forall k :: 0 <= k < |y.flight| ==> y.flight[k].device < |y.devices|)
  }

  ghost predicate Stamped(y: Room) {
    forall k :: 0 <= k < |y.sent| ==>
      && y.sent[k].gen == y.sent[k].job.ticket.gen && y.sent[k].epoch == y.sent[k].job.ticket.epoch
      && y.sent[k].job.item.device < |y.devices| && 1 <= y.sent[k].posts <= 2
  }

  ghost predicate Inv(y: Room) {
    Placed(y) && Stamped(y) && forall i: nat, cause: nat :: CauseInv(y, i, cause)
  }

  lemma {:induction false} TimesConcat(a: seq<Item>, b: seq<Item>, x: Item)
    ensures Times(a + b, x) == Times(a, x) + Times(b, x)
    decreases |b|
  {
    if b == [] {
      assert a + b == a;
    } else {
      assert (a + b)[..|a + b| - 1] == a + b[..|b| - 1];
      TimesConcat(a, b[..|b| - 1], x);
    }
  }

  lemma TimesOne(y: Item, x: Item)
    ensures Times([y], x) == if y == x then 1 else 0
  {
    assert [y][..0] == [];
  }

  lemma TimesWithout(items: seq<Item>, k: nat, x: Item)
    requires k < |items|
    ensures Times(Without(items, k), x) == Times(items, x) - (if items[k] == x then 1 else 0)
  {
    assert items == items[..k] + [items[k]] + items[k + 1..];
    TimesConcat(items[..k] + [items[k]], items[k + 1..], x);
    TimesConcat(items[..k], [items[k]], x);
    TimesConcat(items[..k], items[k + 1..], x);
    TimesOne(items[k], x);
  }

  lemma JobsMore(jobs: seq<Job>, job: Job, x: Item)
    ensures Times(JobItems(jobs + [job]), x) == Times(JobItems(jobs), x) + (if job.item == x then 1 else 0)
  {
    assert JobItems(jobs + [job]) == JobItems(jobs) + [job.item];
    TimesConcat(JobItems(jobs), [job.item], x);
    TimesOne(job.item, x);
  }

  lemma JobsFewer(jobs: seq<Job>, k: nat, x: Item)
    requires k < |jobs|
    ensures Times(JobItems(Without(jobs, k)), x) == Times(JobItems(jobs), x) - (if jobs[k].item == x then 1 else 0)
  {
    assert JobItems(Without(jobs, k)) == Without(JobItems(jobs), k);
    TimesWithout(JobItems(jobs), k, x);
  }

  lemma SentMore(sent: seq<Sent>, s: Sent, x: Item)
    ensures Times(SentItems(sent + [s]), x) == Times(SentItems(sent), x) + (if s.job.item == x then 1 else 0)
  {
    assert SentItems(sent + [s]) == SentItems(sent) + [s.job.item];
    TimesConcat(SentItems(sent), [s.job.item], x);
    TimesOne(s.job.item, x);
  }

  lemma {:induction false} OthersOnce(n: nat, item: Item, x: Item)
    ensures Times(Others(n, item), x)
         == if x.device < n && x.device != item.device && x.probe == item.probe && x.cause == item.cause then 1 else 0
    ensures forall k :: 0 <= k < |Others(n, item)| ==> Others(n, item)[k].device < n
  {
    if n > 0 {
      OthersOnce(n - 1, item, x);
      TimesConcat(Others(n - 1, item), if n - 1 == item.device then [] else [Item(n - 1, item.probe, item.cause)], x);
      TimesOne(Item(n - 1, item.probe, item.cause), x);
    }
  }

  lemma CopiesMore(sent: seq<Sent>, s: Sent, x: Item)
    ensures Copies(sent + [s], x) == Copies(sent, x) + (if s.job.item == x then s.posts else 0)
  {
    assert (sent + [s])[..|sent|] == sent;
  }

  lemma {:induction false} CopiesPosted(sent: seq<Sent>, k: nat, x: Item)
    requires k < |sent|
    ensures Copies(sent[k := sent[k].(posts := sent[k].posts + 1)], x) == Copies(sent, x) + (if sent[k].job.item == x then 1 else 0)
    ensures SentItems(sent[k := sent[k].(posts := sent[k].posts + 1)]) == SentItems(sent)
    decreases |sent|
  {
    var after := sent[k := sent[k].(posts := sent[k].posts + 1)];
    var n := |sent| - 1;
    assert SentItems(after) == SentItems(sent);
    if k == n {
      assert after[..n] == sent[..n];
    } else {
      assert after[..n] == sent[..n][k := sent[k].(posts := sent[k].posts + 1)];
      CopiesPosted(sent[..n], k, x);
    }
  }

  lemma {:induction false} CopiesAtMost(sent: seq<Sent>, x: Item)
    requires forall k :: 0 <= k < |sent| ==> 1 <= sent[k].posts <= 2
    ensures Copies(sent, x) <= 2 * Times(SentItems(sent), x)
    ensures (forall k :: 0 <= k < |sent| && sent[k].job.item == x ==> sent[k].posts == 1) ==> Copies(sent, x) == Times(SentItems(sent), x)
    decreases |sent|
  {
    if sent != [] {
      var front, last := sent[..|sent| - 1], sent[|sent| - 1];
      assert sent == front + [last];
      CopiesAtMost(front, x);
      SentMore(front, last, x);
    }
  }

  // ------------------------------------------------------------------
  // Every step keeps it.
  // ------------------------------------------------------------------

  /** The start of an exchange: its cause is new. */
  lemma BegunInv(y: Room, i: nat, ticket: Ticket, now: int)
    requires Inv(y) && i < |y.devices|
    ensures Inv(Begun(y, i, ticket, now))
  {
    var z := Begun(y, i, ticket, now);
    var job := z.sealing[|y.sealing|];
    hide Times, Copies;
    forall j: nat, cause: nat
      ensures CauseInv(z, j, cause)
    {
      assert CauseInv(y, j, cause);
      JobsMore(y.sealing, job, Item(j, true, cause));
      JobsMore(y.sealing, job, Item(j, false, cause));
      if cause == |y.asks| { assert CauseInv(y, i, cause); }
    }
  }

  lemma FinishCause(y: Room, k: nat, j: nat, cause: nat)
    requires Inv(y) && k < |y.sealing|
    ensures CauseInv(Finish(y, k), j, cause)
  {
    hide Times, Others, Without, Copies;
    var job := y.sealing[k];
    var z := Finish(y, k);
    assert CauseInv(y, j, cause) && CauseInv(y, job.item.device, cause);
    JobsFewer(y.sealing, k, Item(j, true, cause));
    JobsFewer(y.sealing, k, Item(j, false, cause));
    JobsFewer(y.sealing, k, Item(job.item.device, true, cause));
    if z.sent != y.sent {
      var s := z.sent[|y.sent|];
      SentMore(y.sent, s, Item(j, true, cause));
      SentMore(y.sent, s, Item(j, false, cause));
      SentMore(y.sent, s, Item(job.item.device, true, cause));
      if cause < |y.asks| { CopiesMore(y.sent, s, Item(y.asks[cause].device, true, cause)); }
      TimesConcat(y.flight, Others(|y.devices|, job.item), Item(j, true, cause));
      OthersOnce(|y.devices|, job.item, Item(j, true, cause));
    }
  }

  lemma FinishInv(y: Room, k: nat)
    requires Inv(y) && k < |y.sealing|
    ensures Inv(Finish(y, k))
  {
    hide CauseInv;
    var z := Finish(y, k);
    OthersOnce(|y.devices|, y.sealing[k].item, y.sealing[k].item);
    forall j: nat, cause: nat
      ensures CauseInv(z, j, cause)
    {
      FinishCause(y, k, j, cause);
    }
  }

  lemma {:induction false} SentThere(sent: seq<Sent>, k: nat)
    requires k < |sent|
    ensures Times(SentItems(sent), sent[k].job.item) > 0
    decreases |sent|
  {
    var front, last := sent[..|sent| - 1], sent[|sent| - 1];
    assert sent == front + [last];
    SentMore(front, last, sent[k].job.item);
    if k < |front| { SentThere(front, k); }
  }

  /** Another copy of a question is another answer everybody may give; of an answer, nothing. */
  lemma RepeatCause(y: Room, k: nat, j: nat, cause: nat)
    requires Inv(y) && k < |y.sent|
    ensures CauseInv(Repeat(y, k), j, cause)
  {
    hide Times, Others, Copies;
    var item := y.sent[k].job.item;
    assert CauseInv(y, j, cause) && CauseInv(y, item.device, cause);
    SentThere(y.sent, k);
    CopiesPosted(y.sent, k, item);
    if cause < |y.asks| { CopiesPosted(y.sent, k, Item(y.asks[cause].device, true, cause)); }
    TimesConcat(y.flight, Others(|y.devices|, item), Item(j, true, cause));
    OthersOnce(|y.devices|, item, Item(j, true, cause));
  }

  lemma RepeatInv(y: Room, k: nat)
    requires Inv(y) && k < |y.sent| && y.sent[k].posts == 1
    ensures Inv(Repeat(y, k))
  {
    hide CauseInv;
    var z := Repeat(y, k);
    OthersOnce(|y.devices|, y.sent[k].job.item, y.sent[k].job.item);
    forall j: nat, cause: nat
      ensures CauseInv(z, j, cause)
    {
      RepeatCause(y, k, j, cause);
    }
  }

  lemma ReceiveCause(y: Room, k: nat, j: nat, cause: nat)
    requires Inv(y) && k < |y.flight|
    ensures CauseInv(Receive(y, k), j, cause)
  {
    hide Times, Without, Copies;
    var z := Receive(y, k);
    assert CauseInv(y, j, cause);
    TimesWithout(y.flight, k, Item(j, true, cause));
    if z.sealing != y.sealing {
      var job := z.sealing[|y.sealing|];
      JobsMore(y.sealing, job, Item(j, true, cause));
      JobsMore(y.sealing, job, Item(j, false, cause));
    }
  }

  lemma ReceiveInv(y: Room, k: nat)
    requires Inv(y) && k < |y.flight|
    ensures Inv(Receive(y, k))
  {
    hide CauseInv;
    var z := Receive(y, k);
    forall j: nat, cause: nat
      ensures CauseInv(z, j, cause)
    {
      ReceiveCause(y, k, j, cause);
    }
  }

  lemma LosesInv(y: Room, k: nat)
    requires Inv(y) && k < |y.flight|
    ensures Inv(y.(flight := Without(y.flight, k)))
  {
    hide Times, Copies;
    var z := y.(flight := Without(y.flight, k));
    forall j: nat, cause: nat
      ensures CauseInv(z, j, cause)
    {
      assert CauseInv(y, j, cause);
      TimesWithout(y.flight, k, Item(j, true, cause));
    }
  }

  lemma SameFrames(y: Room, z: Room)
    requires Inv(y) && z == y.(devices := z.devices) && |z.devices| == |y.devices|
    ensures Inv(z)
  {
    forall j: nat, cause: nat
      ensures CauseInv(z, j, cause)
    {
      assert CauseInv(y, j, cause);
    }
  }

  lemma NextInv(y: Room, e: Event)
    requires Inv(y) && Possible(y, e)
    ensures Inv(Next(y, e))
  {
    hide Inv, Begun, Finish, Repeat, Receive, Without;
    match e {
      case Requests(i, peers, now) => RequestInv(y, i, peers, now);
      case Announces(i, peers, now) => if Unasked(y.devices[i], peers).Some? { BegunInv(y, i, Unasked(y.devices[i], peers).value, now); }
      case Seals(k) => FinishInv(y, k);
      case Repeats(k) => RepeatInv(y, k);
      case Arrives(k) => ReceiveInv(y, k);
      case Loses(k) => LosesInv(y, k);
      case _ => SameFrames(y, Next(y, e));
    }
  }

  lemma RequestInv(y: Room, i: nat, peers: nat, now: int)
    requires Inv(y) && i < |y.devices|
    ensures Inv(Request(y, i, peers, now))
  {
    var (d, ticket) := Question(y.devices[i], peers, now);
    if ticket.Some? {
      BegunInv(y, i, ticket.value, now);
      SameFrames(Begun(y, i, ticket.value, now), Request(y, i, peers, now));
    }
  }

  // ------------------------------------------------------------------
  // Every run.
  // ------------------------------------------------------------------

  predicate Feasible(y: Room, run: seq<Event>)
    decreases |run|
  {
    run == [] || (Possible(y, run[0]) && Feasible(Next(y, run[0]), run[1..]))
  }

  function After(y: Room, run: seq<Event>): Room
    requires Feasible(y, run)
    decreases |run|
  {
    if run == [] then y else After(Next(y, run[0]), run[1..])
  }

  lemma {:induction false} RunInv(y: Room, run: seq<Event>)
    requires Inv(y) && Feasible(y, run)
    ensures Inv(After(y, run)) && |After(y, run).devices| == |y.devices|
    decreases |run|
  {
    hide Inv, Possible;
    if run != [] {
      NextInv(y, run[0]);
      SameSize(y, run[0]);
      hide Next;
      RunInv(Next(y, run[0]), run[1..]);
    }
  }

  lemma SameSize(y: Room, e: Event)
    requires Possible(y, e)
    ensures |Next(y, e).devices| == |y.devices|
  {
  }

  lemma StartInv(n: nat)
    ensures Inv(Start(n))
  {
  }

  function OfCause(sent: seq<Sent>, cause: nat, probe: bool): nat {
    if sent == [] then 0
    else
      var last := sent[|sent| - 1].job.item;
      OfCause(sent[..|sent| - 1], cause, probe) + (if last.cause == cause && last.probe == probe then 1 else 0)
  }

  /** Frames by device. */
  function Summed(sent: seq<Sent>, n: nat, cause: nat, probe: bool): nat {
    if n == 0 then 0 else Summed(sent, n - 1, cause, probe) + Times(SentItems(sent), Item(n - 1, probe, cause))
  }

  lemma {:induction false} SummedAll(sent: seq<Sent>, n: nat, cause: nat, probe: bool)
    requires forall k :: 0 <= k < |sent| ==> sent[k].job.item.device < n
    ensures OfCause(sent, cause, probe) == Summed(sent, n, cause, probe)
    decreases |sent|
  {
    if sent == [] {
      SummedNone(n, cause, probe);
    } else {
      var front, last := sent[..|sent| - 1], sent[|sent| - 1];
      assert sent == front + [last];
      SummedAll(front, n, cause, probe);
      SummedMore(front, last, n, cause, probe);
    }
  }

  lemma {:induction false} SummedNone(n: nat, cause: nat, probe: bool)
    ensures Summed([], n, cause, probe) == 0
  {
    if n > 0 { SummedNone(n - 1, cause, probe); }
  }

  lemma {:induction false} SummedMore(sent: seq<Sent>, s: Sent, n: nat, cause: nat, probe: bool)
    ensures Summed(sent + [s], n, cause, probe)
         == Summed(sent, n, cause, probe)
            + (if s.job.item.device < n && s.job.item.cause == cause && s.job.item.probe == probe then 1 else 0)
  {
    if n > 0 {
      SummedMore(sent, s, n - 1, cause, probe);
      SentMore(sent, s, Item(n - 1, probe, cause));
    }
  }

  /** Every device but the asker at most once for each copy. */
  lemma {:induction false} SummedAtMost(y: Room, n: nat, cause: nat)
    requires Inv(y) && cause < |y.asks| && y.asks[cause].probe
    ensures Summed(y.sent, n, cause, false)
         <= (if y.asks[cause].device < n then n - 1 else n) * Copies(y.sent, Item(y.asks[cause].device, true, cause))
    ensures Summed(y.sent, n, cause, true) <= if y.asks[cause].device < n then 1 else 0
  {
    hide Times, Copies;
    if n > 0 {
      SummedAtMost(y, n - 1, cause);
      assert CauseInv(y, n - 1, cause);
      var m, c := if y.asks[cause].device < n - 1 then n - 2 else n - 1, Copies(y.sent, Item(y.asks[cause].device, true, cause));
      assert (m + 1) * c == m * c + c;
    }
  }

  lemma AskerIsHere(y: Room, e: Event)
    requires Possible(y, e) && forall c :: 0 <= c < |y.asks| ==> y.asks[c].device < |y.devices|
    ensures forall c :: 0 <= c < |Next(y, e).asks| ==> Next(y, e).asks[c].device < |y.devices|
  {
  }

  lemma {:induction false} AskersAreHere(y: Room, run: seq<Event>)
    requires Feasible(y, run) && forall c :: 0 <= c < |y.asks| ==> y.asks[c].device < |y.devices|
    ensures forall c :: 0 <= c < |After(y, run).asks| ==> After(y, run).asks[c].device < |y.devices|
    decreases |run|
  {
    hide Next, Possible;
    if run != [] {
      AskerIsHere(y, run[0]);
      SameSize(y, run[0]);
      AskersAreHere(Next(y, run[0]), run[1..]);
    }
  }

  /**
   One question, ever, and at most one answer from each other device for each time it was
   posted; and it was posted twice at most.
   */
  lemma OneExchange(n: nat, run: seq<Event>, cause: nat)
    requires Feasible(Start(n), run) && cause < |After(Start(n), run).asks| && After(Start(n), run).asks[cause].probe
    ensures var y := After(Start(n), run); var posted := Copies(y.sent, Item(y.asks[cause].device, true, cause));
            && n > 0 && OfCause(y.sent, cause, true) <= 1 && posted <= 2
            && OfCause(y.sent, cause, false) <= (n - 1) * posted
  {
    hide After, Feasible, CauseInv, Times, Copies;
    StartInv(n);
    RunInv(Start(n), run);
    AskersAreHere(Start(n), run);
    var y := After(Start(n), run);
    SummedAll(y.sent, n, cause, true);
    SummedAll(y.sent, n, cause, false);
    SummedAtMost(y, n, cause);
    AskedOnce(y, cause);
    CopiesAtMost(y.sent, Item(y.asks[cause].device, true, cause));
  }

  lemma AskedOnce(y: Room, cause: nat)
    requires Inv(y) && cause < |y.asks|
    ensures Times(SentItems(y.sent), Item(y.asks[cause].device, true, cause)) <= 1
  {
    assert CauseInv(y, y.asks[cause].device, cause);
  }

  /** The transport never posted this question again. */
  predicate PostedOnce(y: Room, cause: nat) {
    forall k :: 0 <= k < |y.sent| && y.sent[k].job.item.cause == cause && y.sent[k].job.item.probe ==> y.sent[k].posts == 1
  }

  /** Then there are n - 1 answers at most. */
  lemma AnsweredOnceEach(n: nat, run: seq<Event>, cause: nat)
    requires Feasible(Start(n), run) && cause < |After(Start(n), run).asks| && After(Start(n), run).asks[cause].probe
    requires PostedOnce(After(Start(n), run), cause)
    ensures n > 0 && OfCause(After(Start(n), run).sent, cause, false) <= n - 1
  {
    hide After, Feasible, CauseInv, Times, Copies;
    OneExchange(n, run, cause);
    StartInv(n);
    RunInv(Start(n), run);
    var y := After(Start(n), run);
    var x := Item(y.asks[cause].device, true, cause);
    AskedOnce(y, cause);
    CopiesAtMost(y.sent, x);
    assert (n - 1) * Copies(y.sent, x) <= n - 1;
  }

  /** An announcement is one frame, posted twice at most, and nobody answers it. */
  lemma OneAnnouncement(n: nat, run: seq<Event>, cause: nat)
    requires Feasible(Start(n), run) && cause < |After(Start(n), run).asks| && !After(Start(n), run).asks[cause].probe
    ensures var y := After(Start(n), run);
            && OfCause(y.sent, cause, true) == 0 && OfCause(y.sent, cause, false) <= 1
            && forall k :: 0 <= k < |y.sent| ==> y.sent[k].posts <= 2
  {
    hide After, Feasible, CauseInv, Times, Copies;
    StartInv(n);
    RunInv(Start(n), run);
    var y := After(Start(n), run);
    SummedAll(y.sent, n, cause, true);
    SummedAll(y.sent, n, cause, false);
    SummedAnnounced(y, n, cause);
  }

  lemma {:induction false} SummedAnnounced(y: Room, n: nat, cause: nat)
    requires Inv(y) && cause < |y.asks| && !y.asks[cause].probe
    ensures Summed(y.sent, n, cause, false) <= if y.asks[cause].device < n then 1 else 0
    ensures Summed(y.sent, n, cause, true) == 0
  {
    if n > 0 {
      SummedAnnounced(y, n - 1, cause);
      assert CauseInv(y, n - 1, cause);
    }
  }

  /** No proof sealed in one session or epoch is sent in another. */
  lemma SentWhereSealed(n: nat, run: seq<Event>, k: nat)
    requires Feasible(Start(n), run) && k < |After(Start(n), run).sent|
    ensures var s := After(Start(n), run).sent[k]; s.gen == s.job.ticket.gen && s.epoch == s.job.ticket.epoch
  {
    hide After, Feasible, CauseInv;
    StartInv(n);
    RunInv(Start(n), run);
  }

  // ------------------------------------------------------------------
  // One exchange verifies both of its ends.
  // ------------------------------------------------------------------

  /** A frame of the exchange is being sealed, and its device is where it was when that began. */
  ghost predicate Sealing(y: Room, item: Item) {
    item.device < |y.devices|
    && exists k :: 0 <= k < |y.sealing| && y.sealing[k].item == item && MaySend(y.devices[item.device], y.sealing[k].ticket)
  }

  /** The question of `i` on its way to `j`, or its answer on the way back, or nothing left to do. */
  ghost predicate Underway(y: Room, i: nat, j: nat, cause: nat) {
    && i < |y.devices| && j < |y.devices| && i != j && y.devices[i].eligible && y.devices[j].eligible
    && (|| Sealing(y, Item(i, true, cause))
        || Item(j, true, cause) in y.flight
        || (&& y.devices[j].verified
            && (Sealing(y, Item(j, false, cause)) || Item(i, false, cause) in y.flight || y.devices[i].verified)))
  }

  /** Neither device leaves its session or stops being eligible, and no frame between them is lost. */
  predicate Spares(y: Room, e: Event, i: nat, j: nat, cause: nat)
    requires Possible(y, e)
  {
    match e
    case Loses(k) => y.flight[k] != Item(j, true, cause) && y.flight[k] != Item(i, false, cause)
    case Turns(d, eligible) => d == i || d == j ==> eligible
    case Cancels(d) => d != i && d != j
    case Moves(d) => d != i && d != j
    case _ => true
  }

  predicate Spared(y: Room, run: seq<Event>, i: nat, j: nat, cause: nat)
    requires Feasible(y, run)
    decreases |run|
  {
    run == [] || (Spares(y, run[0], i, j, cause) && Spared(Next(y, run[0]), run[1..], i, j, cause))
  }

  /** No frame of this exchange is being sealed or is on the wire. */
  predicate Over(y: Room, cause: nat) {
    && (forall k :: 0 <= k < |y.sealing| ==> y.sealing[k].item.cause != cause)
    && (forall k :: 0 <= k < |y.flight| ==> y.flight[k].cause != cause)
  }

  lemma StaysWithout<T>(s: seq<T>, k: nat, m: nat)
    requires k < |s| && m < |s| && m != k
    ensures |Without(s, k)| == |s| - 1 && s[m] in Without(s, k)
    ensures Without(s, k)[if m < k then m else m - 1] == s[m]
  {
  }

  lemma StillSealing(y: Room, z: Room, item: Item, k: nat, m: nat)
    requires k < |y.sealing| && y.sealing[k].item == item && item.device < |y.devices| && |z.devices| == |y.devices|
    requires MaySend(y.devices[item.device], y.sealing[k].ticket)
    requires z.devices[item.device].(verified := y.devices[item.device].verified, lastAsk := y.devices[item.device].lastAsk)
          == y.devices[item.device]
    requires m < |z.sealing| && z.sealing[m] == y.sealing[k]
    ensures Sealing(z, item)
  {
  }

  /** A seal done where it began puts a copy for everybody else on the wire. */
  lemma SealsOnward(y: Room, k: nat, item: Item)
    requires Possible(y, Seals(k)) && Sealing(y, item)
    ensures Sealing(Finish(y, k), item)
         || forall d: nat :: d < |y.devices| && d != item.device ==> Item(d, item.probe, item.cause) in Finish(y, k).flight
  {
    hide Others, Without;
    var m :| 0 <= m < |y.sealing| && y.sealing[m].item == item && MaySend(y.devices[item.device], y.sealing[m].ticket);
    if m != k {
      StaysWithout(y.sealing, k, m);
      StillSealing(y, Finish(y, k), item, m, if m < k then m else m - 1);
    } else {
      forall d: nat | d < |y.devices| && d != item.device
        ensures Item(d, item.probe, item.cause) in Finish(y, k).flight
      {
        var at := WhereAmong(|y.devices|, item, d);
      }
    }
  }

  lemma SealingUnderway(y: Room, k: nat, i: nat, j: nat, cause: nat)
    requires Underway(y, i, j, cause) && Possible(y, Seals(k))
    ensures Underway(Finish(y, k), i, j, cause)
  {
    hide Sealing, Without, Others;
    if Sealing(y, Item(i, true, cause)) { SealsOnward(y, k, Item(i, true, cause)); }
    if Sealing(y, Item(j, false, cause)) { SealsOnward(y, k, Item(j, false, cause)); }
  }

  lemma SealingStays(y: Room, z: Room, item: Item)
    requires Sealing(y, item) && |z.devices| == |y.devices|
    requires z.devices[item.device].(verified := y.devices[item.device].verified, lastAsk := y.devices[item.device].lastAsk)
          == y.devices[item.device]
    requires |z.sealing| >= |y.sealing| && forall k :: 0 <= k < |y.sealing| ==> z.sealing[k] == y.sealing[k]
    ensures Sealing(z, item)
  {
    var k :| 0 <= k < |y.sealing| && y.sealing[k].item == item && MaySend(y.devices[item.device], y.sealing[k].ticket);
    StillSealing(y, z, item, k, k);
  }

  lemma FlightStays(flight: seq<Item>, k: nat, x: Item)
    requires k < |flight| && x in flight && flight[k] != x
    ensures x in Without(flight, k)
  {
    var m :| 0 <= m < |flight| && flight[m] == x;
    StaysWithout(flight, k, m);
  }

  /** What the arrival of the question leaves behind. */
  lemma QuestionArrives(y: Room, k: nat, j: nat, cause: nat)
    requires Possible(y, Arrives(k)) && y.flight[k] == Item(j, true, cause) && y.devices[j].eligible
    ensures Sealing(Receive(y, k), Item(j, false, cause)) && Receive(y, k).devices[j].verified
  {
    hide Without;
    var z := Receive(y, k);
    assert z.sealing[|y.sealing|].item == Item(j, false, cause);
  }

  lemma ArrivingUnderway(y: Room, k: nat, i: nat, j: nat, cause: nat)
    requires Underway(y, i, j, cause) && Possible(y, Arrives(k))
    ensures Underway(Receive(y, k), i, j, cause)
  {
    hide Sealing, Without;
    var z := Receive(y, k);
    if y.flight[k] == Item(j, true, cause) {
      QuestionArrives(y, k, j, cause);
    } else {
      if Sealing(y, Item(i, true, cause)) { SealingStays(y, z, Item(i, true, cause)); }
      if Item(j, true, cause) in y.flight { FlightStays(y.flight, k, Item(j, true, cause)); }
      if Sealing(y, Item(j, false, cause)) { SealingStays(y, z, Item(j, false, cause)); }
      if Item(i, false, cause) in y.flight && y.flight[k] != Item(i, false, cause) {
        FlightStays(y.flight, k, Item(i, false, cause));
      }
    }
  }

  lemma LosingUnderway(y: Room, k: nat, i: nat, j: nat, cause: nat)
    requires Underway(y, i, j, cause) && Possible(y, Loses(k)) && Spares(y, Loses(k), i, j, cause)
    ensures Underway(Next(y, Loses(k)), i, j, cause)
  {
    hide Sealing, Without;
    var z := Next(y, Loses(k));
    if Sealing(y, Item(i, true, cause)) { SealingStays(y, z, Item(i, true, cause)); }
    if Sealing(y, Item(j, false, cause)) { SealingStays(y, z, Item(j, false, cause)); }
    if Item(j, true, cause) in y.flight { FlightStays(y.flight, k, Item(j, true, cause)); }
    if Item(i, false, cause) in y.flight { FlightStays(y.flight, k, Item(i, false, cause)); }
  }

  lemma NextUnderway(y: Room, e: Event, i: nat, j: nat, cause: nat)
    requires Underway(y, i, j, cause) && Possible(y, e) && Spares(y, e, i, j, cause)
    ensures Underway(Next(y, e), i, j, cause)
  {
    hide Sealing, Finish, Receive, Without, Others;
    match e {
      case Seals(k) => SealingUnderway(y, k, i, j, cause);
      case Arrives(k) => ArrivingUnderway(y, k, i, j, cause);
      case Loses(k) => LosingUnderway(y, k, i, j, cause);
      case _ => {
        var z := Next(y, e);
        if Sealing(y, Item(i, true, cause)) { SealingStays(y, z, Item(i, true, cause)); }
        if Sealing(y, Item(j, false, cause)) { SealingStays(y, z, Item(j, false, cause)); }
      }
    }
  }

  lemma {:induction false} RunUnderway(y: Room, run: seq<Event>, i: nat, j: nat, cause: nat)
    requires Underway(y, i, j, cause) && Feasible(y, run) && Spared(y, run, i, j, cause)
    ensures Underway(After(y, run), i, j, cause)
    decreases |run|
  {
    hide Underway, Next, Possible, Spares;
    if run != [] {
      NextUnderway(y, run[0], i, j, cause);
      RunUnderway(Next(y, run[0]), run[1..], i, j, cause);
    }
  }

  lemma OverMeansVerified(y: Room, i: nat, j: nat, cause: nat)
    requires Underway(y, i, j, cause) && Over(y, cause)
    ensures y.devices[i].verified && y.devices[j].verified
  {
  }

  /**
   From any state of any room: an eligible device that may ask does so, and whatever else
   goes on there, once nothing of that exchange is left under way the asker is verified
   and so is every eligible device that was spared.
   */
  lemma MutuallyVerified(y: Room, i: nat, j: nat, peers: nat, now: int, run: seq<Event>)
    requires i < |y.devices| && j < |y.devices| && i != j && peers > 1
    requires y.devices[i].eligible && !y.devices[i].verified && !TooSoon(y.devices[i], now) && y.devices[j].eligible
    requires Feasible(Request(y, i, peers, now), run) && Spared(Request(y, i, peers, now), run, i, j, |y.asks|)
    requires Over(After(Request(y, i, peers, now), run), |y.asks|)
    ensures |After(Request(y, i, peers, now), run).devices| == |y.devices|
    ensures After(Request(y, i, peers, now), run).devices[i].verified
    ensures After(Request(y, i, peers, now), run).devices[j].verified
  {
    hide Underway, Over, After, Feasible, Spared;
    var cause := |y.asks|;
    var y1 := Request(y, i, peers, now);
    AsksUnderway(y, i, j, peers, now);
    RunUnderway(y1, run, i, j, cause);
    RunSameSize(y1, run);
    OverMeansVerified(After(y1, run), i, j, cause);
  }

  lemma AsksUnderway(y: Room, i: nat, j: nat, peers: nat, now: int)
    requires i < |y.devices| && j < |y.devices| && i != j && peers > 1
    requires y.devices[i].eligible && !y.devices[i].verified && !TooSoon(y.devices[i], now) && y.devices[j].eligible
    ensures Underway(Request(y, i, peers, now), i, j, |y.asks|)
  {
    var z := Request(y, i, peers, now);
    assert z.sealing[|y.sealing|].item == Item(i, true, |y.asks|);
  }

  lemma {:induction false} RunSameSize(y: Room, run: seq<Event>)
    requires Feasible(y, run)
    ensures |After(y, run).devices| == |y.devices|
    decreases |run|
  {
    hide Next, Possible;
    if run != [] {
      SameSize(y, run[0]);
      RunSameSize(Next(y, run[0]), run[1..]);
    }
  }

  // ------------------------------------------------------------------
  // An announcement verifies whoever hears it.
  // ------------------------------------------------------------------

  ghost predicate Announcing(y: Room, i: nat, j: nat, cause: nat) {
    && i < |y.devices| && j < |y.devices| && i != j && y.devices[i].eligible
    && (Sealing(y, Item(i, false, cause)) || Item(j, false, cause) in y.flight || y.devices[j].verified)
  }

  /** The announcer stays where and as it is, the other does not leave, and its copy is not lost. */
  predicate Carries(y: Room, e: Event, i: nat, j: nat, cause: nat)
    requires Possible(y, e)
  {
    match e
    case Loses(k) => y.flight[k] != Item(j, false, cause)
    case Turns(d, eligible) => d == i ==> eligible
    case Cancels(d) => d != i
    case Moves(d) => d != i && d != j
    case _ => true
  }

  predicate Carried(y: Room, run: seq<Event>, i: nat, j: nat, cause: nat)
    requires Feasible(y, run)
    decreases |run|
  {
    run == [] || (Carries(y, run[0], i, j, cause) && Carried(Next(y, run[0]), run[1..], i, j, cause))
  }

  lemma NextAnnouncing(y: Room, e: Event, i: nat, j: nat, cause: nat)
    requires Announcing(y, i, j, cause) && Possible(y, e) && Carries(y, e, i, j, cause)
    ensures Announcing(Next(y, e), i, j, cause)
  {
    hide Sealing, Without, Others, Finish;
    var z := Next(y, e);
    FinishKeepsDevices(y, e);
    if Sealing(y, Item(i, false, cause)) {
      if e.Seals? { SealsOnward(y, e.k, Item(i, false, cause)); } else { SealingStays(y, z, Item(i, false, cause)); }
    }
    if Item(j, false, cause) in y.flight && (e.Arrives? || e.Loses?) && y.flight[e.k] != Item(j, false, cause) {
      FlightStays(y.flight, e.k, Item(j, false, cause));
    }
  }

  lemma FinishKeepsDevices(y: Room, e: Event)
    requires Possible(y, e)
    ensures e.Seals? ==> Finish(y, e.k).devices == y.devices && forall x :: x in y.flight ==> x in Finish(y, e.k).flight
  {
  }

  lemma {:induction false} RunAnnouncing(y: Room, run: seq<Event>, i: nat, j: nat, cause: nat)
    requires Announcing(y, i, j, cause) && Feasible(y, run) && Carried(y, run, i, j, cause)
    ensures Announcing(After(y, run), i, j, cause)
    decreases |run|
  {
    hide Announcing, Next, Possible, Carries;
    if run != [] {
      NextAnnouncing(y, run[0], i, j, cause);
      RunAnnouncing(Next(y, run[0]), run[1..], i, j, cause);
    }
  }

  /**
   From any state: an eligible device in company announces, and once nothing of that is
   left under way every other device that was there, eligible or not, is verified.
   */
  lemma AnnouncedIsVerified(y: Room, i: nat, j: nat, peers: nat, now: int, run: seq<Event>)
    requires i < |y.devices| && j < |y.devices| && i != j && peers > 1 && y.devices[i].eligible
    requires Feasible(Announce(y, i, peers, now), run) && Carried(Announce(y, i, peers, now), run, i, j, |y.asks|)
    requires Over(After(Announce(y, i, peers, now), run), |y.asks|)
    ensures |After(Announce(y, i, peers, now), run).devices| == |y.devices|
    ensures After(Announce(y, i, peers, now), run).devices[j].verified
  {
    hide After, Feasible, Carried;
    var cause, z := |y.asks|, Announce(y, i, peers, now);
    assert z.sealing[|y.sealing|].item == Item(i, false, cause);
    RunAnnouncing(z, run, i, j, cause);
    RunSameSize(z, run);
  }

  // ------------------------------------------------------------------
  // And there is such a run.
  // ------------------------------------------------------------------

  lemma {:induction false} WhereAmong(n: nat, item: Item, j: nat) returns (k: nat)
    requires j < n && j != item.device
    ensures k < |Others(n, item)| && Others(n, item)[k] == Item(j, item.probe, item.cause)
  {
    if j == n - 1 {
      k := |Others(n - 1, item)|;
    } else {
      k := WhereAmong(n - 1, item, j);
    }
  }

  lemma One(y: Room, e: Event, rest: seq<Event>)
    requires Possible(y, e) && Feasible(Next(y, e), rest)
    ensures Feasible(y, [e] + rest) && After(y, [e] + rest) == After(Next(y, e), rest)
  {
    assert ([e] + rest)[1..] == rest;
  }

  /** A seal done where it began, and the frame at the other device. */
  lemma Crosses(y: Room, i: nat, j: nat, probe: bool, cause: nat) returns (k: nat)
    requires i < |y.devices| && j < |y.devices| && i != j && y.devices[i].eligible && y.sealing != []
    requires y.sealing[|y.sealing| - 1] == Job(Item(i, probe, cause), Ticket(y.devices[i].gen, y.devices[i].epoch, probe))
    ensures var z := Finish(y, |y.sealing| - 1);
            && z.devices == y.devices && k < |z.flight| && z.flight[k] == Item(j, probe, cause)
            && z.sealing == y.sealing[..|y.sealing| - 1] && z.asks == y.asks
            && |z.sent| == |y.sent| + 1 && z.sent[..|y.sent|] == y.sent
            && z.sent[|y.sent|].job.item == Item(i, probe, cause) && z.sent[|y.sent|].posts == 1
  {
    var m := WhereAmong(|y.devices|, Item(i, probe, cause), j);
    k := |y.flight| + m;
    assert y.sealing[|y.sealing|..] == [];
  }

  /** It takes five steps: a question, its answer, and both devices are verified. */
  lemma VerifiedInFive(y: Room, i: nat, j: nat, peers: nat, now: int) returns (run: seq<Event>)
    requires i < |y.devices| && j < |y.devices| && i != j && peers > 1
    requires y.devices[i].eligible && !y.devices[i].verified && !TooSoon(y.devices[i], now) && y.devices[j].eligible
    ensures Feasible(y, run) && |After(y, run).devices| == |y.devices|
    ensures After(y, run).devices[i].verified && After(y, run).devices[j].verified
    ensures |run| == 5
  {
    hide After, Feasible, Finish, Without;
    var n, cause := |y.sealing|, |y.asks|;
    var y1 := Request(y, i, peers, now);
    var p := Crosses(y1, i, j, true, cause);
    var y2 := Finish(y1, n);
    var y3 := Receive(y2, p);
    var q := Crosses(y3, j, i, false, cause);
    var y4 := Finish(y3, n);
    var y5 := Receive(y4, q);
    run := [Requests(i, peers, now)] + ([Seals(n)] + ([Arrives(p)] + ([Seals(n)] + [Arrives(q)])));
    Stops(y5);
    One(y4, Arrives(q), []);
    assert [Arrives(q)] + [] == [Arrives(q)];
    One(y3, Seals(n), [Arrives(q)]);
    One(y2, Arrives(p), [Seals(n)] + [Arrives(q)]);
    One(y1, Seals(n), [Arrives(p)] + ([Seals(n)] + [Arrives(q)]));
    One(y, Requests(i, peers, now), [Seals(n)] + ([Arrives(p)] + ([Seals(n)] + [Arrives(q)])));
  }

  lemma Stops(y: Room)
    ensures Feasible(y, []) && After(y, []) == y
  {
  }

  /** Lose the one answer, and the exchange is over with only one side verified. */
  lemma OneSidedIfLost(now: int)
    ensures var run := [Requests(0, 2, now), Seals(0), Arrives(0), Seals(0), Loses(0)];
            && Feasible(Start(2), run)
            && After(Start(2), run).sealing == [] && After(Start(2), run).flight == []
            && |After(Start(2), run).devices| == 2
            && !After(Start(2), run).devices[0].verified && After(Start(2), run).devices[1].verified
  {
    hide After, Feasible;
    var y := Start(2);
    var question, answer := Item(0, true, 0), Item(1, false, 0);
    var y1 := Request(y, 0, 2, now);
    assert y1.sealing == [Job(question, Ticket(0, 0, true))];
    OthersOfTwo(question);
    OthersOfTwo(answer);
    var y2 := Finish(y1, 0);
    assert y2.sealing == [] && y2.flight == [Item(1, true, 0)];
    var y3 := Receive(y2, 0);
    assert y3.sealing == [Job(answer, Ticket(0, 0, false))] && y3.flight == [];
    var y4 := Finish(y3, 0);
    assert y4.sealing == [] && y4.flight == [Item(0, false, 0)];
    var y5 := Next(y4, Loses(0));
    Stops(y5);
    One(y4, Loses(0), []);
    assert [Loses(0)] + [] == [Loses(0)];
    One(y3, Seals(0), [Loses(0)]);
    One(y2, Arrives(0), [Seals(0)] + [Loses(0)]);
    One(y1, Seals(0), [Arrives(0)] + ([Seals(0)] + [Loses(0)]));
    One(y, Requests(0, 2, now), [Seals(0)] + ([Arrives(0)] + ([Seals(0)] + [Loses(0)])));
    assert [Requests(0, 2, now)] + ([Seals(0)] + ([Arrives(0)] + ([Seals(0)] + [Loses(0)])))
        == [Requests(0, 2, now), Seals(0), Arrives(0), Seals(0), Loses(0)];
  }

  lemma OthersOfTwo(item: Item)
    requires item.device < 2
    ensures Others(2, item) == [Item(1 - item.device, item.probe, item.cause)]
  {
    assert Others(0, item) == [];
    assert Others(1, item) == if item.device == 0 then [] else [Item(0, item.probe, item.cause)];
  }

  // ------------------------------------------------------------------
  // A question posted twice is answered twice.
  // ------------------------------------------------------------------

  /** Another copy for the other device, wherever the first one is. */
  lemma RepeatCrosses(y: Room, k: nat, j: nat) returns (q: nat)
    requires k < |y.sent| && j < |y.devices| && j != y.sent[k].job.item.device
    ensures var z := Repeat(y, k);
            && z.devices == y.devices && z.sealing == y.sealing && z.asks == y.asks && |z.sent| == |y.sent|
            && q < |z.flight| && q >= |y.flight| && z.flight[q] == Item(j, y.sent[k].job.item.probe, y.sent[k].job.item.cause)
            && (forall m :: 0 <= m < |y.flight| ==> z.flight[m] == y.flight[m])
  {
    var m := WhereAmong(|y.devices|, y.sent[k].job.item, j);
    q := |y.flight| + m;
  }

  /** A question arrives at an eligible device: its answer is being sealed, whether or not it answered before. */
  lemma AnswerBegins(y: Room, k: nat, j: nat, cause: nat)
    requires k < |y.flight| && y.flight[k] == Item(j, true, cause) && j < |y.devices| && y.devices[j].eligible
    ensures var z := Receive(y, k);
            && z.sealing == y.sealing + [Job(Item(j, false, cause), Ticket(y.devices[j].gen, y.devices[j].epoch, false))]
            && |z.devices| == |y.devices| && z.devices[j] == y.devices[j].(verified := true)
            && z.sent == y.sent && |z.flight| == |y.flight| - 1
            && (forall m :: k < m < |y.flight| ==> z.flight[m - 1] == y.flight[m])
  {
  }

  /** From any state in which a question of somebody else's has just been posted, and once more. */
  lemma TwoCopiesTwoAnswers(y: Room, k: nat, j: nat, cause: nat, p: nat) returns (run: seq<Event>)
    requires k < |y.sent| && y.sent[k].posts == 1 && y.sent[k].job.item.probe && y.sent[k].job.item.cause == cause
    requires j < |y.devices| && j != y.sent[k].job.item.device && y.devices[j].eligible
    requires p < |y.flight| && y.flight[p] == Item(j, true, cause)
    ensures Feasible(y, run)
    ensures |After(y, run).sealing| == |y.sealing| + 2
    ensures After(y, run).sealing[|y.sealing|].item == After(y, run).sealing[|y.sealing| + 1].item == Item(j, false, cause)
  {
    hide After, Feasible, Repeat, Receive;
    var y1 := Repeat(y, k);
    var q := RepeatCrosses(y, k, j);
    var y2 := Receive(y1, p);
    AnswerBegins(y1, p, j, cause);
    var y3 := Receive(y2, q - 1);
    AnswerBegins(y2, q - 1, j, cause);
    run := [Repeats(k)] + ([Arrives(p)] + [Arrives(q - 1)]);
    Stops(y3);
    One(y2, Arrives(q - 1), []);
    assert [Arrives(q - 1)] + [] == [Arrives(q - 1)];
    One(y1, Arrives(p), [Arrives(q - 1)]);
    One(y, Repeats(k), [Arrives(p)] + [Arrives(q - 1)]);
  }

  // ------------------------------------------------------------------
  // Questions keep their distance.
  // ------------------------------------------------------------------

  /** What a device remembers is the last time it asked in its epoch, and it never asked from a later one. */
  ghost predicate Remembers(y: Room) {
    forall c :: 0 <= c < |y.asks| && y.asks[c].probe ==>
      && y.asks[c].device < |y.devices|
      && y.asks[c].epoch <= y.devices[y.asks[c].device].epoch
      && (y.asks[c].epoch == y.devices[y.asks[c].device].epoch ==>
            && y.devices[y.asks[c].device].lastAsk.Some?
            && y.asks[c].at <= y.devices[y.asks[c].device].lastAsk.value)
  }

  /** Two questions of one device in one epoch are at least the interval apart. */
  ghost predicate Spaced(asks: seq<Ask>) {
    forall b, c :: 0 <= b < c < |asks| && asks[b].probe && asks[c].probe && asks[b].device == asks[c].device && asks[b].epoch == asks[c].epoch ==>
      asks[c].at - asks[b].at >= VERIFY_MIN_INTERVAL
  }

  lemma NextSpaced(y: Room, e: Event)
    requires Remembers(y) && Spaced(y.asks) && Possible(y, e)
    ensures Remembers(Next(y, e)) && Spaced(Next(y, e).asks)
  {
    hide Without, Others, MaySend;
  }

  lemma {:induction false} RunSpaced(y: Room, run: seq<Event>)
    requires Remembers(y) && Spaced(y.asks) && Feasible(y, run)
    ensures Spaced(After(y, run).asks)
    decreases |run|
  {
    hide Remembers, Spaced, Next, Possible;
    if run != [] {
      NextSpaced(y, run[0]);
      RunSpaced(Next(y, run[0]), run[1..]);
    }
  }

  lemma QuestionsKeepApart(n: nat, run: seq<Event>)
    requires Feasible(Start(n), run)
    ensures Spaced(After(Start(n), run).asks)
  {
    RunSpaced(Start(n), run);
  }

  // ------------------------------------------------------------------
  // Who asks, answers and announces.
  // ------------------------------------------------------------------

  /** A question is asked exactly by an eligible, unverified device in company that has not asked just now; any other changes nothing. */
  lemma AsksExactlyIf(y: Room, i: nat, peers: nat, now: int)
    requires i < |y.devices|
    ensures var d, z := y.devices[i], Next(y, Requests(i, peers, now));
            if d.eligible && !d.verified && peers > 1 && !(d.lastAsk.Some? && now - d.lastAsk.value < 3_000)
            then |z.asks| == |y.asks| + 1 && |z.sealing| == |y.sealing| + 1 && z.sealing[|y.sealing|].item == Item(i, true, |y.asks|)
                 && z.devices == y.devices[i := d.(lastAsk := Some(now))]
            else z == y
  {
  }

  /** An announcement is made exactly by an eligible device in company. */
  lemma AnnouncesExactlyIf(y: Room, i: nat, peers: nat, now: int)
    requires i < |y.devices|
    ensures var z := Next(y, Announces(i, peers, now));
            if y.devices[i].eligible && peers > 1
            then |z.sealing| == |y.sealing| + 1 && z.sealing[|y.sealing|].item == Item(i, false, |y.asks|) && z.devices == y.devices
            else z == y
  {
  }

  /** A frame that opens verifies, and is answered exactly if it is a question of another's and the device is eligible. */
  lemma AnswersExactlyIf(y: Room, k: nat, own: bool)
    requires Possible(y, Arrives(k))
    ensures var item, z := y.flight[k], Next(y, Arrives(k));
            && z.devices == y.devices[item.device := y.devices[item.device].(verified := true)]
            && (if item.probe && y.devices[item.device].eligible
                then |z.sealing| == |y.sealing| + 1 && z.sealing[|y.sealing|].item == Item(item.device, false, item.cause)
                else z.sealing == y.sealing)
    ensures Reply(y.devices[y.flight[k].device], y.flight[k].probe, own).Some?
       <==> y.flight[k].probe && !own && y.devices[y.flight[k].device].eligible
  {
  }

  // ------------------------------------------------------------------
  // What is abandoned.
  // ------------------------------------------------------------------

  /** What this device has sent since was sealed since. */
  ghost predicate SinceOnly(y: Room, i: nat, from: nat, epoch: nat) {
    && i < |y.devices| && y.devices[i].epoch > epoch && |y.sent| >= from
    && forall k :: from <= k < |y.sent| && y.sent[k].job.item.device == i ==> y.sent[k].job.ticket.epoch > epoch
  }

  lemma NextSinceOnly(y: Room, e: Event, i: nat, from: nat, epoch: nat)
    requires SinceOnly(y, i, from, epoch) && Possible(y, e)
    ensures SinceOnly(Next(y, e), i, from, epoch)
  {
    hide Others, Without;
  }

  lemma {:induction false} RunSinceOnly(y: Room, run: seq<Event>, i: nat, from: nat, epoch: nat)
    requires SinceOnly(y, i, from, epoch) && Feasible(y, run)
    ensures SinceOnly(After(y, run), i, from, epoch)
    decreases |run|
  {
    hide SinceOnly, Next, Possible;
    if run != [] {
      NextSinceOnly(y, run[0], i, from, epoch);
      RunSinceOnly(Next(y, run[0]), run[1..], i, from, epoch);
    }
  }

  /** After a cancel, or in another room, nothing is sent of what the device was sealing before. */
  lemma CancelAbandons(y: Room, e: Event, i: nat, run: seq<Event>)
    requires i < |y.devices| && (e == Cancels(i) || e == Moves(i)) && Feasible(Next(y, e), run)
    ensures var z := After(Next(y, e), run);
            && |z.sent| >= |y.sent|
            && forall k :: |y.sent| <= k < |z.sent| && z.sent[k].job.item.device == i ==>
                 z.sent[k].job.ticket.epoch > y.devices[i].epoch
  {
    hide After, Feasible;
    RunSinceOnly(Next(y, e), run, i, |y.sent|, y.devices[i].epoch);
  }

  /** And it may ask again at once, however lately it asked. */
  lemma CancelledMayAsk(y: Room, e: Event, i: nat, peers: nat, now: int)
    requires i < |y.devices| && (e == Cancels(i) || e == Moves(i)) && y.devices[i].eligible && peers > 1
    requires e == Cancels(i) ==> !y.devices[i].verified
    ensures var z := Next(Next(y, e), Requests(i, peers, now));
            |z.asks| == |y.asks| + 1 && z.asks[|y.asks|].device == i && z.asks[|y.asks|].probe && z.asks[|y.asks|].at == now
            && |z.sealing| == |y.sealing| + 1 && z.sealing[|y.sealing|].item == Item(i, true, |y.asks|)
  {
  }

  /** On Off a device asks nothing, answers nothing and sends nothing that was being sealed. */
  ghost predicate SilentSince(y: Room, i: nat, from: nat) {
    && i < |y.devices| && !y.devices[i].eligible && |y.sent| >= from
    && forall k :: from <= k < |y.sent| ==> y.sent[k].job.item.device != i
  }

  lemma NextSilent(y: Room, e: Event, i: nat, from: nat)
    requires SilentSince(y, i, from) && Possible(y, e) && e != Turns(i, true)
    ensures SilentSince(Next(y, e), i, from)
  {
    hide Others, Without;
  }

  lemma {:induction false} RunSilent(y: Room, run: seq<Event>, i: nat, from: nat)
    requires SilentSince(y, i, from) && Feasible(y, run) && Turns(i, true) !in run
    ensures SilentSince(After(y, run), i, from)
    decreases |run|
  {
    hide SilentSince, Next, Possible;
    if run != [] {
      NextSilent(y, run[0], i, from);
      RunSilent(Next(y, run[0]), run[1..], i, from);
    }
  }

  lemma IneligibleIsSilent(y: Room, i: nat, run: seq<Event>)
    requires i < |y.devices| && Feasible(Next(y, Turns(i, false)), run) && Turns(i, true) !in run
    ensures var z := After(Next(y, Turns(i, false)), run);
            forall k :: |y.sent| <= k < |z.sent| ==> z.sent[k].job.item.device != i
  {
    hide After, Feasible;
    RunSilent(Next(y, Turns(i, false)), run, i, |y.sent|);
  }

  /** No frame of the exchange arrives at this device. */
  predicate Unreached(y: Room, run: seq<Event>, i: nat)
    requires Feasible(y, run)
    decreases |run|
  {
    run == [] || ((run[0].Arrives? ==> y.flight[run[0].k].device != i) && Unreached(Next(y, run[0]), run[1..], i))
  }

  lemma NextUnverified(y: Room, e: Event, i: nat)
    requires i < |y.devices| && !y.devices[i].verified && Possible(y, e) && (e.Arrives? ==> y.flight[e.k].device != i)
    ensures i < |Next(y, e).devices| && !Next(y, e).devices[i].verified
  {
    hide Others, Without;
  }

  lemma {:induction false} RunUnverified(y: Room, run: seq<Event>, i: nat)
    requires i < |y.devices| && !y.devices[i].verified && Feasible(y, run) && Unreached(y, run, i)
    ensures i < |After(y, run).devices| && !After(y, run).devices[i].verified
    decreases |run|
  {
    hide Next, Possible;
    if run != [] {
      NextUnverified(y, run[0], i);
      RunUnverified(Next(y, run[0]), run[1..], i);
    }
  }

  /** In another room nothing counts as proved until a frame opens there. */
  lemma VerifiedOnlyByAFrame(y: Room, i: nat, run: seq<Event>)
    requires i < |y.devices| && Feasible(Next(y, Moves(i)), run) && Unreached(Next(y, Moves(i)), run, i)
    ensures i < |After(Next(y, Moves(i)), run).devices| && !After(Next(y, Moves(i)), run).devices[i].verified
  {
    hide After, Feasible, Unreached;
    RunUnverified(Next(y, Moves(i)), run, i);
  }
}
