/**
 The session module itself: the variables of src/main.js, changed in place. Each method
 leaves exactly the session that its step in `Session` describes; what follows an
 `await` is a method of its own.
 */
module ClientSessions {

  import opened Options
  import opened Session

  /** Outside the module: work in progress elsewhere, and history. */
  datatype World = World(
    deriving: map<nat, RoomId>, tails: seq<seq<Job>>, loose: map<nat, Job>, opening: map<nat, Opening>,
    next: nat, wire: seq<Sent>, effects: seq<Effect>)

  class ClientSession {
    var sessionGen: nat
    var aesKey: Option<RoomId>
    var target: Option<RoomId>
    var up: bool
    var sharing: bool
    var queuedClip: Option<Queued>
    var world: World

    function View(): Session.State
      reads this
    {
      Session.State(sessionGen, aesKey, target, up, sharing, queuedClip, world.deriving, world.tails,
                      world.loose, world.opening, world.next, world.wire, world.effects)
    }

    constructor (senders: nat)
      ensures View() == Idle(senders)
    {
      sessionGen, aesKey, target, up, sharing, queuedClip := 0, None, None, false, true, None;
      world := World(map[], seq(senders, _ => []), map[], map[], 0, [], []);
    }

    method OpenSession(room: RoomId)
      modifies this`sessionGen, this`world
      ensures View() == Session.OpenSession(old(View()), room)
    {
      sessionGen := sessionGen + 1;
      world := world.(deriving := world.deriving[sessionGen := room]);
    }

    /** `openSession` after its await: a newer session may have opened meanwhile. */
    method KeyDerived(gen: nat)
      requires gen in world.deriving
      modifies this`aesKey, this`target, this`up, this`world
      ensures View() == Derived(old(View()), gen)
    {
      var room := world.deriving[gen];
      world := world.(deriving := world.deriving - {gen});
      if gen != sessionGen {
        return;
      }
      aesKey := Some(room);
      target, up := Some(room), false;
    }

    method LeaveRoom()
      modifies this`sessionGen, this`aesKey, this`target, this`up, this`queuedClip
      ensures View() == Session.LeaveRoom(old(View()))
    {
      sessionGen := sessionGen + 1;
      target, up := None, false;
      aesKey := None;
      queuedClip := None;
    }

    method Enqueue(s: nat, room: Option<RoomId>)
      requires s < |world.tails|
      modifies this`world
      ensures View() == Session.Enqueue(old(View()), s, room)
    {
      var job := Job(world.next, sessionGen, room, sharing, Waiting, sessionGen);
      world := world.(tails := world.tails[s := world.tails[s] + [job]], next := world.next + 1);
    }

    method SendText()
      requires |world.tails| > 0
      modifies this`queuedClip, this`world
      ensures View() == Session.SendText(old(View()))
    {
      if !sharing {
        return;
      }
      if aesKey.None? || !up {
        queuedClip := Some(Queued(sessionGen, aesKey));
        return;
      }
      Enqueue(CLIPS, aesKey);
    }

    method FlushQueuedClip()
      requires |world.tails| > 0
      modifies this`queuedClip, this`world
      ensures View() == Session.FlushQueuedClip(old(View()))
    {
      if queuedClip.None? {
        return;
      }
      var clip := queuedClip.value;
      queuedClip := None;
      if clip.gen != sessionGen || !sharing {
        return;
      }
      Enqueue(CLIPS, clip.room);
    }

    /** What a sealed sender answers at once: false means "not sent". */
    method SendSealed(s: nat) returns (taken: bool)
      requires s < |world.tails|
      modifies this`world
      ensures View() == Issue(old(View()), s) && taken == (sharing && up)
    {
      if !sharing || !up {
        return false;
      }
      Enqueue(s, aesKey);
      return true;
    }

    method SealNext(s: nat)
      requires Turn(View(), s)
      modifies this`queuedClip, this`world
      ensures View() == Seal(old(View()), s)
    {
      var job, rest := world.tails[s][0], world.tails[s][1..];
      if job.gen != sessionGen {
        world := world.(tails := world.tails[s := rest]);
        return;
      }
      if s == CLIPS && (aesKey.None? || !up) {
        world := world.(tails := world.tails[s := rest]);
        queuedClip := Some(Queued(job.gen, job.room));
        return;
      }
      if s != CLIPS && !sharing {
        world := world.(tails := world.tails[s := rest]);
        return;
      }
      world := world.(tails := world.tails[s := [job.(phase := Sealing(aesKey), sealGen := sessionGen)] + rest]);
    }

    method Send(sender: Option<nat>, job: Job)
      modifies this`world
      ensures View() == Transmit(old(View()), sender, job)
    {
      if up && target.Some? {
        world := world.(wire := world.wire + [Sent(sender, job, sessionGen, target.value, sharing)]);
      }
    }

    method SealDone(s: nat, ok: bool)
      requires Turn(View(), s)
      modifies this`world
      ensures View() == Finish(old(View()), s, ok)
    {
      hide Transmit;
      var job := world.tails[s][0];
      world := world.(tails := world.tails[s := world.tails[s][1..]]);
      if ok && job.gen == sessionGen && sharing {
        Send(Some(s), job);
      }
    }

    method SendStream()
      modifies this`world
      ensures View() == SendLoose(old(View()))
    {
      if !sharing {
        return;
      }
      if aesKey.None? || !up {
        return;
      }
      var job := Job(world.next, sessionGen, aesKey, sharing, Sealing(aesKey), sessionGen);
      world := world.(loose := world.loose[world.next := job], next := world.next + 1);
    }

    method StreamSealed(k: nat, ok: bool)
      requires k in world.loose
      modifies this`world
      ensures View() == FinishLoose(old(View()), k, ok)
    {
      hide Transmit;
      var job := world.loose[k];
      world := world.(loose := world.loose - {k});
      if ok && job.gen == sessionGen && sharing {
        Send(None, job);
      }
    }

    /** `onFrame` after its decrypt: the frame must still be for this session. */
    method FrameOpened(k: nat)
      requires k in world.opening
      modifies this`world
      ensures View() == Opened(old(View()), k)
    {
      var o := world.opening[k];
      world := world.(opening := world.opening - {k});
      if o.gen != sessionGen || o.key != o.channel {
        return;
      }
      world := world.(effects := world.effects + (if o.clip then [Effect(o, sessionGen, aesKey, Acted)]
                                                  else [Effect(o, sessionGen, aesKey, Proved), Effect(o, sessionGen, aesKey, HandedOn)]));
    }
  }
}
