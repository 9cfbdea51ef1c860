/**
 The transport module itself: the variables of src/transport/relay.js, changed in
 place. Each method leaves exactly the state that its step in `Connection` describes.
 */
module RelayConnections {

  import opened Options
  import opened Connection

  /** Outside the module: channels and reconnect timers out there, and history. */
  datatype World = World(
    alive: set<nat>, timers: map<nat, nat>, nextTimer: nat, downs: map<nat, nat>, outcomes: Both<seq<bool>>)

  class RelayConnection {
    const usable: set<Transport>

    var channel: Option<nat>
    var wantOpen: bool
    var up: bool
    var mode: Transport
    var stuck: bool
    var forced: Option<Transport>
    var failures: Both<nat>
    var backoff: nat
    var heartbeat: bool
    var probe: bool
    var pong: bool
    var epoch: nat
    var world: World

    function GetLine(): Line
      reads this
    {
      Line(wantOpen, up, channel, world.alive, epoch, probe, heartbeat, pong, world.timers, world.nextTimer, world.downs)
    }

    function GetPolicy(): Policy
      reads this
    {
      Policy(mode, forced, stuck, failures, backoff, world.outcomes)
    }

    function View(): State
      reads this
    {
      State(GetLine(), GetPolicy())
    }

    constructor (usable: set<Transport>)
      ensures this.usable == usable && View() == IDLE
    {
      this.usable := usable;
      channel, wantOpen, up, mode, stuck, forced := None, false, false, WS, false, None;
      failures, backoff, heartbeat, probe, pong, epoch := Both(0, 0), BACKOFF_MIN, false, false, false, 0;
      world := World({}, map[], 0, map[], Both([], []));
    }

    method StopTimers()
      modifies this`heartbeat, this`probe, this`pong
      ensures GetLine() == Connection.StopTimers(old(GetLine())) && GetPolicy() == old(GetPolicy())
    {
      heartbeat, probe, pong := false, false, false;
    }

    method CloseChannel()
      modifies this`world
      ensures GetLine() == Connection.CloseChannel(old(GetLine())) && GetPolicy() == old(GetPolicy())
    {
      if channel.Some? {
        world := world.(alive := world.alive - {channel.value});
      }
    }

    method Start()
      modifies this`heartbeat, this`probe, this`pong, this`up, this`epoch, this`channel, this`world
      ensures GetLine() == Connection.Start(old(GetLine())) && GetPolicy() == old(GetPolicy())
    {
      StopTimers();
      up := false;
      epoch := epoch + 1;
      channel := Some(epoch);
      world := world.(alive := world.alive + {epoch});
      probe := true;
    }

    /** No failures counted, no delay, and the transport chosen afresh. */
    method Fresh(remembered: Option<Transport>)
      modifies this`failures, this`backoff, this`mode
      ensures GetPolicy() == Reset(usable, old(GetPolicy()), forced, remembered) && GetLine() == old(GetLine())
    {
      failures, backoff := Both(0, 0), BACKOFF_MIN;
      mode := Preferred(usable, forced, remembered);
    }

    method Connect(forced: Option<Transport>, remembered: Option<Transport>)
      modifies this
      ensures View() == Connection.Connect(usable, old(View()), forced, remembered)
    {
      hide Connection.Start, Connection.CloseChannel, Connection.StopTimers, Preferred;
      CloseChannel();
      wantOpen := true;
      this.forced := forced;
      Fresh(remembered);
      Start();
    }

    method Close()
      modifies this
      ensures View() == Connection.Close(old(View()))
    {
      wantOpen := false;
      epoch := epoch + 1;
      StopTimers();
      CloseChannel();
      channel := None;
    }

    /** The current attempt is over, and nothing of it may come back. */
    method Abandon()
      modifies this`world, this`channel, this`heartbeat, this`probe, this`pong, this`epoch
      ensures GetLine() == Connection.StopTimers(Connection.CloseChannel(old(GetLine())).(channel := None)).(epoch := old(epoch) + 1)
      ensures GetPolicy() == old(GetPolicy())
    {
      CloseChannel();
      channel := None;
      StopTimers();
      epoch := epoch + 1;
    }

    method SetTransport(choice: Option<Transport>, remembered: Option<Transport>)
      modifies this
      ensures View() == Connection.SetTransport(usable, old(View()), choice, remembered)
    {
      hide Connection.Start, Connection.CloseChannel, Connection.StopTimers, Preferred;
      if choice == forced {
        return;
      }
      forced := choice;
      if !wantOpen {
        return;
      }
      Abandon();
      stuck := false;
      Fresh(remembered);
      Start();
    }

    method SwitchTransport()
      modifies this`mode, this`failures, this`backoff
      ensures GetPolicy() == Switched(usable, old(GetPolicy())) && GetLine() == old(GetLine())
    {
      if forced.Some? {
        return;
      }
      var next := Other(mode);
      if next !in usable {
        return;
      }
      mode := next;
      failures := failures.Put(next, 0);
      backoff := BACKOFF_MIN;
    }

    method OnUp()
      modifies this
      ensures View() == Up(old(View()))
    {
      probe := false;
      up := true;
      stuck := false;
      backoff := BACKOFF_MIN;
      failures := failures.Put(mode, 0);
      world := world.(outcomes := world.outcomes.Put(mode, world.outcomes.At(mode) + [true]));
      heartbeat := true;
    }

    /** The bookkeeping of `down` for an attempt that will be followed by another. */
    method CountFailure(restart: bool)
      modifies this`mode, this`failures, this`backoff, this`stuck, this`world
      ensures GetPolicy() == AttemptEnded(usable, old(GetPolicy()), up, restart)
      ensures GetLine() == old(GetLine())
    {
      hide Switched;
      if !up {
        failures := failures.Put(mode, failures.At(mode) + 1);
        world := world.(outcomes := world.outcomes.Put(mode, world.outcomes.At(mode) + [false]));
      }
      if restart {
        backoff := BACKOFF_MIN;
      }
      if !up && failures.At(mode) >= SWITCH_AFTER {
        if failures.ws >= SWITCH_AFTER && failures.sse >= SWITCH_AFTER {
          stuck := true;
        }
        SwitchTransport();
      }
      backoff := if backoff * 2 < BACKOFF_MAX then backoff * 2 else BACKOFF_MAX;
    }

    /** `down`, and what its callers do to the channel before it. */
    method OnDown(terminal: bool, restart: bool)
      modifies this
      ensures View() == Down(usable, old(View()), terminal, restart)
    {
      hide AttemptEnded;
      StopTimers();
      channel := None;
      world := world.(downs := world.downs[epoch := Count(world.downs, epoch) + 1]);
      if !wantOpen {
        return;
      }
      if !up && terminal {
        wantOpen := false;
        world := world.(outcomes := world.outcomes.Put(mode, world.outcomes.At(mode) + [false]));
        return;
      }
      CountFailure(restart);
      world := world.(timers := world.timers[world.nextTimer := epoch], nextTimer := world.nextTimer + 1);
    }

    method RetryTimer(t: nat)
      requires t in world.timers
      modifies this
      ensures View() == Next(usable, old(View()), RetryEnds(t))
    {
      hide Connection.Start;
      var gen := world.timers[t];
      world := world.(timers := world.timers - {t});
      if wantOpen && gen == epoch {
        Start();
      }
    }

    method ProbeTimer()
      requires probe
      modifies this
      ensures View() == Next(usable, old(View()), ProbeEnds)
    {
      hide Connection.CloseChannel, Down;
      if up {
        probe := false;
        return;
      }
      CloseChannel();
      OnDown(false, false);
    }

    /** Nobody answered the heartbeat. */
    method PongTimer()
      requires pong
      modifies this
      ensures View() == Next(usable, old(View()), PongEnds)
    {
      hide Connection.CloseChannel, Down;
      CloseChannel();
      OnDown(false, false);
    }
  }
}
