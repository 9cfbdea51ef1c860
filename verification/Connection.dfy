/**
 The transport layer: src/transport/relay.js. An attempt is named by its epoch. A
 channel that was closed, or that reported itself down, calls back no more; every other
 callback and timer may come at any time, or never.
 */
module Connection {

  import opened Options

  datatype Transport = WS | SSE

  const SWITCH_AFTER: nat := 2
  const BACKOFF_MIN: nat := 1_000
  const BACKOFF_MAX: nat := 30_000

  function Other(t: Transport): Transport {
    if t.WS? then SSE else WS
  }

  /** One of something for each transport. */
  datatype Both<T> = Both(ws: T, sse: T) {
    function At(t: Transport): T {
      if t.WS? then ws else sse
    }

    function Put(t: Transport, value: T): Both<T> {
      if t.WS? then Both(value, sse) else Both(ws, value)
    }
  }

  /** `outcomes` is history: for each transport, whether each finished attempt had opened. */
  datatype Policy = Policy(
    mode: Transport, forced: Option<Transport>, stuck: bool,
    failures: Both<nat>, backoff: nat, outcomes: Both<seq<bool>>)

  /**
   `alive` is every channel not yet closed, `timers` every reconnect timer ever set
   that has not fired, with its epoch; `downs` is history: how often `down` ran for
   each attempt.
   */
  datatype Line = Line(
    wantOpen: bool, up: bool, channel: Option<nat>, alive: set<nat>, epoch: nat,
    probe: bool, heartbeat: bool, pong: bool,
    timers: map<nat, nat>, nextTimer: nat, downs: map<nat, nat>)

  datatype State = State(line: Line, policy: Policy)

  // ------------------------------------------------------------------
  // Which transport.
  // ------------------------------------------------------------------

  /** A pinned transport, else a remembered one, else the default; each only if available. */
  function Preferred(usable: set<Transport>, forced: Option<Transport>, remembered: Option<Transport>): Transport {
    if forced.Some? && forced.value in usable then forced.value
    else if remembered.Some? && remembered.value in usable then remembered.value
    else if WS in usable then WS else SSE
  }

  function Reset(usable: set<Transport>, p: Policy, forced: Option<Transport>, remembered: Option<Transport>): Policy {
    p.(forced := forced, failures := Both(0, 0), backoff := BACKOFF_MIN,
       mode := Preferred(usable, forced, remembered))
  }

  function Finished(p: Policy, ok: bool): Policy
  {
    p.(outcomes := p.outcomes.Put(p.mode, p.outcomes.At(p.mode) + [ok]))
  }

  function Succeeded(p: Policy): Policy
  {
    Finished(p, true).(stuck := false, backoff := BACKOFF_MIN, failures := p.failures.Put(p.mode, 0))
  }

  predicate Blocked(p: Policy)
  {
    p.failures.ws >= SWITCH_AFTER && p.failures.sse >= SWITCH_AFTER
  }

  /** The other transport gets a fresh start, unless this one is pinned or the other cannot be had. */
  function Switched(usable: set<Transport>, p: Policy): Policy {
    if p.forced.Some? || Other(p.mode) !in usable then p
    else p.(mode := Other(p.mode), failures := p.failures.Put(Other(p.mode), 0), backoff := BACKOFF_MIN)
  }

  /** An attempt ended. Whether both transports are blocked is asked before the switch zeroes a count. */
  function AttemptEnded(usable: set<Transport>, p: Policy, up: bool, restart: bool): Policy
  {
    var p1 := if up then p else Finished(p, false).(failures := p.failures.Put(p.mode, p.failures.At(p.mode) + 1));
    var p2 := if restart then p1.(backoff := BACKOFF_MIN) else p1;
    var p3 := if !up && p2.failures.At(p2.mode) >= SWITCH_AFTER
              then Switched(usable, if Blocked(p2) then p2.(stuck := true) else p2) else p2;
    p3.(backoff := if p3.backoff * 2 < BACKOFF_MAX then p3.backoff * 2 else BACKOFF_MAX)
  }

  // ------------------------------------------------------------------
  // One line.
  // ------------------------------------------------------------------

  function StopTimers(l: Line): Line {
    l.(heartbeat := false, probe := false, pong := false)
  }

  /** `channel?.close()`. */
  function CloseChannel(l: Line): Line {
    if l.channel.None? then l else l.(alive := l.alive - {l.channel.value})
  }

  function Start(l: Line): Line {
    StopTimers(l).(up := false, epoch := l.epoch + 1, channel := Some(l.epoch + 1), alive := l.alive + {l.epoch + 1}, probe := true)
  }

  function Count(downs: map<nat, nat>, k: nat): nat {
    if k in downs then downs[k] else 0
  }

  /** What every `down` does to the line before it looks at anything. */
  function Fell(l: Line): Line {
    StopTimers(l).(channel := None, downs := l.downs[l.epoch := Count(l.downs, l.epoch) + 1])
  }

  function Retry(l: Line): Line {
    l.(timers := l.timers[l.nextTimer := l.epoch], nextTimer := l.nextTimer + 1)
  }

  // ------------------------------------------------------------------
  // Steps.
  // ------------------------------------------------------------------

  /** `terminal`: before it opened, the relay refused it in a way it will refuse again. */
  function Down(usable: set<Transport>, y: State, terminal: bool, restart: bool): State
  {
    var l := Fell(y.line);
    if !l.wantOpen then State(l, y.policy)
    else if !l.up && terminal then State(l.(wantOpen := false), Finished(y.policy, false))
    else State(Retry(l), AttemptEnded(usable, y.policy, l.up, restart))
  }

  function Connect(usable: set<Transport>, y: State, forced: Option<Transport>, remembered: Option<Transport>): State {
    State(Start(CloseChannel(y.line).(wantOpen := true)), Reset(usable, y.policy, forced, remembered))
  }

  function Close(y: State): State {
    y.(line := CloseChannel(StopTimers(y.line)).(wantOpen := false, epoch := y.line.epoch + 1, channel := None))
  }

  function SetTransport(usable: set<Transport>, y: State, choice: Option<Transport>, remembered: Option<Transport>): State {
    if choice == y.policy.forced then y
    else if !y.line.wantOpen then y.(policy := y.policy.(forced := choice))
    else
      State(Start(StopTimers(CloseChannel(y.line).(channel := None)).(epoch := y.line.epoch + 1)),
            Reset(usable, y.policy, choice, remembered).(stuck := false))
  }

  function Up(y: State): State
  {
    State(y.line.(probe := false, up := true, heartbeat := true), Succeeded(y.policy))
  }

  datatype Event =
    | Connects(forced: Option<Transport>, remembered: Option<Transport>)
    | Closes
    | Pins(choice: Option<Transport>, remembered: Option<Transport>)
    | OpensUp(id: nat)
    | GoesDown(id: nat, terminal: bool, restart: bool)
    | ProbeEnds
    | Beats
    | Pong
    | PongEnds
    | RetryEnds(t: nat)

  /** A live channel opens once and goes down once; a timer fires while it is set. */
  predicate Possible(y: State, e: Event) {
    match e
    case OpensUp(id) => id in y.line.alive && (id == y.line.epoch ==> !y.line.up)
    case GoesDown(id, _, _) => id in y.line.alive
    case ProbeEnds => y.line.probe
    case Beats => y.line.heartbeat
    case PongEnds => y.line.pong
    case RetryEnds(t) => t in y.line.timers
    case _ => true
  }

  function Next(usable: set<Transport>, y: State, e: Event): State
    requires Possible(y, e)
  {
    match e
    case Connects(forced, remembered) => Connect(usable, y, forced, remembered)
    case Closes => Close(y)
    case Pins(choice, remembered) => SetTransport(usable, y, choice, remembered)
    case OpensUp(id) => if id == y.line.epoch then Up(y) else y
    case GoesDown(id, terminal, restart) =>
      var y1 := y.(line := y.line.(alive := y.line.alive - {id}));
      if id == y.line.epoch then Down(usable, y1, terminal, restart) else y1
    case ProbeEnds =>
      if y.line.up then y.(line := y.line.(probe := false))
      else Down(usable, y.(line := CloseChannel(y.line)), false, false)
    case Beats => y.(line := y.line.(pong := true))
    case Pong => y.(line := y.line.(pong := false))
    case PongEnds => Down(usable, y.(line := CloseChannel(y.line)), false, false)
    case RetryEnds(t) =>
      var l := y.line.(timers := y.line.timers - {t});
      y.(line := if y.line.wantOpen && y.line.timers[t] == y.line.epoch then Start(l) else l)
  }

  // ------------------------------------------------------------------
  // The line.
  // ------------------------------------------------------------------

  /** A reconnect timer that will start an attempt when it fires. */
  predicate Live(l: Line, t: nat) {
    l.wantOpen && t in l.timers && l.timers[t] == l.epoch
  }

  ghost predicate LineInv(l: Line) {
    && (l.channel.Some? ==> l.channel.value == l.epoch && l.alive == {l.epoch} && Count(l.downs, l.epoch) == 0)
    && (l.channel.None? ==> l.alive == {})
    && (l.probe ==> l.channel.Some? && !l.up)
    && (l.heartbeat || l.pong ==> l.channel.Some? && l.up)
    && (l.channel.Some? && !l.up ==> l.probe)
  }

  ghost predicate TimersInv(l: Line) {
    && (forall t :: t in l.timers ==> t < l.nextTimer && l.timers[t] <= l.epoch)
    && (forall t, u :: t in l.timers && u in l.timers && l.timers[t] == l.timers[u] ==> t == u)
    && (l.channel.Some? ==> forall t :: t in l.timers ==> l.timers[t] != l.epoch)
    && (l.wantOpen && l.channel.None? ==> exists t :: Live(l, t))
  }

  ghost predicate DownsInv(l: Line) {
    forall k :: k in l.downs ==> k <= l.epoch && l.downs[k] <= 1
  }

  ghost predicate WholeInv(l: Line) {
    LineInv(l) && TimersInv(l) && DownsInv(l)
  }

  /** An attempt begins where there was none: nothing else is alive. */
  lemma StartInv(l: Line)
    requires TimersInv(l) && DownsInv(l) && l.alive == {} && l.wantOpen
    ensures WholeInv(Start(l))
  {
  }

  lemma CloseChannelInv(l: Line)
    requires WholeInv(l)
    ensures CloseChannel(l).alive == {} && CloseChannel(l).timers == l.timers && CloseChannel(l).downs == l.downs
    ensures CloseChannel(l) == l.(alive := {})
  {
  }

  /** The timers once the channel is gone and the epoch has moved. */
  lemma MovedTimers(l: Line, m: Line)
    requires TimersInv(l) && DownsInv(l) && m.timers == l.timers && m.nextTimer == l.nextTimer && m.downs == l.downs
    requires m.epoch > l.epoch && (m.wantOpen ==> m.channel.Some?)
    ensures TimersInv(m) && DownsInv(m)
  {
  }

  lemma ConnectInv(l: Line)
    requires WholeInv(l)
    ensures WholeInv(Start(CloseChannel(l).(wantOpen := true)))
  {
    CloseChannelInv(l);
    MovedTimers(l, Start(CloseChannel(l).(wantOpen := true)));
  }

  lemma CloseInv(l: Line)
    requires WholeInv(l)
    ensures WholeInv(CloseChannel(StopTimers(l)).(wantOpen := false, epoch := l.epoch + 1, channel := None))
  {
    MovedTimers(l, CloseChannel(StopTimers(l)).(wantOpen := false, epoch := l.epoch + 1, channel := None));
  }

  lemma PinInv(l: Line)
    requires WholeInv(l) && l.wantOpen
    ensures WholeInv(Start(StopTimers(CloseChannel(l).(channel := None)).(epoch := l.epoch + 1)))
  {
    CloseChannelInv(l);
    MovedTimers(l, Start(StopTimers(CloseChannel(l).(channel := None)).(epoch := l.epoch + 1)));
  }

  /** `down` runs while the attempt is the current one, and leaves one timer, or nothing wanted. */
  lemma DownInv(l: Line, m: Line)
    requires TimersInv(l) && DownsInv(l) && l.channel.Some? && l.channel.value == l.epoch && Count(l.downs, l.epoch) == 0
    requires m == l.(alive := {})
    ensures WholeInv(Retry(Fell(m)))
    ensures WholeInv(Fell(m).(wantOpen := false))
    ensures !l.wantOpen ==> WholeInv(Fell(m))
  {
    var r := Retry(Fell(m));
    if l.wantOpen {
      assert Live(r, l.nextTimer);
    }
  }

  lemma RetryInv(l: Line, t: nat)
    requires WholeInv(l) && t in l.timers
    ensures var m := l.(timers := l.timers - {t});
            WholeInv(if Live(l, t) then Start(m) else m)
  {
    var m := l.(timers := l.timers - {t});
    if Live(l, t) {
      assert l.channel.None?;
    } else if l.wantOpen && l.channel.None? {
      var u :| Live(l, u);
      assert Live(m, u);
    }
  }

  lemma NextLine(usable: set<Transport>, y: State, e: Event)
    requires WholeInv(y.line) && Possible(y, e)
    ensures WholeInv(Next(usable, y, e).line)
  {
    hide TimersInv, DownsInv, AttemptEnded, Reset, Succeeded, Finished;
    var l := y.line;
    match e {
      case Connects(_, _) => ConnectInv(l);
      case Closes => CloseInv(l);
      case Pins(_, _) => if l.wantOpen { PinInv(l); }
      case OpensUp(_) => SameTimers(l, Next(usable, y, e).line);
      case GoesDown(id, _, _) =>
        assert l.alive - {id} == {};
        DownInv(l, l.(alive := {}));
      case ProbeEnds => CloseChannelInv(l); DownInv(l, l.(alive := {}));
      case Beats => SameTimers(l, Next(usable, y, e).line);
      case Pong => SameTimers(l, Next(usable, y, e).line);
      case PongEnds => CloseChannelInv(l); DownInv(l, l.(alive := {}));
      case RetryEnds(t) => RetryInv(l, t);
    }
  }

  lemma SameTimers(l: Line, m: Line)
    requires TimersInv(l) && DownsInv(l)
    requires m == l.(probe := m.probe, up := m.up, heartbeat := m.heartbeat, pong := m.pong)
    ensures TimersInv(m) && DownsInv(m)
  {
    if m.wantOpen && m.channel.None? {
      var t :| Live(l, t);
      assert Live(m, t);
    }
  }

  // ------------------------------------------------------------------
  // The policy.
  // ------------------------------------------------------------------

  /** How many of the latest finished attempts, in a row, did not open. */
  function Trailing(outcomes: seq<bool>): (n: nat)
    ensures n <= |outcomes|
  {
    if outcomes == [] || outcomes[|outcomes| - 1] then 0 else 1 + Trailing(outcomes[..|outcomes| - 1])
  }

  lemma {:induction false} TrailingMeans(outcomes: seq<bool>)
    ensures forall i :: |outcomes| - Trailing(outcomes) <= i < |outcomes| ==> !outcomes[i]
    ensures Trailing(outcomes) < |outcomes| ==> outcomes[|outcomes| - Trailing(outcomes) - 1]
    decreases |outcomes|
  {
    if outcomes != [] && !outcomes[|outcomes| - 1] {
      TrailingMeans(outcomes[..|outcomes| - 1]);
    }
  }

  lemma TrailingGrows(outcomes: seq<bool>, ok: bool)
    ensures Trailing(outcomes + [ok]) == if ok then 0 else Trailing(outcomes) + 1
  {
    assert (outcomes + [ok])[..|outcomes|] == outcomes;
  }

  ghost predicate PolicyInv(p: Policy) {
    && p.failures.ws <= Trailing(p.outcomes.ws) && p.failures.sse <= Trailing(p.outcomes.sse)
    && (p.stuck ==> Trailing(p.outcomes.ws) >= SWITCH_AFTER && Trailing(p.outcomes.sse) >= SWITCH_AFTER)
    && BACKOFF_MIN <= p.backoff <= BACKOFF_MAX
  }

  lemma FailedInv(p: Policy)
    requires PolicyInv(p)
    ensures PolicyInv(Finished(p, false)) && PolicyInv(Finished(p, false).(failures := p.failures.Put(p.mode, p.failures.At(p.mode) + 1)))
  {
    TrailingGrows(p.outcomes.At(p.mode), false);
  }

  lemma AttemptEndedInv(usable: set<Transport>, p: Policy, up: bool, restart: bool)
    requires PolicyInv(p)
    ensures PolicyInv(AttemptEnded(usable, p, up, restart))
    ensures p.forced.Some? ==> AttemptEnded(usable, p, up, restart).mode == p.mode
  {
    hide Trailing;
    FailedInv(p);
  }

  lemma SucceededInv(p: Policy)
    requires PolicyInv(p)
    ensures PolicyInv(Succeeded(p))
  {
    TrailingGrows(p.outcomes.At(p.mode), true);
  }

  lemma NextPolicy(usable: set<Transport>, y: State, e: Event)
    requires PolicyInv(y.policy) && Possible(y, e)
    ensures PolicyInv(Next(usable, y, e).policy)
    ensures y.policy.forced.Some? && !e.Connects? && !e.Pins? ==> Next(usable, y, e).policy.mode == y.policy.mode
    ensures !e.Connects? && !e.Pins? ==> Next(usable, y, e).policy.forced == y.policy.forced
  {
    hide Trailing, AttemptEnded, Succeeded;
    var p := y.policy;
    FailedInv(p);
    SucceededInv(p);
    SucceededPin(p);
    match e {
      case GoesDown(_, _, restart) =>
        AttemptEndedInv(usable, p, true, restart);
        AttemptEndedInv(usable, p, false, restart);
        EndedPin(usable, p, restart);
      case ProbeEnds => AttemptEndedInv(usable, p, false, false); EndedPin(usable, p, false);
      case PongEnds => AttemptEndedInv(usable, p, true, false); AttemptEndedInv(usable, p, false, false); EndedPin(usable, p, false);
      case _ =>
    }
  }

  lemma EndedPin(usable: set<Transport>, p: Policy, restart: bool)
    requires PolicyInv(p)
    ensures AttemptEnded(usable, p, true, restart).forced == p.forced && AttemptEnded(usable, p, false, restart).forced == p.forced
  {
  }

  lemma SucceededPin(p: Policy)
    requires PolicyInv(p)
    ensures Succeeded(p).forced == p.forced && Succeeded(p).mode == p.mode
  {
  }

  // ------------------------------------------------------------------
  // Every run.
  // ------------------------------------------------------------------

  const IDLE := State(
    Line(false, false, None, {}, 0, false, false, false, map[], 0, map[]),
    Policy(WS, None, false, Both(0, 0), BACKOFF_MIN, Both([], [])))

  ghost predicate Inv(y: State) {
    WholeInv(y.line) && PolicyInv(y.policy)
  }

  predicate Feasible(usable: set<Transport>, y: State, run: seq<Event>)
    decreases |run|
  {
    run == [] || (Possible(y, run[0]) && Feasible(usable, Next(usable, y, run[0]), run[1..]))
  }

  function After(usable: set<Transport>, y: State, run: seq<Event>): State
    requires Feasible(usable, y, run)
    decreases |run|
  {
    if run == [] then y else After(usable, Next(usable, y, run[0]), run[1..])
  }

  lemma {:induction false} RunInv(usable: set<Transport>, y: State, run: seq<Event>)
    requires Inv(y) && Feasible(usable, y, run)
    ensures Inv(After(usable, y, run))
    decreases |run|
  {
    hide WholeInv, PolicyInv, Next, Possible;
    if run != [] {
      NextLine(usable, y, run[0]);
      NextPolicy(usable, y, run[0]);
      RunInv(usable, Next(usable, y, run[0]), run[1..]);
    }
  }

  lemma IdleInv()
    ensures Inv(IDLE)
  {
  }

  /** At any time: one channel at most, and no attempt was ever declared down twice. */
  lemma OneChannel(usable: set<Transport>, run: seq<Event>)
    requires Feasible(usable, IDLE, run)
    ensures var l := After(usable, IDLE, run).line;
            && |l.alive| <= 1 && l.alive == (if l.channel.Some? then {l.channel.value} else {})
            && forall k :: k in l.downs ==> l.downs[k] <= 1
  {
    hide After, Feasible, PolicyInv, TimersInv;
    IdleInv();
    RunInv(usable, IDLE, run);
  }

  /** While a connection is wanted there is an attempt, watched, or exactly one timer that will start one. */
  lemma AttemptOrTimer(usable: set<Transport>, run: seq<Event>)
    requires Feasible(usable, IDLE, run)
    ensures var l := After(usable, IDLE, run).line;
            && (forall t, u :: Live(l, t) && Live(l, u) ==> t == u)
            && (l.wantOpen ==> (l.channel.Some? <==> !exists t :: Live(l, t)))
            && (l.channel.Some? && !l.up ==> l.probe)
  {
    hide After, Feasible, PolicyInv, DownsInv;
    IdleInv();
    RunInv(usable, IDLE, run);
  }

  /** "Blocked" is said only when the last two attempts on each transport all failed to open. */
  lemma BlockedMeansBlocked(usable: set<Transport>, run: seq<Event>, t: Transport)
    requires Feasible(usable, IDLE, run) && After(usable, IDLE, run).policy.stuck
    ensures var p := After(usable, IDLE, run).policy;
            && |p.outcomes.At(t)| >= SWITCH_AFTER
            && forall i :: |p.outcomes.At(t)| - SWITCH_AFTER <= i < |p.outcomes.At(t)| ==> !p.outcomes.At(t)[i]
  {
    hide After, Feasible, WholeInv;
    IdleInv();
    RunInv(usable, IDLE, run);
    TrailingMeans(After(usable, IDLE, run).policy.outcomes.At(t));
  }

  predicate Unattended(run: seq<Event>) {
    forall i :: 0 <= i < |run| ==> !run[i].Connects? && !run[i].Pins?
  }

  /** A pinned transport stays, whatever happens, until somebody connects or chooses anew. */
  lemma {:induction false} PinnedStays(usable: set<Transport>, y: State, run: seq<Event>)
    requires Inv(y) && Feasible(usable, y, run) && Unattended(run) && y.policy.forced.Some?
    ensures After(usable, y, run).policy.mode == y.policy.mode
    decreases |run|
  {
    hide WholeInv, PolicyInv, Next, Possible;
    if run != [] {
      NextLine(usable, y, run[0]);
      NextPolicy(usable, y, run[0]);
      assert !run[0].Connects? && !run[0].Pins?;
      PinnedStays(usable, Next(usable, y, run[0]), run[1..]);
    }
  }

  // ------------------------------------------------------------------
  // When it moves on.
  // ------------------------------------------------------------------

  /** The attempt under way ends without having opened, and not for good. */
  predicate AttemptFails(y: State, e: Event) {
    && y.line.wantOpen && !y.line.up
    && match e
       case GoesDown(id, terminal, _) => id == y.line.epoch && !terminal
       case ProbeEnds => true
       case _ => false
  }

  /** Left to itself, and with another transport to go to. */
  predicate Free(usable: set<Transport>, p: Policy) {
    p.forced.None? && Other(p.mode) in usable
  }

  /**
   A failed attempt counts against its transport. Below the limit the transport stays;
   at the limit it is the other one's turn, with a fresh start; and with both at the limit
   it is said that neither works.
   */
  lemma FailureCounts(usable: set<Transport>, y: State, e: Event)
    requires Possible(y, e) && AttemptFails(y, e) && Free(usable, y.policy)
    ensures var p, q := y.policy, Next(usable, y, e).policy; var n := p.failures.At(p.mode) + 1;
            && q.forced.None?
            && (n < SWITCH_AFTER ==> q.mode == p.mode && q.failures == p.failures.Put(p.mode, n) && q.stuck == p.stuck)
            && (n >= SWITCH_AFTER ==>
                  && q.mode == Other(p.mode) && q.failures.At(q.mode) == 0 && q.failures.At(p.mode) == n
                  && (q.stuck <==> p.stuck || p.failures.At(Other(p.mode)) >= SWITCH_AFTER))
            && q.outcomes == p.outcomes.Put(p.mode, p.outcomes.At(p.mode) + [false])
  {
  }

  /** And is followed by another attempt: a timer is set that will start one. */
  lemma FailureIsRetried(usable: set<Transport>, y: State, e: Event)
    requires Possible(y, e) && AttemptFails(y, e)
    ensures var l := Next(usable, y, e).line;
            l.wantOpen && Live(l, y.line.nextTimer) && Count(l.downs, y.line.epoch) == Count(y.line.downs, y.line.epoch) + 1
  {
    hide AttemptEnded;
  }

  /** Its firing starts one, on the transport that is due. */
  lemma RetryStarts(usable: set<Transport>, y: State, t: nat)
    requires Live(y.line, t)
    ensures var z := Next(usable, y, RetryEnds(t));
            && z.line.channel == Some(y.line.epoch + 1) && y.line.epoch + 1 in z.line.alive && z.line.probe && !z.line.up
            && z.policy == y.policy
  {
  }

  /** Between two ends of attempts: timers fire, and nothing opens or goes down. */
  predicate Between(run: seq<Event>) {
    forall k :: 0 <= k < |run| ==> run[k].RetryEnds? || run[k].Pong? || run[k].Beats?
  }

  lemma {:induction false} BetweenKeeps(usable: set<Transport>, y: State, run: seq<Event>)
    requires Feasible(usable, y, run) && Between(run)
    ensures After(usable, y, run).policy == y.policy
    decreases |run|
  {
    if run != [] { BetweenKeeps(usable, Next(usable, y, run[0]), run[1..]); }
  }

  /** Two attempts in a row that fail on a transport nobody pinned: the next is on the other one. */
  lemma TwoFailuresSwitch(usable: set<Transport>, y: State, e: Event, run: seq<Event>, f: Event)
    requires Possible(y, e) && AttemptFails(y, e) && y.policy.forced.None? && usable == {WS, SSE}
    requires Feasible(usable, Next(usable, y, e), run) && Between(run)
    requires var z := After(usable, Next(usable, y, e), run); Possible(z, f) && AttemptFails(z, f)
    ensures var z := After(usable, Next(usable, y, e), run);
            Next(usable, y, e).policy.mode == Other(y.policy.mode) || Next(usable, z, f).policy.mode == Other(y.policy.mode)
  {
    hide After, Feasible, Next, Possible, AttemptFails, Between;
    FailureCounts(usable, y, e);
    BetweenKeeps(usable, Next(usable, y, e), run);
    FailureCounts(usable, After(usable, Next(usable, y, e), run), f);
  }

  /** An attempt that opens clears the count against its transport, and the word that neither works. */
  lemma OpeningClears(usable: set<Transport>, y: State)
    requires Possible(y, OpensUp(y.line.epoch))
    ensures var z := Next(usable, y, OpensUp(y.line.epoch));
            && z.line.up && z.line.heartbeat && !z.line.probe
            && !z.policy.stuck && z.policy.failures.At(z.policy.mode) == 0 && z.policy.mode == y.policy.mode
            && z.policy.backoff == BACKOFF_MIN
  {
  }

  /** The end of a connection that had opened is no failure of its transport, and is always retried. */
  lemma DropIsNoFailure(usable: set<Transport>, y: State, e: Event)
    requires WholeInv(y.line) && Possible(y, e) && y.line.wantOpen && y.line.up && y.line.channel.Some?
    requires e.PongEnds? || (e.GoesDown? && e.id == y.line.epoch)
    ensures var z := Next(usable, y, e);
            && z.line.wantOpen && Live(z.line, y.line.nextTimer) && z.line.alive == {}
            && z.policy == y.policy.(backoff := z.policy.backoff)
  {
    hide TimersInv, DownsInv;
  }

  lemma StaysUsable(usable: set<Transport>, y: State, e: Event)
    requires Possible(y, e) && usable != {} && (y.policy.mode in usable || e.Connects?)
    ensures Next(usable, y, e).policy.mode in usable
  {
    var t :| t in usable;
    assert t == WS || t == SSE;
  }

  /** Once connected, the transport in use is always one that can be had. */
  lemma OnlyUsable(usable: set<Transport>, y: State, e: Event, run: seq<Event>)
    requires usable != {} && e.Connects? && Possible(y, e) && Feasible(usable, Next(usable, y, e), run)
    ensures After(usable, Next(usable, y, e), run).policy.mode in usable
  {
    StaysUsable(usable, y, e);
    RunUsable(usable, Next(usable, y, e), run);
  }

  lemma {:induction false} RunUsable(usable: set<Transport>, y: State, run: seq<Event>)
    requires usable != {} && y.policy.mode in usable && Feasible(usable, y, run)
    ensures After(usable, y, run).policy.mode in usable
    decreases |run|
  {
    hide Next, Possible;
    if run != [] {
      StaysUsable(usable, y, run[0]);
      RunUsable(usable, Next(usable, y, run[0]), run[1..]);
    }
  }

  /** A heartbeat that is not answered ends the connection, and another attempt follows. */
  lemma SilenceEnds(usable: set<Transport>, y: State)
    requires WholeInv(y.line) && y.line.heartbeat && y.line.wantOpen
    ensures var z := Next(usable, y, Beats);
            && Possible(z, PongEnds)
            && var u := Next(usable, z, PongEnds).line; u.channel.None? && u.alive == {} && Live(u, y.line.nextTimer)
  {
    hide AttemptEnded;
  }

  /** A heartbeat that is answered ends nothing: until the next one there is no deadline. */
  ghost predicate Answered(y: State, id: nat) {
    y.line.up && y.line.channel == Some(id) && y.line.epoch == id && !y.line.pong && !y.line.probe
  }

  /** The line itself does not go down, and nobody touches it. */
  predicate Holds(e: Event) {
    e.Beats? || e.Pong? || e.RetryEnds? || e.ProbeEnds? || e.PongEnds?
  }

  lemma {:induction false} StaysAnswered(usable: set<Transport>, y: State, run: seq<Event>, id: nat)
    requires WholeInv(y.line) && Answered(y, id) && Feasible(usable, y, run)
    requires forall k :: 0 <= k < |run| ==> Holds(run[k]) && !run[k].Beats?
    ensures Answered(After(usable, y, run), id)
    decreases |run|
  {
    hide WholeInv, Next, Possible, Answered;
    if run != [] {
      NextLine(usable, y, run[0]);
      StepAnswered(usable, y, run[0], id);
      StaysAnswered(usable, Next(usable, y, run[0]), run[1..], id);
    }
  }

  lemma StepAnswered(usable: set<Transport>, y: State, e: Event, id: nat)
    requires WholeInv(y.line) && Answered(y, id) && Possible(y, e) && Holds(e) && !e.Beats?
    ensures Answered(Next(usable, y, e), id)
  {
    hide DownsInv, AttemptEnded;
  }

  /** Every heartbeat that is answered in time leaves the connection as it is. */
  lemma AnswersKeepItUp(usable: set<Transport>, y: State, run: seq<Event>)
    requires WholeInv(y.line) && y.line.up && y.line.channel.Some? && Feasible(usable, Next(usable, y, Pong), run)
    requires forall k :: 0 <= k < |run| ==> Holds(run[k]) && !run[k].Beats?
    ensures var l := After(usable, Next(usable, y, Pong), run).line; l.up && l.channel == y.line.channel && !l.pong
  {
    hide After, Feasible, TimersInv, DownsInv;
    NextLine(usable, y, Pong);
    StaysAnswered(usable, Next(usable, y, Pong), run, y.line.epoch);
  }

  // ------------------------------------------------------------------
  // How long it waits.
  // ------------------------------------------------------------------

  /** The wait after `n` attempts in a row that failed: doubled each time, up to a limit. */
  function Wait(n: nat): nat {
    if n == 0 then BACKOFF_MIN else if 2 * Wait(n - 1) < BACKOFF_MAX then 2 * Wait(n - 1) else BACKOFF_MAX
  }

  lemma {:induction false} WaitsAreCapped(n: nat)
    ensures BACKOFF_MIN <= Wait(n) <= BACKOFF_MAX && Wait(n) <= Wait(n + 1)
    ensures n >= 5 ==> Wait(n) == BACKOFF_MAX
  {
    if n > 0 { WaitsAreCapped(n - 1); }
    if n == 5 { assert Wait(1) == 2_000 && Wait(2) == 4_000 && Wait(3) == 8_000; }
  }

  /**
   Each end of an attempt moves the wait one step on; a switch of transports, a restart of
   the relay and a connection that opened set it back to the shortest first.
   */
  lemma WaitGrows(usable: set<Transport>, y: State, e: Event, n: nat)
    requires Possible(y, e) && AttemptFails(y, e) && y.policy.backoff == Wait(n)
    ensures var z := Next(usable, y, e);
            z.policy.backoff == if z.policy.mode != y.policy.mode || (e.GoesDown? && e.restart) then Wait(1) else Wait(n + 1)
  {
    WaitsAreCapped(n);
    assert Wait(1) == 2_000;
  }

  lemma WaitIsReset(usable: set<Transport>, y: State)
    ensures forall forced, remembered :: Next(usable, y, Connects(forced, remembered)).policy.backoff == Wait(0)
    ensures Possible(y, OpensUp(y.line.epoch)) ==> Next(usable, y, OpensUp(y.line.epoch)).policy.backoff == Wait(0)
    ensures y.line.wantOpen ==> forall choice, remembered :: choice != y.policy.forced ==>
              Next(usable, y, Pins(choice, remembered)).policy.backoff == Wait(0)
  {
  }

  // ------------------------------------------------------------------
  // What the user asks for.
  // ------------------------------------------------------------------

  /** A choice takes effect at once while a connection is wanted, on the transport that was chosen if it can be had. */
  lemma ChoiceTakesEffect(usable: set<Transport>, y: State, choice: Option<Transport>, remembered: Option<Transport>)
    requires choice != y.policy.forced
    ensures var z := Next(usable, y, Pins(choice, remembered));
            && z.policy.forced == choice
            && (y.line.wantOpen ==>
                  && z.line.wantOpen && z.line.channel == Some(z.line.epoch) && z.line.epoch > y.line.epoch
                  && !z.policy.stuck && z.policy.failures == Both(0, 0)
                  && (choice.Some? && choice.value in usable ==> z.policy.mode == choice.value))
            && (!y.line.wantOpen ==> z.line == y.line)
  {
  }

  /** So does connecting. */
  lemma ConnectingStarts(usable: set<Transport>, y: State, forced: Option<Transport>, remembered: Option<Transport>)
    ensures var z := Next(usable, y, Connects(forced, remembered));
            && z.line.wantOpen && z.line.channel == Some(z.line.epoch) && z.line.epoch in z.line.alive && z.line.probe && !z.line.up
            && z.policy.failures == Both(0, 0) && z.policy.forced == forced
            && z.policy.mode == (if forced.Some? && forced.value in usable then forced.value
                                 else if remembered.Some? && remembered.value in usable then remembered.value
                                 else if WS in usable then WS else SSE)
  {
  }

  /** Nothing is open, and nothing will be. */
  ghost predicate Quiet(l: Line) {
    !l.wantOpen && l.alive == {} && l.channel.None?
  }

  lemma {:induction false} StaysQuiet(usable: set<Transport>, y: State, run: seq<Event>)
    requires WholeInv(y.line) && Quiet(y.line) && Feasible(usable, y, run) && forall k :: 0 <= k < |run| ==> !run[k].Connects?
    ensures Quiet(After(usable, y, run).line)
    decreases |run|
  {
    hide WholeInv, Quiet, Next, Possible;
    if run != [] {
      NextLine(usable, y, run[0]);
      StepQuiet(usable, y, run[0]);
      StaysQuiet(usable, Next(usable, y, run[0]), run[1..]);
    }
  }

  lemma StepQuiet(usable: set<Transport>, y: State, e: Event)
    requires WholeInv(y.line) && Quiet(y.line) && Possible(y, e) && !e.Connects?
    ensures Quiet(Next(usable, y, e).line)
  {
    hide TimersInv, DownsInv, AttemptEnded;
  }

  /**
   After a close, or a refusal that will be repeated, there is no channel and no attempt
   until somebody connects again, whatever timers are left.
   */
  lemma ClosedStaysClosed(usable: set<Transport>, y: State, e: Event, run: seq<Event>)
    requires WholeInv(y.line) && Possible(y, e)
    requires e.Closes? || (e.GoesDown? && e.id == y.line.epoch && e.terminal && !y.line.up)
    requires Feasible(usable, Next(usable, y, e), run) && forall k :: 0 <= k < |run| ==> !run[k].Connects?
    ensures var l := After(usable, Next(usable, y, e), run).line; !l.wantOpen && l.alive == {} && l.channel.None?
  {
    hide After, Feasible, TimersInv, DownsInv, AttemptEnded;
    NextLine(usable, y, e);
    StaysQuiet(usable, Next(usable, y, e), run);
  }
}
