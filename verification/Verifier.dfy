/**
 The verifier of one device: the closure of `createVerifier` in src/core/verify.js, with
 its two variables. What the application knows comes in as a parameter, and what follows
 the seal is a method of its own. Each method is the step of `LockProof` on the device
 that the closure and the application make up, so that every theorem there is about it.
 */
module Verifiers {

  import opened Options
  import opened LockProof

  /** What the application says about itself at that moment. */
  datatype App = App(gen: nat, eligible: bool, verified: bool, peers: nat)

  class Verifier {
    var lastAsk: Option<int>
    var epoch: nat

    function View(app: App): Device
      reads this
    {
      Device(app.gen, epoch, app.eligible, app.verified, lastAsk)
    }

    constructor ()
      ensures forall app :: View(app) == Device(app.gen, 0, app.eligible, app.verified, None)
    {
      lastAsk, epoch := None, 0;
    }

    method Transmit(app: App, probe: bool) returns (ticket: Option<Ticket>)
      ensures ticket == Begin(View(app), probe)
    {
      if !app.eligible {
        return None;
      }
      ticket := Some(Ticket(app.gen, epoch, probe));
    }

    method Request(app: App, now: int) returns (ticket: Option<Ticket>)
      modifies this`lastAsk
      ensures (View(app), ticket) == Question(old(View(app)), app.peers, now)
    {
      if app.verified || app.peers <= 1 {
        return None;
      }
      if !app.eligible {
        return None;
      }
      if lastAsk.Some? && now - lastAsk.value < VERIFY_MIN_INTERVAL {
        return None;
      }
      lastAsk := Some(now);
      ticket := Transmit(app, true);
    }

    method Answer(app: App, probe: bool, own: bool) returns (ticket: Option<Ticket>)
      ensures ticket == Reply(View(app), probe, own)
    {
      if !probe || own {
        return None;
      }
      ticket := Transmit(app, false);
    }

    method Announce(app: App) returns (ticket: Option<Ticket>)
      ensures ticket == Unasked(View(app), app.peers)
    {
      if app.peers <= 1 {
        return None;
      }
      ticket := Transmit(app, false);
    }

    /** The seal is done: whether its frame may still go out. */
    method Sealed(ticket: Ticket, app: App) returns (send: bool)
      ensures send == MaySend(View(app), ticket)
    {
      if ticket.gen != app.gen || ticket.epoch != epoch {
        return false;
      }
      if !app.eligible {
        return false;
      }
      return true;
    }

    method Cancel()
      modifies this
      ensures forall app :: View(app) == Cancelled(old(View(app)))
    {
      epoch := epoch + 1;
      lastAsk := None;
    }
  }
}
