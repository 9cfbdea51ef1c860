/**
 The fallback channel itself: the variables of src/transport/sse.js, changed in place.
 Each method leaves exactly the state that its step in `Outbox` describes.
 */
module SseOutboxes {

  import opened Outbox

  lemma SizeOfNone()
    ensures Size([]) == 0
  {
  }

  class SseOutbox {
    var outbox: seq<Frame>
    var inflight: bool
    var retried: bool
    var sid: bool
    var done: bool
    var retryTimer: bool
    ghost var open: set<nat>
    var posts: seq<seq<Frame>>
    var next: nat
    ghost var again: nat

    ghost function View(): State
      reads this
    {
      State(outbox, inflight, retried, sid, done, retryTimer, open, posts, next, again)
    }

    constructor ()
      ensures View() == IDLE
    {
      outbox, inflight, retried, sid, done, retryTimer := [], false, false, false, false, false;
      open, posts, next, again := {}, [], 0, 0;
    }

    /** Moves frames from the outbox into a batch until one more would be too many or too much. */
    method TakeBatch() returns (batch: seq<Frame>)
      modifies this`outbox
      ensures batch == old(outbox)[..Take(old(outbox))] && outbox == old(outbox)[Take(old(outbox))..]
    {
      hide Size;
      ghost var all := outbox;
      SizeOfNone();
      batch := [];
      var bytes := 0;
      while outbox != [] && |batch| < POST_MAX_FRAMES
        invariant |batch| <= |all| && batch == all[..|batch|] && outbox == all[|batch|..]
        invariant bytes == Size(batch)
        invariant Take(all) == TakeFrom(all, |batch|)
        decreases |outbox|
      {
        var first := outbox[0];
        if batch != [] && bytes + first.size > POST_MAX_BYTES {
          break;
        }
        SizeStep(all, |batch|);
        bytes := bytes + first.size;
        batch := batch + [first];
        outbox := outbox[1..];
      }
    }

    method Flush()
      modifies this
      ensures View() == Outbox.Flush(old(View()))
    {
      if inflight || done || !sid || outbox == [] {
        return;
      }
      inflight := true;
      var batch := TakeBatch();
      open, again := open + {|posts|}, 0;
      posts := posts + [batch];
    }

    method Send(size: nat, bytes: nat) returns (taken: bool)
      modifies this
      ensures View() == Outbox.Send(old(View()), size, bytes) && taken == (!old(done) && old(sid))
    {
      hide Outbox.Flush;
      if done || !sid {
        return false;
      }
      outbox := outbox + [Frame(next, size, bytes)];
      next := next + 1;
      Flush();
      return true;
    }

    method PostFailed(k: nat)
      requires k < |posts|
      modifies this
      ensures View() == Outbox.PostFailed(old(View()), k)
    {
      hide Outbox.Flush;
      open := open - {k};
      if !retried {
        retried := true;
        outbox := posts[k] + outbox;
        again := |posts[k]|;
        retryTimer := true;
        return;
      }
      retried := false;
      inflight := false;
      Flush();
    }

    method PostAnswered(k: nat, gone: bool)
      modifies this
      ensures View() == Outbox.PostAnswered(old(View()), k, gone)
    {
      hide Outbox.Flush;
      open := open - {k};
      retried := false;
      inflight := false;
      if gone {
        Finish();
        return;
      }
      Flush();
    }

    method RetryTimer()
      modifies this
      ensures View() == Outbox.RetryTimer(old(View()))
    {
      hide Outbox.Flush;
      retryTimer := false;
      inflight := false;
      Flush();
    }

    method Finish()
      modifies this`done, this`retryTimer
      ensures View() == Outbox.Finish(old(View()))
    {
      if done {
        return;
      }
      done := true;
      retryTimer := false;
    }

    method Close()
      modifies this
      ensures View() == Outbox.Close(old(View()))
    {
      done := true;
      retryTimer := false;
      outbox, again := [], 0;
    }
  }
}
