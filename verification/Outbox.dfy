/**
 The upstream half of the fallback transport: the outbox of src/transport/sse.js. Frames
 are numbered in the order `send` took them; `size` is the length of the serialised
 frame, `bytes` its length in UTF-8.
 */
module Outbox {

  datatype Frame = Frame(num: nat, size: nat, bytes: nat)

  const POST_MAX_FRAMES: nat := 16
  const POST_MAX_BYTES: nat := 256 * 1024

  /**
   `open` is every POST not yet answered, `posts` every POST ever made. `again` is
   history: how many frames at the head of the outbox were in a POST that failed.
   */
  datatype State = State(
    frames: seq<Frame>, inflight: bool, retried: bool, ready: bool, done: bool, timer: bool,
    open: set<nat>, posts: seq<seq<Frame>>, next: nat, again: nat)

  const IDLE := State([], false, false, false, false, false, {}, [], 0, 0)

  function Size(batch: seq<Frame>): nat {
    if batch == [] then 0 else Size(batch[..|batch| - 1]) + batch[|batch| - 1].size
  }

  predicate Fits(batch: seq<Frame>) {
    |batch| <= POST_MAX_FRAMES && (|batch| > 1 ==> Size(batch) <= POST_MAX_BYTES)
  }

  /** How many frames, from the front, one more `take` step at a time. */
  function TakeFrom(frames: seq<Frame>, n: nat): (k: nat)
    requires n <= |frames|
    ensures n <= k <= |frames|
    decreases |frames| - n
  {
    if n < |frames| && n < POST_MAX_FRAMES && (n == 0 || Size(frames[..n]) + frames[n].size <= POST_MAX_BYTES)
    then TakeFrom(frames, n + 1) else n
  }

  function Take(frames: seq<Frame>): nat {
    TakeFrom(frames, 0)
  }

  // ------------------------------------------------------------------
  // Steps.
  // ------------------------------------------------------------------

  function Flush(y: State): State {
    if y.inflight || y.done || !y.ready || y.frames == [] then y
    else
      var n := Take(y.frames);
      y.(inflight := true, frames := y.frames[n..], open := y.open + {|y.posts|}, posts := y.posts + [y.frames[..n]], again := 0)
  }

  function Send(y: State, size: nat, bytes: nat): State {
    if y.done || !y.ready then y
    else Flush(y.(frames := y.frames + [Frame(y.next, size, bytes)], next := y.next + 1))
  }

  /** The POST did not reach the relay: once more, all of it, and then no more. */
  function PostFailed(y: State, k: nat): State
    requires k < |y.posts|
  {
    if !y.retried then
      y.(open := y.open - {k}, retried := true, frames := y.posts[k] + y.frames, again := |y.posts[k]|, timer := true)
    else Flush(y.(open := y.open - {k}, retried := false, inflight := false))
  }

  function PostAnswered(y: State, k: nat, gone: bool): State {
    var y1 := y.(open := y.open - {k}, retried := false, inflight := false);
    if gone then Finish(y1) else Flush(y1)
  }

  function RetryTimer(y: State): State {
    Flush(y.(timer := false, inflight := false))
  }

  function Finish(y: State): State {
    if y.done then y else y.(done := true, timer := false)
  }

  function Close(y: State): State {
    y.(done := true, timer := false, frames := [], again := 0)
  }

  datatype Event =
    | Welcomed
    | Sends(size: nat, bytes: nat)
    | Fails(k: nat)
    | Answers(k: nat, gone: bool)
    | RetryEnds
    | StreamDrops
    | Closes

  predicate Possible(y: State, e: Event) {
    match e
    case Fails(k) => k in y.open && k < |y.posts|
    case Answers(k, _) => k in y.open
    case RetryEnds => y.timer
    case _ => true
  }

  function Next(y: State, e: Event): State
    requires Possible(y, e)
  {
    match e
    case Welcomed => y.(ready := true)
    case Sends(size, bytes) => Send(y, size, bytes)
    case Fails(k) => PostFailed(y, k)
    case Answers(k, gone) => PostAnswered(y, k, gone)
    case RetryEnds => RetryTimer(y)
    case StreamDrops => Finish(y)
    case Closes => Close(y)
  }

  // ------------------------------------------------------------------
  // Batches.
  // ------------------------------------------------------------------

  lemma SizeStep(frames: seq<Frame>, n: nat)
    requires n < |frames|
    ensures Size(frames[..n + 1]) == Size(frames[..n]) + frames[n].size
  {
    assert frames[..n + 1][..n] == frames[..n];
  }

  lemma {:induction false} TakeFromFits(frames: seq<Frame>, n: nat)
    requires n <= |frames| && Fits(frames[..n])
    ensures Fits(frames[..TakeFrom(frames, n)])
    ensures var k := TakeFrom(frames, n);
            k < |frames| ==> k == POST_MAX_FRAMES || (k > 0 && Size(frames[..k]) + frames[k].size > POST_MAX_BYTES)
    decreases |frames| - n
  {
    if n < |frames| && n < POST_MAX_FRAMES && (n == 0 || Size(frames[..n]) + frames[n].size <= POST_MAX_BYTES) {
      SizeStep(frames, n);
      TakeFromFits(frames, n + 1);
    }
  }

  /** A batch is as many frames as fit and no fewer; and never none. */
  lemma TakeFits(frames: seq<Frame>)
    requires frames != []
    ensures var n := Take(frames);
            && 0 < n <= |frames| && Fits(frames[..n])
            && (n < |frames| ==> !Fits(frames[..n + 1]))
  {
    TakeFromFits(frames, 0);
    var n := Take(frames);
    assert TakeFrom(frames, 0) == TakeFrom(frames, 1);
    if n < |frames| { SizeStep(frames, n); }
  }

  /** Every frame has some length; two frames over the limit together cannot share a batch. */
  lemma {:induction false} FitsPrefix(frames: seq<Frame>, n: nat, m: nat)
    requires n <= m <= |frames| && Fits(frames[..m])
    ensures Fits(frames[..n])
    decreases m
  {
    if n < m {
      SizeStep(frames, m - 1);
      FitsPrefix(frames, n, m - 1);
    }
  }

  /** Whatever was a batch once will all be taken again when it is put back in front. */
  lemma TakesBatchAgain(batch: seq<Frame>, frames: seq<Frame>)
    requires batch != [] && Fits(batch)
    ensures Take(batch + frames) >= |batch|
  {
    var all := batch + frames;
    TakeFits(all);
    var n := Take(all);
    if n < |batch| {
      assert all[..|batch|] == batch;
      FitsPrefix(all, n + 1, |batch|);
    }
  }

  // ------------------------------------------------------------------
  // The invariant.
  // ------------------------------------------------------------------

  predicate Run(frames: seq<Frame>, from: nat) {
    forall i :: 0 <= i < |frames| ==> frames[i].num == from + i
  }

  /** One more than the highest number posted. */
  function Posted(posts: seq<seq<Frame>>): nat {
    if posts == [] then 0
    else
      var rest, last := Posted(posts[..|posts| - 1]), posts[|posts| - 1];
      if last != [] && last[|last| - 1].num + 1 > rest then last[|last| - 1].num + 1 else rest
  }

  function Times(posts: seq<seq<Frame>>, num: nat): nat {
    if posts == [] then 0
    else Times(posts[..|posts| - 1], num) + (if exists f :: f in posts[|posts| - 1] && f.num == num then 1 else 0)
  }

  /** A batch is consecutive, within the limits, and leaves no gap after what was posted before. */
  ghost predicate GoodPost(before: seq<seq<Frame>>, batch: seq<Frame>) {
    && batch != [] && Fits(batch) && Run(batch, batch[0].num) && batch[0].num <= Posted(before)
  }

  ghost predicate GoodPosts(posts: seq<seq<Frame>>) {
    forall k :: 0 <= k < |posts| ==> GoodPost(posts[..k], posts[k])
  }

  ghost predicate Flying(y: State) {
    && |y.open| <= 1
    && (forall k :: k in y.open ==> k < |y.posts| && k == |y.posts| - 1)
    && (y.open != {} ==> y.inflight && !y.timer && y.again == 0)
    && (y.timer ==> y.inflight && y.retried && (y.again > 0 || y.done))
    && (y.inflight && y.open == {} ==> y.timer || y.done)
    && (y.again > 0 ==> (y.retried && y.timer) || y.done)
    && (y.retried && y.open == {} ==> y.timer || y.done)
  }

  /** The outbox continues what was posted, apart from the frames to be posted again. */
  ghost predicate Queued(y: State) {
    && GoodPosts(y.posts)
    && y.again <= |y.frames| && y.again <= Posted(y.posts)
    && (!y.done ==> Run(y.frames, Posted(y.posts) - y.again) && y.next == Posted(y.posts) - y.again + |y.frames|)
    && (!y.done && y.again > 0 ==> Take(y.frames) >= y.again)
    && Posted(y.posts) <= y.next
  }

  /** No frame was posted more than twice; one that may be posted again, once; one not posted, never. */
  ghost predicate Rare(y: State) {
    && (forall n: nat :: Times(y.posts, n) <= 2)
    && (forall n: nat :: n >= Posted(y.posts) ==> Times(y.posts, n) == 0)
    && (!y.done ==> forall n: nat :: Posted(y.posts) - y.again <= n < Posted(y.posts) ==> Times(y.posts, n) <= 1)
    && (y.open != {} && |y.posts| > 0 && !y.retried ==> forall f :: f in y.posts[|y.posts| - 1] ==> Times(y.posts, f.num) <= 1)
  }

  ghost predicate Inv(y: State) {
    Flying(y) && Queued(y) && (y.open != {} ==> |y.posts| > 0 && LastReaches(y)) && Rare(y)
  }

  /** The POST under way ends where the outbox begins. */
  ghost predicate LastReaches(y: State)
    requires |y.posts| > 0
  {
    var last := y.posts[|y.posts| - 1];
    last != [] && Posted(y.posts) == last[|last| - 1].num + 1
  }

  lemma PostedGrows(posts: seq<seq<Frame>>, batch: seq<Frame>)
    requires batch != []
    ensures Posted(posts + [batch]) == if batch[|batch| - 1].num + 1 > Posted(posts) then batch[|batch| - 1].num + 1 else Posted(posts)
  {
    assert (posts + [batch])[..|posts|] == posts;
  }

  lemma TimesGrows(posts: seq<seq<Frame>>, batch: seq<Frame>, num: nat)
    ensures Times(posts + [batch], num) == Times(posts, num) + (if exists f :: f in batch && f.num == num then 1 else 0)
  {
    assert (posts + [batch])[..|posts|] == posts;
  }

  lemma GoodPostsGrow(posts: seq<seq<Frame>>, batch: seq<Frame>)
    requires GoodPosts(posts) && GoodPost(posts, batch)
    ensures GoodPosts(posts + [batch])
  {
    hide GoodPost;
    forall k | 0 <= k < |posts + [batch]|
      ensures GoodPost((posts + [batch])[..k], (posts + [batch])[k])
    {
      assert (posts + [batch])[..k] == posts[..k];
      if k == |posts| { assert posts[..k] == posts; }
    }
  }

  /** What a flush is entitled to. */
  ghost predicate Idle(y: State) {
    && y.open == {} && !y.timer && !y.inflight
    && Queued(y) && Rare(y) && (y.again > 0 ==> y.retried || y.done) && (y.retried ==> y.again > 0 || y.done || y.frames == [])
  }

  lemma FlushedPosts(y: State)
    requires Queued(y) && !y.done && y.frames != []
    ensures var n := Take(y.frames); var batch, posts := y.frames[..n], y.posts + [y.frames[..n]];
            && 0 < n && GoodPosts(posts) && Posted(posts) == Posted(y.posts) - y.again + n && n >= y.again
            && batch[|batch| - 1].num + 1 == Posted(posts)
            && Run(y.frames[n..], Posted(posts))
  {
    hide GoodPosts;
    TakeFits(y.frames);
    var n := Take(y.frames);
    var batch := y.frames[..n];
    PostedGrows(y.posts, batch);
    GoodPostsGrow(y.posts, batch);
  }

  lemma FlushedRare(y: State)
    requires Queued(y) && Rare(y) && y.open == {} && !y.done && y.ready && !y.inflight && y.frames != []
    requires y.again > 0 ==> y.retried
    ensures Rare(Flush(y))
  {
    hide GoodPosts;
    FlushedPosts(y);
    var z := Flush(y);
    var n := Take(y.frames);
    var batch := y.frames[..n];
    assert forall f :: f in batch ==> Posted(y.posts) - y.again <= f.num < Posted(z.posts);
    forall m: nat
      ensures Times(z.posts, m) <= 2
      ensures m >= Posted(z.posts) ==> Times(z.posts, m) == 0
      ensures !z.retried && (exists f :: f in batch && f.num == m) ==> Times(z.posts, m) <= 1
    {
      TimesGrows(y.posts, batch, m);
    }
    assert z.posts[|z.posts| - 1] == batch;
  }

  lemma FlushInv(y: State)
    requires Idle(y) && y.ready
    requires y.frames == [] ==> !y.retried || y.done
    ensures Inv(Flush(y))
  {
    hide GoodPosts, Rare;
    if !y.done && y.frames != [] {
      FlushedPosts(y);
      FlushedRare(y);
    }
  }

  lemma SendQueued(y: State, f: Frame)
    requires Queued(y) && !y.done && f.num == y.next
    ensures Queued(y.(frames := y.frames + [f], next := y.next + 1))
  {
    hide GoodPosts, Fits, Take;
    if y.again > 0 { TakesMore(y.frames, f, y.again); }
  }

  lemma SendInv(y: State, size: nat, bytes: nat)
    requires Inv(y)
    ensures Inv(Send(y, size, bytes))
  {
    hide Queued, Rare, Flush;
    if !y.done && y.ready {
      var y1 := y.(frames := y.frames + [Frame(y.next, size, bytes)], next := y.next + 1);
      SendQueued(y, Frame(y.next, size, bytes));
      SameRare(y, y1);
      if !y.inflight { FlushInv(y1); } else { FlushBusy(y1); }
    }
  }

  lemma FlushBusy(y: State)
    requires y.inflight
    ensures Flush(y) == y
  {
  }

  lemma TakesMore(frames: seq<Frame>, f: Frame, n: nat)
    requires n <= Take(frames) && frames != []
    ensures n <= Take(frames + [f])
  {
    TakeFits(frames);
    var k := Take(frames);
    assert (frames + [f]) == frames[..k] + (frames[k..] + [f]);
    TakesBatchAgain(frames[..k], frames[k..] + [f]);
  }

  lemma FailedQueued(y: State, k: nat)
    requires Queued(y) && k == |y.posts| - 1 && LastReaches(y) && y.again == 0 && !y.retried
    ensures Queued(PostFailed(y, k))
  {
    var batch := y.posts[k];
    assert GoodPost(y.posts[..k], batch);
    hide GoodPosts, Fits, Posted, Take;
    TakesBatchAgain(batch, y.frames);
  }

  lemma FailedRare(y: State, k: nat)
    requires Rare(y) && GoodPosts(y.posts) && k == |y.posts| - 1 && LastReaches(y) && y.open == {k} && !y.retried
    ensures Rare(PostFailed(y, k))
  {
    var batch := y.posts[k];
    assert GoodPost(y.posts[..k], batch);
    hide GoodPosts, Fits, Posted, Times;
    forall n: nat | Posted(y.posts) - |batch| <= n < Posted(y.posts)
      ensures Times(y.posts, n) <= 1
    {
      assert batch[n - (Posted(y.posts) - |batch|)].num == n;
    }
  }

  lemma InvParts(y: State)
    requires Inv(y) && y.open != {}
    ensures Queued(y) && Rare(y) && GoodPosts(y.posts) && |y.posts| > 0 && LastReaches(y) && y.again == 0
  {
  }

  lemma FailedFirst(y: State, k: nat)
    requires Inv(y) && y.open == {k} && k == |y.posts| - 1 && !y.retried
    ensures Inv(PostFailed(y, k))
  {
    hide Rare, Queued, GoodPosts;
    InvParts(y);
    FailedQueued(y, k);
    FailedRare(y, k);
    BatchNonempty(y.posts, k);
  }

  lemma FailedAgain(y: State, k: nat)
    requires Inv(y) && y.open == {k} && k == |y.posts| - 1 && y.retried && y.ready
    ensures Inv(PostFailed(y, k))
  {
    hide Rare, GoodPosts, Take, Posted, Flush;
    var y1 := y.(open := y.open - {k}, retried := false, inflight := false);
    SameRare(y, y1);
    FlushInv(y1);
  }

  lemma FailedInv(y: State, k: nat)
    requires Inv(y) && k in y.open && k < |y.posts| && y.ready
    ensures Inv(PostFailed(y, k))
  {
    hide Rare, Queued, LastReaches, PostFailed;
    assert y.open == {k};
    if !y.retried { FailedFirst(y, k); } else { FailedAgain(y, k); }
  }

  lemma BatchNonempty(posts: seq<seq<Frame>>, k: nat)
    requires GoodPosts(posts) && k < |posts|
    ensures posts[k] != []
  {
    assert GoodPost(posts[..k], posts[k]);
  }

  lemma AnsweredInv(y: State, k: nat, gone: bool)
    requires Inv(y) && k in y.open && y.ready
    ensures Inv(PostAnswered(y, k, gone))
  {
    hide GoodPosts, Rare;
    assert y.open == {k};
    var y1 := y.(open := y.open - {k}, retried := false, inflight := false);
    SameRare(y, y1);
    if !gone { FlushInv(y1); } else { SameRare(y, Finish(y1)); }
  }

  lemma SameRare(y: State, z: State)
    requires Rare(y) && z.posts == y.posts && (z.open != {} ==> z.open == y.open && z.retried == y.retried)
    requires !z.done ==> !y.done && z.again <= y.again
    ensures Rare(z)
  {
  }

  lemma RetryInv(y: State)
    requires Inv(y) && y.timer && y.ready
    ensures Inv(RetryTimer(y))
  {
    hide GoodPosts, Rare;
    var y1 := y.(timer := false, inflight := false);
    SameRare(y, y1);
    FlushInv(y1);
  }

  lemma StopInv(y: State, z: State)
    requires Inv(y) && (z == Finish(y) || z == Close(y))
    ensures Inv(z)
  {
    hide GoodPosts, Rare;
    SameRare(y, z);
  }

  ghost predicate Whole(y: State) {
    Inv(y) && (y.posts != [] || y.timer || y.open != {} ==> y.ready)
  }

  lemma NextInv(y: State, e: Event)
    requires Whole(y) && Possible(y, e)
    ensures Whole(Next(y, e))
  {
    hide Inv, Flush;
    match e {
      case Welcomed => SameButReady(y);
      case Sends(size, bytes) => SendInv(y, size, bytes);
      case Fails(k) => FailedInv(y, k);
      case Answers(k, gone) => AnsweredInv(y, k, gone);
      case RetryEnds => RetryInv(y);
      case StreamDrops => StopInv(y, Finish(y));
      case Closes => StopInv(y, Close(y));
    }
    FlushKeepsReady();
  }

  lemma FlushKeepsReady()
    ensures forall y :: Flush(y).ready == y.ready && (!y.ready ==> Flush(y) == y)
  {
  }

  lemma SameButReady(y: State)
    requires Inv(y)
    ensures Inv(y.(ready := true))
  {
    hide GoodPosts, Rare;
    SameRare(y, y.(ready := true));
  }

  // ------------------------------------------------------------------
  // Every run.
  // ------------------------------------------------------------------

  predicate Feasible(y: State, run: seq<Event>)
    decreases |run|
  {
    run == [] || (Possible(y, run[0]) && Feasible(Next(y, run[0]), run[1..]))
  }

  function After(y: State, run: seq<Event>): State
    requires Feasible(y, run)
    decreases |run|
  {
    if run == [] then y else After(Next(y, run[0]), run[1..])
  }

  lemma {:induction false} RunInv(y: State, run: seq<Event>)
    requires Whole(y) && Feasible(y, run)
    ensures Whole(After(y, run))
    decreases |run|
  {
    hide Whole, Next, Possible;
    if run != [] {
      NextInv(y, run[0]);
      RunInv(Next(y, run[0]), run[1..]);
    }
  }

  lemma IdleWhole()
    ensures Whole(IDLE)
  {
  }

  /** One POST at a time; every batch within the limits; no frame in more than two. */
  lemma Bounded(run: seq<Event>, k: nat, num: nat)
    requires Feasible(IDLE, run) && k < |After(IDLE, run).posts|
    ensures var y := After(IDLE, run);
            && |y.open| <= 1 && Times(y.posts, num) <= 2
            && 0 < |y.posts[k]| <= POST_MAX_FRAMES && (|y.posts[k]| > 1 ==> Size(y.posts[k]) <= POST_MAX_BYTES)
  {
    hide After, Feasible;
    IdleWhole();
    RunInv(IDLE, run);
    assert GoodPost(After(IDLE, run).posts[..k], After(IDLE, run).posts[k]);
  }

  /** A frame is posted only when every frame sent before it has been, in an earlier POST or ahead of it in this one. */
  lemma NothingOvertakes(run: seq<Event>, k: nat, i: nat, num: nat)
    requires Feasible(IDLE, run) && k < |After(IDLE, run).posts| && i < |After(IDLE, run).posts[k]|
    requires num < After(IDLE, run).posts[k][i].num
    ensures var posts := After(IDLE, run).posts;
            || (exists h, j :: 0 <= h < k && 0 <= j < |posts[h]| && posts[h][j].num == num)
            || (exists j :: 0 <= j < i && posts[k][j].num == num)
  {
    hide After, Feasible;
    IdleWhole();
    RunInv(IDLE, run);
    var posts := After(IDLE, run).posts;
    assert GoodPost(posts[..k], posts[k]);
    if num >= posts[k][0].num {
      assert posts[k][num - posts[k][0].num].num == num;
    } else {
      forall h | 0 <= h < k
        ensures GoodPost(posts[..k][..h], posts[..k][h])
      {
        assert posts[..k][..h] == posts[..h];
        assert GoodPost(posts[..h], posts[h]);
      }
      PostedBelow(posts[..k], num);
    }
  }

  lemma {:induction false} PostedBelow(posts: seq<seq<Frame>>, num: nat)
    requires GoodPosts(posts) && num < Posted(posts)
    ensures exists h, j :: 0 <= h < |posts| && 0 <= j < |posts[h]| && posts[h][j].num == num
    decreases |posts|
  {
    var k := |posts| - 1;
    var before, last := posts[..k], posts[k];
    assert GoodPost(posts[..k], posts[k]);
    if last[0].num <= num < last[0].num + |last| {
      assert posts[k][num - last[0].num].num == num;
    } else {
      forall h | 0 <= h < k
        ensures GoodPost(before[..h], before[h])
      {
        assert before[..h] == posts[..h];
        assert GoodPost(posts[..h], posts[h]);
      }
      PostedBelow(before, num);
      var h, j :| 0 <= h < |before| && 0 <= j < |before[h]| && before[h][j].num == num;
      assert posts[h][j].num == num;
    }
  }

  // ------------------------------------------------------------------
  // What was taken is posted.
  // ------------------------------------------------------------------

  /** The stream goes on, and the relay knows the session. */
  predicate Spares(e: Event) {
    !e.StreamDrops? && !e.Closes? && !(e.Answers? && e.gone)
  }

  predicate AllSpare(run: seq<Event>) {
    forall k :: 0 <= k < |run| ==> Spares(run[k])
  }

  /** Nothing waits without a POST under way or a timer set. */
  ghost predicate Working(y: State) {
    !y.done && (y.frames != [] ==> y.ready && y.inflight)
  }

  lemma FlushWorks(y: State)
    requires !y.done && (y.frames != [] ==> y.ready)
    ensures Working(Flush(y)) && Flush(y).next == y.next
  {
    hide Take;
  }

  lemma StepWorks(y: State, e: Event)
    requires Whole(y) && Working(y) && Possible(y, e) && Spares(e)
    ensures Working(Next(y, e))
    ensures Next(y, e).next == y.next + (if e.Sends? && y.ready then 1 else 0)
  {
    hide Flush, Inv;
    match e {
      case Sends(size, bytes) =>
        if y.ready { FlushWorks(y.(frames := y.frames + [Frame(y.next, size, bytes)], next := y.next + 1)); }
      case Fails(k) => if y.retried { FlushWorks(y.(open := y.open - {k}, retried := false, inflight := false)); } else { OpenIsBusy(y, k); }
      case Answers(k, gone) => FlushWorks(y.(open := y.open - {k}, retried := false, inflight := false));
      case RetryEnds => FlushWorks(y.(timer := false, inflight := false));
      case _ =>
    }
  }

  lemma OpenIsBusy(y: State, k: nat)
    requires Whole(y) && k in y.open
    ensures y.inflight && y.ready
  {
    hide Queued, Rare;
  }

  lemma {:induction false} RunWorks(y: State, run: seq<Event>)
    requires Whole(y) && Working(y) && Feasible(y, run) && AllSpare(run)
    ensures Whole(After(y, run)) && Working(After(y, run))
    decreases |run|
  {
    hide Whole, Working, Next, Possible, Spares;
    if run != [] {
      NextInv(y, run[0]);
      StepWorks(y, run[0]);
      RunWorks(Next(y, run[0]), run[1..]);
    }
  }

  /**
   While the stream goes on, no frame that was taken is left behind: with no POST under way
   and no timer set the outbox is empty, and every frame ever taken was in some POST.
   */
  lemma EverythingIsPosted(run: seq<Event>, num: nat)
    requires Feasible(IDLE, run) && AllSpare(run)
    requires After(IDLE, run).open == {} && !After(IDLE, run).timer && num < After(IDLE, run).next
    ensures var y := After(IDLE, run);
            y.frames == [] && exists k, j :: 0 <= k < |y.posts| && 0 <= j < |y.posts[k]| && y.posts[k][j].num == num
  {
    hide After, Feasible, AllSpare;
    IdleWhole();
    RunWorks(IDLE, run);
    var y := After(IDLE, run);
    AllPosted(y);
    PostedBelow(y.posts, num);
  }

  lemma AllPosted(y: State)
    requires Whole(y) && Working(y) && y.open == {} && !y.timer
    ensures y.frames == [] && GoodPosts(y.posts) && Posted(y.posts) == y.next
  {
    hide Rare, GoodPosts, Take;
  }

  /** A POST that failed for the first time, and then nothing but more frames to send. */
  ghost predicate Returned(y: State, batch: seq<Frame>, posts: seq<seq<Frame>>) {
    && !y.done && y.ready && y.inflight && y.timer && y.posts == posts
    && |y.frames| >= |batch| && y.frames[..|batch|] == batch && y.again == |batch|
  }

  lemma {:induction false} StaysReturned(y: State, run: seq<Event>, batch: seq<Frame>, posts: seq<seq<Frame>>)
    requires Returned(y, batch, posts) && Feasible(y, run) && forall k :: 0 <= k < |run| ==> run[k].Sends?
    ensures Returned(After(y, run), batch, posts)
    decreases |run|
  {
    hide Take, Possible;
    if run != [] { StaysReturned(Next(y, run[0]), run[1..], batch, posts); }
  }

  /** When its timer fires it is posted again, whole and first, whatever was sent meanwhile. */
  lemma FailedIsRepeated(y: State, k: nat, run: seq<Event>)
    requires Whole(y) && !y.done && Possible(y, Fails(k)) && !y.retried
    requires Feasible(Next(y, Fails(k)), run) && forall i :: 0 <= i < |run| ==> run[i].Sends?
    ensures var z := After(Next(y, Fails(k)), run);
            && Possible(z, RetryEnds)
            && var posts := Next(z, RetryEnds).posts;
               && |posts| == |y.posts| + 1 && posts[..|y.posts|] == y.posts
               && |posts[|y.posts|]| >= |y.posts[k]| && posts[|y.posts|][..|y.posts[k]|] == y.posts[k]
  {
    hide After, Feasible, Inv, Take;
    OpenIsBusy(y, k);
    NextInv(y, Fails(k));
    var batch := y.posts[k];
    assert (batch + y.frames)[..|batch|] == batch;
    StaysReturned(Next(y, Fails(k)), run, batch, y.posts);
    RunInv(Next(y, Fails(k)), run);
    var z := After(Next(y, Fails(k)), run);
    TakesReturned(y, k, z);
    RetryPosts(z, batch);
  }

  lemma TakesReturned(y: State, k: nat, z: State)
    requires Whole(y) && k in y.open && Whole(z) && Returned(z, y.posts[k], y.posts) && k < |y.posts|
    ensures z.frames != [] && |y.posts[k]| <= Take(z.frames) <= |z.frames|
  {
    hide Rare, Run, Posted;
    BatchNonempty(y.posts, k);
  }

  lemma RetryPosts(y: State, batch: seq<Frame>)
    requires Returned(y, batch, y.posts) && y.frames != [] && |batch| <= Take(y.frames) <= |y.frames|
    ensures var posts := Next(y, RetryEnds).posts;
            && |posts| == |y.posts| + 1 && posts[..|y.posts|] == y.posts
            && |posts[|y.posts|]| >= |batch| && posts[|y.posts|][..|batch|] == batch
  {
    hide Take;
    assert y.frames[..Take(y.frames)][..|batch|] == y.frames[..|batch|];
  }

  /** Once the relay has said hello, a frame that finds nothing under way is posted at once, by itself. */
  lemma IdleSendPosts(y: State, size: nat, bytes: nat)
    requires !y.done && !y.inflight && y.frames == []
    ensures var z := Next(Next(y, Welcomed), Sends(size, bytes));
            z.posts == y.posts + [[Frame(y.next, size, bytes)]] && z.open == y.open + {|y.posts|} && z.frames == [] && z.inflight
  {
    var batch := [Frame(y.next, size, bytes)];
    TakeFits(batch);
    assert y.frames + batch == batch && batch[..1] == batch && batch[1..] == [];
  }

  // ------------------------------------------------------------------
  // Once it is over.
  // ------------------------------------------------------------------

  predicate Ends(e: Event) {
    e.StreamDrops? || e.Closes? || (e.Answers? && e.gone)
  }

  lemma {:induction false} StaysOver(y: State, run: seq<Event>)
    requires y.done && Feasible(y, run)
    ensures After(y, run).posts == y.posts && After(y, run).next == y.next
    decreases |run|
  {
    hide Take;
    if run != [] {
      StepOver(y, run[0]);
      hide Next, Possible;
      StaysOver(Next(y, run[0]), run[1..]);
    }
  }

  /** A POST that fails after the end may still set its timer, and the timer finds nothing to do. */
  lemma StepOver(y: State, e: Event)
    requires y.done && Possible(y, e)
    ensures Next(y, e).done && Next(y, e).posts == y.posts && Next(y, e).next == y.next
  {
    hide Take;
  }

  /** After a close, or the loss of the stream, nothing is taken and nothing is posted. */
  lemma OverIsOver(y: State, e: Event, run: seq<Event>)
    requires Possible(y, e) && Ends(e) && Feasible(Next(y, e), run)
    ensures After(Next(y, e), run).posts == y.posts && After(Next(y, e), run).next == y.next
  {
    hide After, Feasible;
    StaysOver(Next(y, e), run);
  }

  // ------------------------------------------------------------------
  // The relay's cap on a body.
  // ------------------------------------------------------------------

  /** One frame per line: the frames, and a newline between each two. */
  function BodyBytes(batch: seq<Frame>): nat {
    if batch == [] then 0
    else BodyBytes(batch[..|batch| - 1]) + batch[|batch| - 1].bytes + (if |batch| > 1 then 1 else 0)
  }

  lemma {:induction false} BodyAtMost(batch: seq<Frame>, cap: nat)
    requires forall i :: 0 <= i < |batch| ==> batch[i].bytes <= cap
    ensures BodyBytes(batch) <= |batch| * cap + (if batch == [] then 0 else |batch| - 1)
    decreases |batch|
  {
    if batch != [] {
      var n := |batch|;
      BodyAtMost(batch[..n - 1], cap);
      assert (n - 1) * cap + cap == n * cap;
    }
  }

  lemma AtMost16(n: nat, cap: nat)
    requires n <= 16 && cap >= 2
    ensures n * cap + n <= 24 * cap
  {
    assert n * cap + (16 - n) * cap == 16 * cap;
    assert (16 - n) * cap >= 0;
  }

  /** A batch of frames the relay takes one by one is never more than it takes in one body. */
  lemma LegalBatchFits(batch: seq<Frame>, maxFrameBytes: nat)
    requires Fits(batch) && maxFrameBytes >= 2
    requires forall i :: 0 <= i < |batch| ==> batch[i].bytes <= maxFrameBytes
    ensures BodyBytes(batch) <= 24 * maxFrameBytes
  {
    hide BodyBytes, Size;
    BodyAtMost(batch, maxFrameBytes);
    AtMost16(|batch|, maxFrameBytes);
  }
}
