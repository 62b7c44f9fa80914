// Background image pulls (workload/pull.go): requests, the pulling goroutines, the
// semaphore, backoff and the wake-up channel. A goroutine is a worker that moves
// through phases; each critical section or channel operation is one atomic step, so
// every interleaving of the original is a sequence of steps here.

module Pulls {
  import opened Text

  const SECOND := 1_000_000_000
  const BACKOFF_BASE := 10 * SECOND
  const BACKOFF_MAX := 300 * SECOND

  /** pullState; retryAt None is the zero time. */
  datatype Pull = Pull(inFlight: bool, err: bool, failures: nat, retryAt: Option<int>)

  /** Queued waits for a slot, Pulling is in PullImage, Notifying is between finishPull's
      critical section and its wake-up, Leaving is about to give its slot back. */
  datatype Phase = Queued | Pulling | Notifying | Leaving

  datatype Worker = Worker(image: string, phase: Phase)

  datatype World = World(pulls: map<string, Pull>, workers: map<nat, Worker>, spawned: nat,
                         slots: nat, cap: nat, kick: bool, now: int, closed: bool)

  datatype Step =
    | Request(image: string)
    | Acquire(w: nat)
    | Abort(w: nat)
    | Settle(w: nat, ok: bool)
    | Kick(w: nat)
    | Release(w: nat)
    | Prune(want: set<string>)
    | Receive
    | Tick(d: nat)
    | Close

  function Start(cap: nat, now: int): World { World(map[], map[], 0, 0, cap, false, now, false) }

  // ---- Backoff --------------------------------------------------------------

  function Shl(x: nat, k: nat): nat { if k == 0 then x else 2 * Shl(x, k - 1) }

  function Min(a: int, b: int): int { if a < b then a else b }

  /** The code's delay: the shift is capped at 5, the result at the maximum. */
  function Backoff(failures: nat): int
    requires failures > 0
  {
    Min(Shl(BACKOFF_BASE, Min(failures - 1, 5)), BACKOFF_MAX)
  }

  lemma {:induction false} ShlGrows(x: nat, k: nat)
    requires k >= 5
    ensures Shl(x, k) >= Shl(x, 5)
  {
    if k > 5 { ShlGrows(x, k - 1); }
  }

  lemma ShlFive(x: nat)
    ensures Shl(x, 5) == 32 * x
  {
    assert Shl(x, 5) == 2 * (2 * Shl(x, 3)) == 8 * (2 * Shl(x, 1));
  }

  /** Capping the shift changes nothing: it is min(10s * 2^(k-1), 5min) for every k. */
  lemma BackoffDoubles(k: nat)
    requires k > 0
    ensures Backoff(k) == Min(Shl(BACKOFF_BASE, k - 1), BACKOFF_MAX)
  {
    if k > 6 {
      ShlGrows(BACKOFF_BASE, k - 1);
      ShlFive(BACKOFF_BASE);
    }
  }

  // ---- The steps ------------------------------------------------------------

  predicate Due(s: World, image: string) {
    image !in s.pulls ||
    (!s.pulls[image].inFlight && (s.pulls[image].retryAt.None? || s.now >= s.pulls[image].retryAt.value))
  }

  function Requested(s: World, image: string): World {
    var ps := if image in s.pulls then s.pulls[image] else Pull(false, false, 0, None);
    if Due(s, image) then
      s.(pulls := s.pulls[image := ps.(inFlight := true)],
         workers := s.workers[s.spawned := Worker(image, Queued)], spawned := s.spawned + 1)
    else s
  }

  function Finished(pulls: map<string, Pull>, image: string, ok: bool, now: int): map<string, Pull> {
    if ok then pulls - {image}
    else if image !in pulls then pulls
    else
      var n := pulls[image].failures + 1;
      pulls[image := Pull(false, true, n, Some(now + Backoff(n)))]
  }

  function Pruned(pulls: map<string, Pull>, want: set<string>): map<string, Pull> {
    map i | i in pulls && (pulls[i].inFlight || i in want) :: pulls[i]
  }

  predicate Enabled(s: World, e: Step) {
    match e
    case Acquire(w) => w in s.workers && s.workers[w].phase == Queued && s.slots < s.cap
    case Abort(w) => w in s.workers && s.workers[w].phase == Queued && s.closed
    case Settle(w, _) => w in s.workers && s.workers[w].phase == Pulling
    case Kick(w) => w in s.workers && s.workers[w].phase == Notifying
    case Release(w) => w in s.workers && s.workers[w].phase == Leaving
    case Receive => s.kick
    case _ => true
  }

  function Move(s: World, w: nat, p: Phase): World
    requires w in s.workers
  {
    s.(workers := s.workers[w := s.workers[w].(phase := p)])
  }

  function Next(s: World, e: Step): World
    requires Enabled(s, e)
  {
    match e
    case Request(image) => Requested(s, image)
    case Acquire(w) => Move(s, w, Pulling).(slots := s.slots + 1)
    case Abort(w) => s.(pulls := Finished(s.pulls, s.workers[w].image, false, s.now), workers := s.workers - {w})
    case Settle(w, ok) => Move(s, w, if ok then Notifying else Leaving)
                          .(pulls := Finished(s.pulls, s.workers[w].image, ok, s.now))
    case Kick(w) => Move(s, w, Leaving).(kick := true)
    case Release(w) => s.(workers := s.workers - {w}, slots := if s.slots > 0 then s.slots - 1 else 0)
    case Prune(want) => s.(pulls := Pruned(s.pulls, want))
    case Receive => s.(kick := false)
    case Tick(d) => s.(now := s.now + d)
    case Close => s.(closed := true)
  }

  ghost predicate IsRun(s: World, es: seq<Step>) {
    es == [] || (IsRun(s, es[..|es| - 1]) && Enabled(After(s, es[..|es| - 1]), es[|es| - 1]))
  }

  /** The state after a run. */
  ghost function After(s: World, es: seq<Step>): World
    decreases es, 0
  {
    if es == [] then s
    else
      var p := After(s, es[..|es| - 1]);
      if Enabled(p, es[|es| - 1]) then Next(p, es[|es| - 1]) else p
  }

  // ---- The invariant --------------------------------------------------------

  predicate Live(k: Worker) { k.phase in {Queued, Pulling} }

  /** The workers that hold a slot. */
  ghost function Holders(ws: map<nat, Worker>): set<nat> { set w | w in ws && ws[w].phase != Queued }

  /** A live worker's record survives, marked in flight, until its own finishPull. */
  ghost predicate Recorded(s: World) {
    forall w :: w in s.workers && Live(s.workers[w]) ==>
      s.workers[w].image in s.pulls && s.pulls[s.workers[w].image].inFlight
  }

  /** Every record marked in flight has its worker. */
  ghost predicate Owned(s: World) {
    forall i :: i in s.pulls && s.pulls[i].inFlight ==> Busy(s, i)
  }

  ghost predicate Busy(s: World, image: string) {
    exists w :: w in s.workers && Live(s.workers[w]) && s.workers[w].image == image
  }

  /** At most one pull in flight per image. */
  ghost predicate Single(s: World) {
    forall v, w | v in s.workers && w in s.workers && Live(s.workers[v]) && Live(s.workers[w])
      :: s.workers[v].image == s.workers[w].image ==> v == w
  }

  ghost predicate Inv(s: World) {
    && (forall w :: w in s.workers ==> w < s.spawned)
    && Recorded(s) && Owned(s) && Single(s)
    // the semaphore counts exactly the workers past it
    && |Holders(s.workers)| == s.slots <= s.cap
  }

  function Holds(ws: map<nat, Worker>, w: nat): nat { if w in ws && ws[w].phase != Queued then 1 else 0 }

  lemma HoldersWithout(ws: map<nat, Worker>, w: nat)
    ensures |Holders(ws - {w})| == |Holders(ws)| - Holds(ws, w)
  {
    assert Holders(ws - {w}) == Holders(ws) - {w};
    assert w in Holders(ws) <==> Holds(ws, w) == 1;
    if w !in Holders(ws) { assert Holders(ws) - {w} == Holders(ws); }
  }

  lemma HoldersMove(ws: map<nat, Worker>, w: nat, k: Worker)
    ensures |Holders(ws[w := k])| == |Holders(ws)| - Holds(ws, w) + (if k.phase != Queued then 1 else 0)
    ensures |Holders(ws - {w})| == |Holders(ws)| - Holds(ws, w)
  {
    HoldersWithout(ws, w);
    HoldersWithout(ws[w := k], w);
    assert ws[w := k] - {w} == ws - {w};
  }

  lemma SlotsKept(s: World, e: Step)
    requires Inv(s) && Enabled(s, e)
    ensures |Holders(Next(s, e).workers)| == Next(s, e).slots <= s.cap
  {
    hide Holders, Recorded, Owned, Single, Finished, Pruned;
    match e
    case Request(i) => HoldersMove(s.workers, s.spawned, Worker(i, Queued));
    case Acquire(w) => HoldersMove(s.workers, w, s.workers[w].(phase := Pulling));
    case Abort(w) => HoldersMove(s.workers, w, s.workers[w]);
    case Settle(w, ok) => HoldersMove(s.workers, w, s.workers[w].(phase := if ok then Notifying else Leaving));
    case Kick(w) => HoldersMove(s.workers, w, s.workers[w].(phase := Leaving));
    case Release(w) => HoldersMove(s.workers, w, s.workers[w]);
    case _ =>
  }

  lemma RecordedKept(s: World, e: Step)
    requires Inv(s) && Enabled(s, e)
    ensures Recorded(Next(s, e)) && Single(Next(s, e))
  {
    hide Owned, Holders;
  }

  lemma OwnersKept(s: World, e: Step)
    requires Inv(s) && Enabled(s, e)
    ensures Owned(Next(s, e))
  {
    hide Holders;
    var t := Next(s, e);
    forall i | i in t.pulls && t.pulls[i].inFlight ensures Busy(t, i) {
      if i in s.pulls && s.pulls[i].inFlight {
        var w :| w in s.workers && Live(s.workers[w]) && s.workers[w].image == i;
        assert w in t.workers && Live(t.workers[w]) && t.workers[w].image == i;
      } else {
        assert t.workers[s.spawned].image == i && Live(t.workers[s.spawned]);
      }
    }
  }

  lemma InvKept(s: World, e: Step)
    requires Inv(s) && Enabled(s, e)
    ensures Inv(Next(s, e))
  {
    hide Holders, Recorded, Owned, Single, Finished, Pruned;
    SlotsKept(s, e);
    RecordedKept(s, e);
    OwnersKept(s, e);
  }

  /** Over every interleaving: one pull per image, its record kept, the semaphore respected. */
  lemma {:induction false} AllRuns(cap: nat, now: int, es: seq<Step>)
    requires IsRun(Start(cap, now), es)
    ensures Inv(After(Start(cap, now), es))
  {
    var s0 := Start(cap, now);
    if es == [] {
      assert Holders(s0.workers) == {};
    } else {
      AllRuns(cap, now, es[..|es| - 1]);
      InvKept(After(s0, es[..|es| - 1]), es[|es| - 1]);
    }
  }

  // ---- Failures in a row ----------------------------------------------------

  datatype Streak = Streak(count: nat, last: int)

  /** What the run says about an image, without looking at the records' counters: how many
      of its pulls failed in a row, and when the last one did. A success ends the streak;
      so does a prune while the image is neither wanted nor being pulled. */
  ghost function StreakOf(s: World, es: seq<Step>, image: string): Streak {
    if es == [] then Streak(0, 0)
    else
      var rest := es[..|es| - 1];
      NextStreak(After(s, rest), StreakOf(s, rest, image), es[|es| - 1], image)
  }

  ghost function NextStreak(p: World, k: Streak, e: Step, image: string): Streak {
    match e
    case Settle(w, ok) =>
      if w in p.workers && p.workers[w].image == image
      then (if ok then Streak(0, 0) else Streak(k.count + 1, p.now)) else k
    case Abort(w) =>
      if w in p.workers && p.workers[w].image == image then Streak(k.count + 1, p.now) else k
    case Prune(want) => if image !in want && !Busy(p, image) then Streak(0, 0) else k
    case _ => k
  }

  /** The record's counter and deadline are exactly the failures in a row and their backoff. */
  ghost predicate Backed(s: World, k: Streak, image: string) {
    && (image !in s.pulls ==> k.count == 0)
    && (image in s.pulls ==> s.pulls[image].failures == k.count && s.pulls[image].err == (k.count > 0)
                             && s.pulls[image].retryAt == if k.count == 0 then None
                                else Some(k.last + Backoff(k.count)))
  }

  lemma {:induction false} BackoffFollowsStreak(cap: nat, now: int, es: seq<Step>, image: string)
    requires IsRun(Start(cap, now), es)
    ensures Backed(After(Start(cap, now), es), StreakOf(Start(cap, now), es, image), image)
  {
    var s0 := Start(cap, now);
    if es != [] {
      var rest, e := es[..|es| - 1], es[|es| - 1];
      BackoffFollowsStreak(cap, now, rest, image);
      AllRuns(cap, now, rest);
      StreakStep(After(s0, rest), StreakOf(s0, rest, image), e, image);
    }
  }

  lemma StreakStep(p: World, k: Streak, e: Step, image: string)
    requires Inv(p) && Enabled(p, e) && Backed(p, k, image)
    ensures Backed(Next(p, e), NextStreak(p, k, e, image), image)
  {
    BusyIsInFlight(p, image);
    hide Holders, Owned, Single, Busy, Backoff;
    match e {
      case Settle(w, ok) => assert Live(p.workers[w]);
      case Abort(w) => assert Live(p.workers[w]);
      case _ =>
    }
  }

  lemma BusyIsInFlight(s: World, image: string)
    requires Inv(s)
    ensures Busy(s, image) <==> image in s.pulls && s.pulls[image].inFlight
  {
    if image in s.pulls && s.pulls[image].inFlight {
      var w :| w in s.workers && Live(s.workers[w]) && s.workers[w].image == image;
    }
  }

  /** After k failures in a row a request starts a pull exactly when none is running and
      min(10s * 2^(k-1), 5min) have passed since the last failure. */
  lemma {:induction false} RetryWaits(cap: nat, now: int, es: seq<Step>, image: string)
    requires IsRun(Start(cap, now), es)
    ensures var s := After(Start(cap, now), es);
            var k := StreakOf(Start(cap, now), es, image);
            Next(s, Request(image)) != s <==>
              !Busy(s, image) &&
              (k.count > 0 ==> s.now >= k.last + Min(Shl(BACKOFF_BASE, k.count - 1), BACKOFF_MAX))
  {
    var s := After(Start(cap, now), es);
    BackoffFollowsStreak(cap, now, es, image);
    AllRuns(cap, now, es);
    BusyIsInFlight(s, image);
    var k := StreakOf(Start(cap, now), es, image);
    if k.count > 0 { BackoffDoubles(k.count); }
    assert Due(s, image) ==> Next(s, Request(image)).spawned == s.spawned + 1;
  }

  // ---- No lost wake-up ------------------------------------------------------

  /** A pull succeeded and the owner has not received a wake-up since. */
  ghost predicate Unheard(s: World, es: seq<Step>) {
    es != [] &&
    match es[|es| - 1]
    case Receive => false
    case Settle(_, ok) => ok || Unheard(s, es[..|es| - 1])
    case _ => Unheard(s, es[..|es| - 1])
  }

  /** Until it is received, a success keeps a wake-up pending or about to be posted. */
  lemma {:induction false} NoLostWakeUp(cap: nat, now: int, es: seq<Step>)
    requires IsRun(Start(cap, now), es) && Unheard(Start(cap, now), es)
    ensures var s := After(Start(cap, now), es);
            s.kick || exists w :: w in s.workers && s.workers[w].phase == Notifying
  {
    var s0 := Start(cap, now);
    var rest, e := es[..|es| - 1], es[|es| - 1];
    var p, s := After(s0, rest), After(s0, es);
    if e.Settle? && e.ok {
      assert s.workers[e.w].phase == Notifying;
    } else {
      NoLostWakeUp(cap, now, rest);
      if !p.kick {
        var w :| w in p.workers && p.workers[w].phase == Notifying;
        AllRuns(cap, now, rest);
        assert s.kick || (w in s.workers && s.workers[w].phase == Notifying);
      }
    }
  }

  /** Conversely every wake-up is the one of a pull that succeeded before it. */
  lemma {:induction false} WakeUpsFollowSuccess(cap: nat, now: int, es: seq<Step>)
    requires IsRun(Start(cap, now), es)
    ensures var s := After(Start(cap, now), es);
            && (forall w :: w in s.workers && s.workers[w].phase == Notifying ==> Settle(w, true) in es)
            && (forall w :: Kick(w) in es ==> Settle(w, true) in es)
            && (s.kick ==> exists w :: Kick(w) in es)
  {
    if es != [] {
      var rest, e := es[..|es| - 1], es[|es| - 1];
      WakeUpsFollowSuccess(cap, now, rest);
      assert forall x :: x in es <==> x in rest || x == e;
      hide IsRun;
      if After(Start(cap, now), rest).kick {
        var w :| Kick(w) in rest;
      }
    }
  }

  // ---- The engine's half in place -------------------------------------------

  datatype PullInfo = NoPull | PullingNow | FailedUntil(retryAt: int)

  class Puller {
    var pulls: map<string, Pull>
    var workers: map<nat, Worker>
    var spawned: nat
    var slots: nat
    const cap: nat
    var kick: bool
    var now: int
    var closed: bool

    ghost function St(): World
      reads this
    {
      World(pulls, workers, spawned, slots, cap, kick, now, closed)
    }

    constructor (cap: nat, now: int)
      ensures St() == Start(cap, now)
    {
      this.pulls, this.workers, this.spawned, this.slots := map[], map[], 0, 0;
      this.cap, this.kick, this.now, this.closed := cap, false, now, false;
    }

    method RequestPull(image: string)
      modifies this
      ensures St() == Next(old(St()), Request(image))
    {
      var due := Due(World(pulls, workers, spawned, slots, cap, kick, now, closed), image);
      if !due { return; }
      if image !in pulls { pulls := pulls[image := Pull(false, false, 0, None)]; }
      pulls := pulls[image := pulls[image].(inFlight := true)];
      workers := workers[spawned := Worker(image, Queued)];
      spawned := spawned + 1;
    }

    /** The pulling goroutine gets its slot. */
    method TakeSlot(w: nat)
      requires Enabled(St(), Acquire(w))
      modifies this
      ensures St() == Next(old(St()), Acquire(w))
    {
      slots := slots + 1;
      workers := workers[w := workers[w].(phase := Pulling)];
    }

    /** finishPull's critical section, after PullImage returned. */
    method FinishPull(w: nat, ok: bool)
      requires Enabled(St(), Settle(w, ok))
      modifies this
      ensures St() == Next(old(St()), Settle(w, ok))
    {
      Record(workers[w].image, ok);
      workers := workers[w := workers[w].(phase := if ok then Notifying else Leaving)];
    }

    /** The goroutine finds the engine closed before it gets a slot. */
    method GiveUp(w: nat)
      requires Enabled(St(), Abort(w))
      modifies this
      ensures St() == Next(old(St()), Abort(w))
    {
      Record(workers[w].image, false);
      workers := workers - {w};
    }

    method Record(image: string, ok: bool)
      modifies this`pulls
      ensures pulls == Finished(old(pulls), image, ok, now)
    {
      if ok {
        pulls := pulls - {image};
      } else if image in pulls {
        var ps := pulls[image].(inFlight := false, err := true, failures := pulls[image].failures + 1);
        ps := ps.(retryAt := Some(now + Min(Shl(BACKOFF_BASE, Min(ps.failures - 1, 5)), BACKOFF_MAX)));
        pulls := pulls[image := ps];
      }
    }

    method PrunePulls(want: set<string>)
      modifies this`pulls
      ensures St() == Next(old(St()), Prune(want))
    {
      var todo := pulls.Keys;
      while todo != {}
        invariant todo <= pulls.Keys <= old(pulls).Keys
        invariant forall i :: i in pulls ==> pulls[i] == old(pulls)[i]
        invariant forall i :: i in old(pulls) ==> (i in pulls <==> i in todo || old(pulls)[i].inFlight || i in want)
      {
        var i :| i in todo;
        todo := todo - {i};
        if !pulls[i].inFlight && i !in want { pulls := pulls - {i}; }
      }
    }

    /** pullInfo: what List reports for an image. */
    method Info(image: string) returns (r: PullInfo)
      ensures r.PullingNow? <==> image in pulls && pulls[image].inFlight
      ensures r.FailedUntil? <==> image in pulls && !pulls[image].inFlight && pulls[image].err
                                  && pulls[image].retryAt.Some?
      ensures r.FailedUntil? ==> Some(r.retryAt) == pulls[image].retryAt
    {
      if image !in pulls { return NoPull; }
      var ps := pulls[image];
      if ps.inFlight { return PullingNow; }
      if ps.err && ps.retryAt.Some? { return FailedUntil(ps.retryAt.value); }
      return NoPull;
    }
  }
}
