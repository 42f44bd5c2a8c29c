/** The worker pool: a task queue, one mutex and one condition variable, under every interleaving of its threads. */
module ThreadPool {
  import opened Options

  type Task = nat

  /** A worker is about to take the lock and look, asleep on the condition variable, running the k-th submitted task, or
      gone. */
  datatype Worker = AtLock | Asleep | Running(k: nat) | Exited

  /** `notifies` counts callers of run() between unlocking and notify_one; `stopNotify` a stopper before notify_all. */
  datatype Pool = Pool(
    queue: seq<Task>, stopped: bool, workers: seq<Worker>, notifies: nat, stopNotify: bool,
    submitted: seq<Task>, dequeued: seq<Task>, finished: set<nat>)

  datatype Step =
    | Push(task: Task)
    | NotifyOne(wake: nat)
    | Look(w: nat)
    | Finish(w: nat)
    | Spurious(w: nat)
    | Stop
    | NotifyAll

  function Start(n: nat): Pool {
    Pool([], false, seq(n, _ => AtLock), 0, false, [], [], {})
  }

  predicate AnyAsleep(p: Pool) {
    exists i :: 0 <= i < |p.workers| && p.workers[i] == Asleep
  }

  function WakeAll(ws: seq<Worker>): (r: seq<Worker>)
    ensures |r| == |ws| && forall i :: 0 <= i < |ws| ==> r[i] == if ws[i] == Asleep then AtLock else ws[i]
  {
    seq(|ws|, i requires 0 <= i < |ws| => if ws[i] == Asleep then AtLock else ws[i])
  }

  /** One atomic step; None when it is not enabled. */
  function Apply(p: Pool, step: Step): Option<Pool> {
    match step
    case Push(task) =>
      Some(p.(queue := p.queue + [task], submitted := p.submitted + [task], notifies := p.notifies + 1))
    case NotifyOne(wake) =>
      if p.notifies == 0 then None
      else if !AnyAsleep(p) then Some(p.(notifies := p.notifies - 1))
      else if wake < |p.workers| && p.workers[wake] == Asleep then
        Some(p.(notifies := p.notifies - 1, workers := p.workers[wake := AtLock]))
      else None
    case Look(w) =>
      if w >= |p.workers| || p.workers[w] != AtLock then None
      else if p.stopped then Some(p.(workers := p.workers[w := Exited]))
      else if p.queue == [] then Some(p.(workers := p.workers[w := Asleep]))
      else
        Some(p.(workers := p.workers[w := Running(|p.dequeued|)], queue := p.queue[1..],
                dequeued := p.dequeued + [p.queue[0]]))
    case Finish(w) =>
      if w >= |p.workers| || !p.workers[w].Running? then None
      else Some(p.(workers := p.workers[w := AtLock], finished := p.finished + {p.workers[w].k}))
    case Spurious(w) =>
      if w >= |p.workers| || p.workers[w] != Asleep then None
      else Some(p.(workers := p.workers[w := AtLock]))
    case Stop => Some(p.(stopped := true, stopNotify := true))
    case NotifyAll =>
      if !p.stopNotify then None else Some(p.(stopNotify := false, workers := WakeAll(p.workers)))
  }

  function Run(p: Pool, steps: seq<Step>): Option<Pool> {
    if steps == [] then Some(p)
    else
      match Run(p, steps[..|steps| - 1])
      case None => None
      case Some(q) => Apply(q, steps[|steps| - 1])
  }

  // ----- safety

  /** Nothing is lost, reordered or taken twice. */
  predicate Conserved(p: Pool) {
    p.submitted == p.dequeued + p.queue
  }

  /** No task is run by two workers, or again after it finished. */
  predicate NeverTwice(p: Pool) {
    NeverAgain(p) && NeverShared(p)
  }

  predicate NeverAgain(p: Pool) {
    && (forall k :: k in p.finished ==> k < |p.dequeued|)
    && (forall i :: 0 <= i < |p.workers| && p.workers[i].Running? ==>
          p.workers[i].k < |p.dequeued| && p.workers[i].k !in p.finished)
  }

  predicate NeverShared(p: Pool) {
    forall i, j :: 0 <= i < j < |p.workers| && p.workers[i].Running? ==> p.workers[i] != p.workers[j]
  }

  /** Every task taken is being run or was finished. */
  predicate NeverDropped(p: Pool) {
    forall k: nat :: k < |p.dequeued| ==> k in p.finished || Running(k) in p.workers
  }

  predicate Awake(p: Pool) {
    exists i :: 0 <= i < |p.workers| && (p.workers[i] == AtLock || p.workers[i].Running?)
  }

  /** Workers leave only after a stop, none sleeps once the stop was announced, and a waiting task always has an awake
      worker or a notification on its way. */
  predicate NoLostWakeup(p: Pool) {
    && (!p.stopped ==> forall i :: 0 <= i < |p.workers| ==> p.workers[i] != Exited)
    && (p.stopNotify ==> p.stopped)
    && (p.stopped && !p.stopNotify ==> !AnyAsleep(p))
    && (!p.stopped && p.queue != [] && p.workers != [] ==> Awake(p) || p.notifies > 0)
  }

  lemma {:induction false} ConservedStep(p: Pool, step: Step)
    requires Conserved(p) && Apply(p, step).Some?
    ensures Conserved(Apply(p, step).value)
  {
    if step.Look? && !p.stopped && p.queue != [] {
      assert p.queue == [p.queue[0]] + p.queue[1..];
    }
  }

  lemma {:induction false} Set(ws: seq<Worker>, w: nat, was: Worker, now: Worker, k: nat)
    requires w < |ws| && ws[w] == was && (was != Running(k) || now == Running(k))
    ensures Running(k) in ws ==> Running(k) in ws[w := now]
    ensures now in ws[w := now]
  {
    assert ws[w := now][w] == now;
    if Running(k) in ws {
      var i :| 0 <= i < |ws| && ws[i] == Running(k);
      assert ws[w := now][i] == Running(k);
    }
  }

  lemma {:induction false} NeverTwiceStep(p: Pool, step: Step)
    requires NeverTwice(p) && Apply(p, step).Some?
    ensures NeverTwice(Apply(p, step).value)
  {
    hide NeverAgain, NeverShared, Apply;
    NeverAgainStep(p, step);
    NeverSharedStep(p, step);
  }

  lemma {:induction false} NeverAgainStep(p: Pool, step: Step)
    requires NeverTwice(p) && Apply(p, step).Some?
    ensures NeverAgain(Apply(p, step).value)
  {}

  lemma {:induction false} NeverSharedStep(p: Pool, step: Step)
    requires NeverTwice(p) && Apply(p, step).Some?
    ensures NeverShared(Apply(p, step).value)
  {}

  lemma {:induction false} NeverDroppedStep(p: Pool, step: Step)
    requires NeverDropped(p) && Apply(p, step).Some?
    ensures NeverDropped(Apply(p, step).value)
  {
    var q := Apply(p, step).value;
    forall k: nat | k < |q.dequeued| ensures k in q.finished || Running(k) in q.workers {
      if step.Look? {
        if k < |p.dequeued| {
          Set(p.workers, step.w, AtLock, q.workers[step.w], k);
        } else {
          assert q.workers[step.w] == Running(k);
        }
      } else if step.Finish? {
        if p.workers[step.w] != Running(k) { Set(p.workers, step.w, p.workers[step.w], AtLock, k); }
      } else if step.Spurious? {
        Set(p.workers, step.w, Asleep, AtLock, k);
      } else if step.NotifyOne? && AnyAsleep(p) {
        Set(p.workers, step.wake, Asleep, AtLock, k);
      } else if step.NotifyAll? && k !in p.finished {
        var i :| 0 <= i < |p.workers| && p.workers[i] == Running(k);
        assert q.workers[i] == Running(k);
      }
    }
  }

  lemma {:induction false} NoLostWakeupStep(p: Pool, step: Step)
    requires NoLostWakeup(p) && Apply(p, step).Some?
    ensures NoLostWakeup(Apply(p, step).value)
  {
    var q := Apply(p, step).value;
    if !q.stopped && q.queue != [] && q.workers != [] {
      match step
      case NotifyOne(wake) =>
        if AnyAsleep(p) {
          assert q.workers[wake] == AtLock;
        } else {
          assert q.workers[0] == AtLock || q.workers[0].Running?;
        }
      case Look(w) => assert q.workers[w].Running?;
      case Finish(w) => assert q.workers[w] == AtLock;
      case Spurious(w) => assert q.workers[w] == AtLock;
      case _ =>
    }
  }

  predicate Safe(p: Pool) {
    Conserved(p) && NeverTwice(p) && NeverDropped(p) && NoLostWakeup(p)
  }

  /** In every interleaving the submitted tasks are those taken followed by those waiting, in order; each taken task is run
      exactly once; and no wake-up is lost. */
  lemma {:induction false} AlwaysSafe(n: nat, steps: seq<Step>)
    requires Run(Start(n), steps).Some?
    ensures Safe(Run(Start(n), steps).value) && |Run(Start(n), steps).value.workers| == n
  {
    if steps != [] {
      hide Conserved, NeverTwice, NeverDropped, NoLostWakeup;
      var before, step := Run(Start(n), steps[..|steps| - 1]).value, steps[|steps| - 1];
      AlwaysSafe(n, steps[..|steps| - 1]);
      ConservedStep(before, step);
      NeverTwiceStep(before, step);
      NeverDroppedStep(before, step);
      NoLostWakeupStep(before, step);
    }
  }

  // ----- progress

  /** A step some thread of the pool takes by itself. */
  predicate Internal(step: Step) {
    step.NotifyOne? || step.Look? || step.Finish? || step.NotifyAll?
  }

  ghost predicate Quiet(p: Pool) {
    forall step: Step :: Internal(step) ==> Apply(p, step).None?
  }

  /** All notifications have been made, and the workers sleep before an empty queue, or are gone after a stop. */
  predicate AtRest(p: Pool) {
    && p.notifies == 0 && !p.stopNotify
    && if p.stopped then forall i :: 0 <= i < |p.workers| ==> p.workers[i] == Exited
       else p.queue == [] && forall i :: 0 <= i < |p.workers| ==> p.workers[i] == Asleep
  }

  lemma {:induction false} QuietRests(p: Pool)
    requires NoLostWakeup(p) && p.workers != [] && Quiet(p)
    ensures AtRest(p)
  {
    assert Apply(p, NotifyAll).None?;
    assert p.notifies == 0 by {
      if w :| 0 <= w < |p.workers| && p.workers[w] == Asleep {
        assert Apply(p, NotifyOne(w)).None?;
      } else {
        assert Apply(p, NotifyOne(0)).None?;
      }
    }
    forall i | 0 <= i < |p.workers| ensures p.workers[i] == Asleep || p.workers[i] == Exited {
      assert Apply(p, Look(i)).None? && Apply(p, Finish(i)).None?;
    }
  }

  /** A pool with a worker has no step of its own left if and only if it is at rest. */
  lemma {:induction false} RestIff(p: Pool)
    requires NoLostWakeup(p) && p.workers != []
    ensures Quiet(p) <==> AtRest(p)
  {
    if Quiet(p) { QuietRests(p); }
  }

  function Weight(w: Worker): nat {
    match w
    case Exited => 0
    case AtLock => 1
    case Running(_) => 2
    case Asleep => 2
  }

  function Weights(ws: seq<Worker>): nat {
    if ws == [] then 0 else Weights(ws[..|ws| - 1]) + Weight(ws[|ws| - 1])
  }

  function Rank(p: Pool): nat {
    Weights(p.workers) + p.notifies + if p.stopNotify then 1 else 0
  }

  lemma {:induction false} WeightsSet(ws: seq<Worker>, w: nat, now: Worker)
    requires w < |ws|
    ensures Weights(ws[w := now]) == Weights(ws) - Weight(ws[w]) + Weight(now)
  {
    var n := |ws| - 1;
    assert ws[w := now][..n] == if w == n then ws[..n] else ws[..n][w := now];
    if w < n { WeightsSet(ws[..n], w, now); }
  }

  lemma {:induction false} WeightsWake(ws: seq<Worker>)
    ensures Weights(WakeAll(ws)) <= Weights(ws)
  {
    if ws != [] {
      WeightsWake(ws[..|ws| - 1]);
      assert WakeAll(ws)[..|ws| - 1] == WakeAll(ws[..|ws| - 1]);
    }
  }

  /** After a stop nothing more is taken, and every step of the pool's threads, spurious wake-ups included, brings it
      closer to its end. */
  lemma {:induction false} StopStep(p: Pool, step: Step)
    requires p.stopped && Apply(p, step).Some? && !step.Push? && !step.Stop?
    ensures var q := Apply(p, step).value;
      q.stopped && q.dequeued == p.dequeued && q.queue == p.queue && Rank(q) < Rank(p)
  {
    match step
    case NotifyOne(wake) => if AnyAsleep(p) { WeightsSet(p.workers, wake, AtLock); }
    case Look(w) => WeightsSet(p.workers, w, Exited);
    case Finish(w) => WeightsSet(p.workers, w, AtLock);
    case Spurious(w) => WeightsSet(p.workers, w, AtLock);
    case NotifyAll => WeightsWake(p.workers);
  }

  function Busy(ws: seq<Worker>): nat {
    if ws == [] then 0 else Busy(ws[..|ws| - 1]) + if ws[|ws| - 1].Running? then 1 else 0
  }

  lemma {:induction false} BusySet(ws: seq<Worker>, w: nat, now: Worker)
    requires w < |ws|
    ensures Busy(ws[w := now]) ==
      Busy(ws) - (if ws[w].Running? then 1 else 0) + (if now.Running? then 1 else 0)
  {
    var n := |ws| - 1;
    assert ws[w := now][..n] == if w == n then ws[..n] else ws[..n][w := now];
    if w < n { BusySet(ws[..n], w, now); }
  }

  lemma {:induction false} BusyWake(ws: seq<Worker>)
    ensures Busy(WakeAll(ws)) == Busy(ws)
  {
    if ws != [] {
      BusyWake(ws[..|ws| - 1]);
      assert WakeAll(ws)[..|ws| - 1] == WakeAll(ws[..|ws| - 1]);
    }
  }

  lemma {:induction false} StopFinishes(p: Pool, step: Step)
    requires p.stopped && Apply(p, step).Some? && !step.Push? && !step.Stop?
    ensures |Apply(p, step).value.finished| + Busy(Apply(p, step).value.workers) <= |p.finished| + Busy(p.workers)
  {
    match step
    case NotifyOne(wake) => if AnyAsleep(p) { BusySet(p.workers, wake, AtLock); }
    case Look(w) => BusySet(p.workers, w, Exited);
    case Finish(w) => BusySet(p.workers, w, AtLock);
    case Spurious(w) => BusySet(p.workers, w, AtLock);
    case NotifyAll => BusyWake(p.workers);
  }

  /** A stopped pool takes at most its rank in steps, in which only the tasks already running are finished. */
  lemma {:induction false} StopTerminates(p: Pool, steps: seq<Step>)
    requires p.stopped && Run(p, steps).Some?
    requires forall i :: 0 <= i < |steps| ==> !steps[i].Push? && !steps[i].Stop?
    ensures var q := Run(p, steps).value;
      && q.stopped && q.dequeued == p.dequeued && |steps| + Rank(q) <= Rank(p)
      && |q.finished| + Busy(q.workers) <= |p.finished| + Busy(p.workers)
  {
    if steps != [] {
      StopTerminates(p, steps[..|steps| - 1]);
      StopStep(Run(p, steps[..|steps| - 1]).value, steps[|steps| - 1]);
      StopFinishes(Run(p, steps[..|steps| - 1]).value, steps[|steps| - 1]);
    }
  }
}
