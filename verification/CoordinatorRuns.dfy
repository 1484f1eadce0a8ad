/** Any number of threads using one coordinator, interleaved at its atomic blocks. */
module CoordinatorRuns {
  import opened Common
  import opened Coordinator

  type ThreadId = nat

  /** Where a thread stands with respect to the lock. */
  datatype Phase =
    | Idle
    | Queued(request: Request, waiter: Waiter)
    | Inside(request: Request)
    | Yielding(request: Request, record: Request, forUrgentWaiter: bool, asleep: bool)

  datatype Sys = Sys(lock: Lock, threads: map<ThreadId, Phase>)

  const START := Sys(FREE_LOCK, map[])

  function PhaseOf(s: Sys, t: ThreadId): Phase {
    if t in s.threads then s.threads[t] else Idle
  }

  /** One atomic block run by one thread. `now` is the monotonic clock it reads. */
  datatype Step =
    | Enqueue(thread: ThreadId, request: Request)
    | Admit(thread: ThreadId)
    | TryAcquire(thread: ThreadId, request: Request, now: nat)
    | StartYield(thread: ThreadId, now: nat)
    | Wake(thread: ThreadId)
    | Resume(thread: ThreadId)
    | Release(thread: ThreadId)

  /** Threads only start from Idle, and only the thread inside calls yield or leaves. */
  predicate Enabled(s: Sys, step: Step) {
    var phase := PhaseOf(s, step.thread);
    match step
    case Enqueue(_, _) => phase.Idle?
    case Admit(_) => phase.Queued? && CanAcquire(s.lock, phase.waiter)
    case TryAcquire(_, _, _) => phase.Idle?
    case StartYield(_, _) => phase.Inside?
    case Wake(_) => phase.Yielding? && phase.asleep
    case Resume(_) =>
      phase.Yielding? && !phase.asleep && CanResume(s.lock, phase.record, phase.forUrgentWaiter)
    case Release(_) => phase.Inside?
  }

  function Moved(s: Sys, t: ThreadId, lock: Lock, phase: Phase): Sys {
    Sys(lock, s.threads[t := phase])
  }

  /** A yield without a more urgent waiter first sleeps briefly; any notification also ends the sleep. */
  function YieldMoved(s: Sys, t: ThreadId, request: Request, now: nat): Sys {
    var (lock, start) := YieldStarted(s.lock, now);
    match start
    case NotHeld => s
    case StillHeld => s.(lock := lock)
    case GaveUp(record, urgent) => Moved(s, t, lock, Yielding(request, record, urgent, !urgent))
  }

  function Apply(s: Sys, step: Step): Sys
    requires Enabled(s, step)
  {
    var t := step.thread;
    var phase := PhaseOf(s, t);
    match step
    case Enqueue(_, r) =>
      var lock := Enqueued(s.lock, r);
      Moved(s, t, lock, Queued(r, lock.waiters[|s.lock.waiters|]))
    case Admit(_) => Moved(s, t, Admitted(s.lock, phase.waiter, phase.request), Inside(phase.request))
    case TryAcquire(_, r, now) =>
      if s.lock.holder.Some? then s.(lock := Refused(s.lock, r, now))
      else Moved(s, t, s.lock.(holder := Some(r)), Inside(r))
    case StartYield(_, now) => YieldMoved(s, t, phase.request, now)
    case Wake(_) => Moved(s, t, s.lock, phase.(asleep := false))
    case Resume(_) => Moved(s, t, Resumed(s.lock, phase.record), Inside(phase.request))
    case Release(_) => Moved(s, t, Released(s.lock, phase.request.loopName), Idle)
  }

  predicate Legal(s: Sys, steps: seq<Step>)
    decreases |steps|
  {
    steps == [] || (Enabled(s, steps[0]) && Legal(Apply(s, steps[0]), steps[1..]))
  }

  function After(s: Sys, steps: seq<Step>): Sys
    requires Legal(s, steps)
    decreases |steps|
  {
    if steps == [] then s else After(Apply(s, steps[0]), steps[1..])
  }

  // ---- What every step keeps -------------------------------------------------------------

  /** Exactly the thread inside is named by the holder fields. */
  ghost predicate HolderNamesInside(s: Sys) {
    && (forall t :: PhaseOf(s, t).Inside? ==> s.lock.holder == Some(PhaseOf(s, t).request))
    && (forall t, u :: PhaseOf(s, t).Inside? && PhaseOf(s, u).Inside? ==> t == u)
    && (s.lock.holder.Some? ==> exists t :: PhaseOf(s, t).Inside?)
  }

  /** A queued thread waits under the name and the urgency it asked with. */
  ghost predicate WaitsAsAsked(s: Sys) {
    forall t :: PhaseOf(s, t).Queued? ==>
      var p := PhaseOf(s, t); p.waiter.loopName == p.request.loopName && p.waiter.priority == p.request.priority
  }

  /** The queue holds one entry per queued thread. */
  ghost predicate QueueMatchesThreads(s: Sys) {
    && Distinct(s.lock.waiters)
    && (forall w <- s.lock.waiters :: w.sequence <= s.lock.sequence)
    && (forall t :: PhaseOf(s, t).Queued? ==> PhaseOf(s, t).waiter in s.lock.waiters)
    && (forall t, u | PhaseOf(s, t).Queued? && PhaseOf(s, u).Queued? ::
          PhaseOf(s, t).waiter == PhaseOf(s, u).waiter ==> t == u)
    && (forall w <- s.lock.waiters :: exists t :: PhaseOf(s, t).Queued? && PhaseOf(s, t).waiter == w)
  }

  /** A thread that gave up the lock takes back what it had, and the yield record has an owner. */
  ghost predicate YieldsAreOwned(s: Sys) {
    && (forall t :: PhaseOf(s, t).Yielding? ==> PhaseOf(s, t).record == PhaseOf(s, t).request)
    && (s.lock.yielding.Some? ==>
          exists t :: PhaseOf(s, t).Yielding? && PhaseOf(s, t).record == s.lock.yielding.value)
  }

  ghost predicate Inv(s: Sys) {
    HolderNamesInside(s) && QueueMatchesThreads(s) && YieldsAreOwned(s) && WaitsAsAsked(s)
  }

  lemma StepKeepsHolder(s: Sys, step: Step)
    requires Inv(s) && Enabled(s, step)
    ensures HolderNamesInside(Apply(s, step))
  {
    var s' := Apply(s, step);
    var t := step.thread;
    assert forall u :: u != t ==> PhaseOf(s', u) == PhaseOf(s, u);
    if s'.lock.holder.Some? {
      if !PhaseOf(s', t).Inside? {
        var u :| PhaseOf(s, u).Inside?;
        assert PhaseOf(s', u).Inside?;
      }
    }
  }

  predicate IsAdmissionOf(s: Sys, step: Step, w: Waiter)
  {
    step.Admit? && PhaseOf(s, step.thread).Queued? && PhaseOf(s, step.thread).waiter == w
  }

  lemma StepKeepsEntries(s: Sys, step: Step)
    requires QueueMatchesThreads(s) && Enabled(s, step)
    ensures var l := Apply(s, step).lock;
            Distinct(l.waiters) && forall w <- l.waiters :: w.sequence <= l.sequence
  {
    if step.Admit? {
      WithoutDropsExactlyOne(s.lock.waiters, PhaseOf(s, step.thread).waiter);
    }
  }

  /** Only queueing and admission change the queue, and each changes its own thread's entry. */
  lemma StepQueueChange(s: Sys, step: Step, w: Waiter)
    requires QueueMatchesThreads(s) && Enabled(s, step)
    ensures var s' := Apply(s, step);
            w in s'.lock.waiters <==>
              if step.Enqueue? then w in s.lock.waiters || w == PhaseOf(s', step.thread).waiter
              else w in s.lock.waiters && !IsAdmissionOf(s, step, w)
  {
    if step.Admit? {
      WithoutDropsExactlyOne(s.lock.waiters, PhaseOf(s, step.thread).waiter);
    }
  }

  lemma StepKeepsQueue(s: Sys, step: Step)
    requires QueueMatchesThreads(s) && Enabled(s, step)
    ensures QueueMatchesThreads(Apply(s, step))
  {
    var s' := Apply(s, step);
    var t := step.thread;
    StepKeepsEntries(s, step);
    forall u | PhaseOf(s', u).Queued?
      ensures PhaseOf(s', u).waiter in s'.lock.waiters
    {
      StepQueueChange(s, step, PhaseOf(s', u).waiter);
      assert u != t ==> PhaseOf(s', u) == PhaseOf(s, u);
    }
    forall u, v | PhaseOf(s', u).Queued? && PhaseOf(s', v).Queued? && PhaseOf(s', u).waiter == PhaseOf(s', v).waiter
      ensures u == v
    {
      assert u != t ==> PhaseOf(s', u) == PhaseOf(s, u);
      assert v != t ==> PhaseOf(s', v) == PhaseOf(s, v);
      assert step.Enqueue? ==> PhaseOf(s', t).waiter.sequence > s.lock.sequence;
    }
    forall w | w in s'.lock.waiters
      ensures exists u :: PhaseOf(s', u).Queued? && PhaseOf(s', u).waiter == w
    {
      StepQueueChange(s, step, w);
      if w in s.lock.waiters {
        var u :| PhaseOf(s, u).Queued? && PhaseOf(s, u).waiter == w;
        assert PhaseOf(s', u) == PhaseOf(s, u);
      } else {
        assert PhaseOf(s', t).waiter == w;
      }
    }
  }

  lemma StepKeepsYields(s: Sys, step: Step)
    requires Inv(s) && Enabled(s, step)
    ensures YieldsAreOwned(Apply(s, step))
  {
    var s' := Apply(s, step);
    var t := step.thread;
    assert forall u :: u != t ==> PhaseOf(s', u) == PhaseOf(s, u);
    if s'.lock.yielding.Some? {
      if s'.lock.yielding == s.lock.yielding {
        var u :| PhaseOf(s, u).Yielding? && PhaseOf(s, u).record == s.lock.yielding.value;
        assert PhaseOf(s', u).Yielding? && PhaseOf(s', u).record == s.lock.yielding.value;
      } else {
        assert PhaseOf(s', t).Yielding? && PhaseOf(s', t).record == s'.lock.yielding.value;
      }
    }
  }

  lemma StepKeepsInv(s: Sys, step: Step)
    requires Inv(s) && Enabled(s, step)
    ensures Inv(Apply(s, step))
  {
    StepKeepsHolder(s, step);
    StepKeepsQueue(s, step);
    StepKeepsYields(s, step);
    assert forall u :: u != step.thread ==> PhaseOf(Apply(s, step), u) == PhaseOf(s, u);
  }

  lemma {:induction false} RunKeepsInv(s: Sys, steps: seq<Step>)
    requires Inv(s) && Legal(s, steps)
    ensures Inv(After(s, steps))
    decreases |steps|
  {
    if steps != [] {
      StepKeepsInv(s, steps[0]);
      RunKeepsInv(Apply(s, steps[0]), steps[1..]);
    }
  }

  // ---- Mutual exclusion ------------------------------------------------------------------

  /** In every reachable state at most one thread is inside; the holder fields name exactly it,
      and a thread that gave up the lock in a yield is not inside. */
  lemma MutualExclusion(steps: seq<Step>, t: ThreadId, u: ThreadId)
    requires Legal(START, steps)
    ensures var s := After(START, steps);
            && (PhaseOf(s, t).Inside? && PhaseOf(s, u).Inside? ==> t == u)
            && (PhaseOf(s, t).Inside? ==> s.lock.holder == Some(PhaseOf(s, t).request))
            && (s.lock.holder.Some? <==> exists v :: PhaseOf(s, v).Inside?)
  {
    RunKeepsInv(START, steps);
  }

  /** Although release compares names only, a thread that leaves always frees its own hold. */
  lemma ReleaseFreesOwnHold(steps: seq<Step>, t: ThreadId)
    requires Legal(START, steps) && Enabled(After(START, steps), Release(t))
    ensures var s := After(START, steps);
            && s.lock.holder == Some(PhaseOf(s, t).request)
            && Apply(s, Release(t)).lock.holder == None
  {
    RunKeepsInv(START, steps);
  }

  /** The program reads the holder fields whoever calls yield. A yield that gives up the lock keeps
      the holder fields truthful exactly when the caller is the thread inside. */
  lemma YieldIsSafeExactlyFromInside(s: Sys, t: ThreadId, r: Request, now: nat)
    requires Inv(s)
    requires YieldStarted(s.lock, now).1.GaveUp?
    ensures HolderNamesInside(YieldMoved(s, t, r, now)) <==> PhaseOf(s, t).Inside?
  {
    var s' := YieldMoved(s, t, r, now);
    assert forall u :: u != t ==> PhaseOf(s', u) == PhaseOf(s, u);
    var v :| PhaseOf(s, v).Inside?;
    if v != t {
      assert PhaseOf(s', v).Inside? && s'.lock.holder == None;
    }
  }

  // ---- Queue order -----------------------------------------------------------------------

  /** Over any run, with any yields and immediate acquisitions in between, a queued waiter is
      never passed: while the one that comes first still queues, so does the one behind it. */
  lemma {:induction false} QueuedWaiterIsNeverPassed(s: Sys, steps: seq<Step>, first: Waiter, second: Waiter)
    requires Inv(s) && Legal(s, steps)
    requires first in s.lock.waiters && second in s.lock.waiters && Before(first, second)
    ensures first in After(s, steps).lock.waiters ==> second in After(s, steps).lock.waiters
    decreases |steps|
  {
    if steps != [] {
      var step := steps[0];
      var s' := Apply(s, step);
      StepKeepsInv(s, step);
      StepQueueChange(s, step, first);
      StepQueueChange(s, step, second);
      if first in s'.lock.waiters {
        if step.Admit? {
          AdmissionTakesTheHead(s.lock, PhaseOf(s, step.thread).waiter);
        }
        QueuedWaiterIsNeverPassed(s', steps[1..], first, second);
      } else {
        OnceAdmittedNeverQueuedAgain(s', steps[1..], first);
      }
    }
  }

  /** Sequence numbers are never reused, so a waiter that left the queue stays out. */
  lemma {:induction false} OnceAdmittedNeverQueuedAgain(s: Sys, steps: seq<Step>, w: Waiter)
    requires Inv(s) && Legal(s, steps)
    requires w !in s.lock.waiters && w.sequence <= s.lock.sequence
    ensures w !in After(s, steps).lock.waiters
    decreases |steps|
  {
    if steps != [] {
      var step := steps[0];
      if step.Admit? {
        WithoutDropsExactlyOne(s.lock.waiters, PhaseOf(s, step.thread).waiter);
      }
      StepKeepsInv(s, step);
      OnceAdmittedNeverQueuedAgain(Apply(s, step), steps[1..], w);
    }
  }

  /** A waiter of the same urgency that queues later comes behind: first come, first served. */
  lemma LaterArrivalComesBehind(s: Sys, t: ThreadId, r: Request, w: Waiter)
    requires Inv(s) && Enabled(s, Enqueue(t, r))
    requires w in s.lock.waiters && w.priority <= r.priority
    ensures Before(w, PhaseOf(Apply(s, Enqueue(t, r)), t).waiter)
  {
  }

  // ---- A yielding loop keeps its place ---------------------------------------------------

  predicate DisturbsYield(s: Sys, step: Step) {
    || step.Resume?
    || (step.StartYield? && YieldStarted(s.lock, step.now).1.GaveUp?)
  }

  predicate NoOtherYield(s: Sys, steps: seq<Step>)
    requires Legal(s, steps)
    decreases |steps|
  {
    steps == [] || (!DisturbsYield(s, steps[0]) && NoOtherYield(Apply(s, steps[0]), steps[1..]))
  }

  predicate OnlyMoreUrgentAdmitted(s: Sys, steps: seq<Step>, priority: int)
    requires Legal(s, steps)
    decreases |steps|
  {
    steps == [] ||
    (&& (steps[0].Admit? ==> PhaseOf(s, steps[0].thread).waiter.priority < priority)
     && OnlyMoreUrgentAdmitted(Apply(s, steps[0]), steps[1..], priority))
  }

  /** From a yield until its loop takes the lock back, and as long as no other loop yields in
      between, the queue only lets strictly more urgent waiters run. */
  lemma {:induction false} YieldingLoopKeepsItsPlace(s: Sys, steps: seq<Step>, record: Request)
    requires Legal(s, steps) && NoOtherYield(s, steps)
    requires s.lock.yielding == Some(record)
    ensures OnlyMoreUrgentAdmitted(s, steps, record.priority)
    decreases |steps|
  {
    if steps != [] {
      YieldingLoopKeepsItsPlace(Apply(s, steps[0]), steps[1..], record);
    }
  }

  /** A yield by the thread inside leaves exactly its own record as the one that guards the queue. */
  lemma YieldRecordsItsOwner(s: Sys, t: ThreadId, now: nat)
    requires Inv(s) && Enabled(s, StartYield(t, now))
    requires YieldStarted(s.lock, now).1.GaveUp?
    ensures Apply(s, StartYield(t, now)).lock.yielding == Some(PhaseOf(s, t).request)
    ensures PhaseOf(Apply(s, StartYield(t, now)), t).record == PhaseOf(s, t).request
  {
  }

  /** Over any run: once a loop gives up the lock in a yield, and as long as no other loop yields, only
      waiters strictly more urgent than that loop are admitted until it takes the lock back. */
  lemma YielderIsNotPassed(run: seq<Step>, t: ThreadId, now: nat, steps: seq<Step>)
    requires Legal(START, run)
    requires var s := After(START, run);
             && Enabled(s, StartYield(t, now)) && YieldStarted(s.lock, now).1.GaveUp?
             && Legal(Apply(s, StartYield(t, now)), steps) && NoOtherYield(Apply(s, StartYield(t, now)), steps)
    ensures var s := After(START, run);
            OnlyMoreUrgentAdmitted(Apply(s, StartYield(t, now)), steps, PhaseOf(s, t).request.priority)
  {
    var s := After(START, run);
    RunKeepsInv(START, run);
    YieldRecordsItsOwner(s, t, now);
    YieldingLoopKeepsItsPlace(Apply(s, StartYield(t, now)), steps, PhaseOf(s, t).request);
  }

  /** Who can be admitted past a yielding loop: exactly the head of the queue when the one shared
      record is gone or names a less urgent loop. */
  lemma PassedExactlyWhenRecordLost(s: Sys, t: ThreadId, u: ThreadId)
    requires Inv(s) && s.lock.holder.None?
    requires PhaseOf(s, t).Yielding? && PhaseOf(s, u).Queued?
    requires PhaseOf(s, u).waiter.priority >= PhaseOf(s, t).record.priority
    requires forall v <- s.lock.waiters :: v != PhaseOf(s, u).waiter ==> Before(PhaseOf(s, u).waiter, v)
    ensures Enabled(s, Admit(u)) <==>
            s.lock.yielding.None? || PhaseOf(s, u).waiter.priority < s.lock.yielding.value.priority
  {
    AdmissionTakesTheHead(s.lock, PhaseOf(s, u).waiter);
  }

  // ---- Pending yield requests over runs --------------------------------------------------

  /** The step refuses an immediate request more urgent than the holder, and `p` is the mark it leaves. */
  predicate Refuses(s: Sys, step: Step, p: PendingYield) {
    && step.TryAcquire? && s.lock.holder.Some? && step.request.priority < s.lock.holder.value.priority
    && p.loopName == step.request.loopName && p.priority == step.request.priority
    && (p.expiresAt == step.now + MIN_PENDING_YIELD || p.expiresAt == step.now + s.lock.holder.value.chunk)
    && p.expiresAt >= step.now + MIN_PENDING_YIELD && p.expiresAt >= step.now + s.lock.holder.value.chunk
    && p.sequence == s.lock.sequence + 1
  }

  /** The step is a yield that keeps the lock, or gives it up, with `p` among the live requests more urgent
      than the holder. */
  predicate Sees(s: Sys, step: Step, p: PendingYield) {
    && step.StartYield? && s.lock.holder.Some?
    && p in s.lock.pending && p.expiresAt > step.now && p.priority < s.lock.holder.value.priority
  }

  predicate Expires(s: Sys, step: Step, p: PendingYield) {
    step.StartYield? && p in s.lock.pending && p.expiresAt <= step.now
  }

  ghost predicate PendingNumbered(s: Sys) {
    forall p <- s.lock.pending :: p.sequence <= s.lock.sequence
  }

  /** A pending request comes only from a refusal, and goes only by expiry or by the yield that sees it. */
  lemma StepChangesPending(s: Sys, step: Step, p: PendingYield)
    requires Inv(s) && Enabled(s, step)
    ensures var s' := Apply(s, step);
            && (p in s'.lock.pending <==>
                  (p in s.lock.pending && !Sees(s, step, p) && !Expires(s, step, p)) || (Refuses(s, step, p)))
            && s.lock.sequence <= s'.lock.sequence
            && (Refuses(s, step, p) ==> s'.lock.sequence == p.sequence)
  {
    if step.StartYield? {
      YieldSees(s.lock, step.now);
    }
  }

  predicate ComesFromRefusal(s: Sys, steps: seq<Step>, p: PendingYield)
    requires Legal(s, steps)
    decreases |steps|
  {
    steps != [] && (Refuses(s, steps[0], p) || ComesFromRefusal(Apply(s, steps[0]), steps[1..], p))
  }

  /** Over any run: every pending request is the mark of a refusal, of an immediate request more urgent
      than the holder of that moment. */
  lemma {:induction false} PendingComesFromRefusal(s: Sys, steps: seq<Step>, p: PendingYield)
    requires Inv(s) && Legal(s, steps) && p in After(s, steps).lock.pending
    ensures p in s.lock.pending || ComesFromRefusal(s, steps, p)
    decreases |steps|
  {
    if steps != [] {
      StepKeepsInv(s, steps[0]);
      StepChangesPending(s, steps[0], p);
      PendingComesFromRefusal(Apply(s, steps[0]), steps[1..], p);
    }
  }

  function TimesSeen(s: Sys, steps: seq<Step>, p: PendingYield): nat
    requires Legal(s, steps)
    decreases |steps|
  {
    if steps == [] then 0
    else (if Sees(s, steps[0], p) then 1 else 0) + TimesSeen(Apply(s, steps[0]), steps[1..], p)
  }

  lemma StepKeepsNumbers(s: Sys, step: Step)
    requires Inv(s) && PendingNumbered(s) && Enabled(s, step)
    ensures PendingNumbered(Apply(s, step))
  {
    var s' := Apply(s, step);
    forall p | p in s'.lock.pending
      ensures p.sequence <= s'.lock.sequence
    {
      StepChangesPending(s, step, p);
    }
  }

  /** Over any run: at most one yield sees a request, and it is gone afterwards for good. */
  lemma {:induction false} SeenByAtMostOneYield(s: Sys, steps: seq<Step>, p: PendingYield)
    requires Inv(s) && PendingNumbered(s) && Legal(s, steps)
    ensures TimesSeen(s, steps, p) <= 1
    ensures TimesSeen(s, steps, p) == 1 ==> p !in After(s, steps).lock.pending
    ensures p !in s.lock.pending && p.sequence <= s.lock.sequence ==>
              TimesSeen(s, steps, p) == 0 && p !in After(s, steps).lock.pending
    decreases |steps|
  {
    if steps != [] {
      StepKeepsInv(s, steps[0]);
      StepKeepsNumbers(s, steps[0]);
      StepChangesPending(s, steps[0], p);
      SeenByAtMostOneYield(Apply(s, steps[0]), steps[1..], p);
    }
  }

  // ---- A yield to a waiter lets that waiter run first ------------------------------------

  /** None of the steps ends this thread's yield. */
  predicate StaysYielding(s: Sys, steps: seq<Step>, t: ThreadId)
    requires Legal(s, steps)
    decreases |steps|
  {
    steps == [] || (!(steps[0].Resume? && steps[0].thread == t) && StaysYielding(Apply(s, steps[0]), steps[1..], t))
  }

  lemma {:induction false} YieldingStays(s: Sys, steps: seq<Step>, t: ThreadId)
    requires Legal(s, steps) && StaysYielding(s, steps, t) && PhaseOf(s, t).Yielding?
    ensures var p := PhaseOf(After(s, steps), t);
            && p.Yielding? && p.record == PhaseOf(s, t).record && p.forUrgentWaiter == PhaseOf(s, t).forUrgentWaiter
    decreases |steps|
  {
    if steps != [] {
      YieldingStays(Apply(s, steps[0]), steps[1..], t);
    }
  }

  /** A loop that gives up the lock while a more urgent waiter is queued cannot take it back before that
      waiter, and every other more urgent one by then, has left the queue. */
  lemma UrgentWaiterGoesFirst(s: Sys, t: ThreadId, now: nat, w: Waiter, steps: seq<Step>)
    requires Inv(s) && Enabled(s, StartYield(t, now))
    requires w in s.lock.waiters && w.priority < PhaseOf(s, t).request.priority
    requires var s1 := Apply(s, StartYield(t, now)); Legal(s1, steps) && StaysYielding(s1, steps, t)
    ensures var s2 := After(Apply(s, StartYield(t, now)), steps);
            && PhaseOf(s2, t).Yielding?
            && (Enabled(s2, Resume(t)) ==> forall v <- s2.lock.waiters :: v.priority >= PhaseOf(s, t).request.priority)
  {
    YieldSees(s.lock, now);
    YieldingStays(Apply(s, StartYield(t, now)), steps, t);
  }

  lemma Chain(s: Sys, step: Step, rest: seq<Step>, end: Sys) returns (run: seq<Step>)
    requires Enabled(s, step)
    requires Legal(Apply(s, step), rest) && After(Apply(s, step), rest) == end
    ensures Legal(s, run) && After(s, run) == end
  {
    run := [step] + rest;
    assert run[1..] == rest;
  }

  lemma {:induction false} RunThen(s: Sys, steps: seq<Step>, step: Step)
    requires Legal(s, steps) && Enabled(After(s, steps), step)
    ensures Legal(s, steps + [step]) && After(s, steps + [step]) == Apply(After(s, steps), step)
    decreases |steps|
  {
    if steps == [] {
      assert (steps + [step])[1..] == [];
    } else {
      RunThen(Apply(s, steps[0]), steps[1..], step);
      assert (steps + [step])[1..] == steps[1..] + [step];
    }
  }

  const MID := Request("drive", 1, 0)
  const TOP := Request("runtime_turn", 0, 0)
  const LOW := Request("consolidation", 2, 0)

  /** Thread 0 has given up the lock and is runnable, nobody holds it, and the record is gone. */
  const RECORD_LOST := Sys(Lock(None, [], [], 1, None), map[0 := Yielding(MID, MID, true, false), 1 := Idle])

  lemma NestedYieldLosesRecord() returns (run: seq<Step>)
    ensures Legal(START, run) && After(START, run) == RECORD_LOST
  {
    var w := Waiter("runtime_turn", 0, 1);
    var y0 := Yielding(MID, MID, true, false);
    assert MoreUrgent([w], 1) == [w];
    var s1 := Sys(Lock(Some(MID), [], [], 0, None), map[0 := Inside(MID)]);
    var s2 := Sys(Lock(Some(MID), [w], [], 1, None), map[0 := Inside(MID), 1 := Queued(TOP, w)]);
    assert w in s2.lock.waiters;
    var s3 := Sys(Lock(None, [w], [], 1, Some(MID)), map[0 := y0, 1 := Queued(TOP, w)]);
    var s4 := Sys(Lock(Some(TOP), [], [], 1, Some(MID)), map[0 := y0, 1 := Inside(TOP)]);
    var s5 := Sys(Lock(None, [], [], 1, Some(TOP)), map[0 := y0, 1 := Yielding(TOP, TOP, false, true)]);
    var s6 := Sys(s5.lock, map[0 := y0, 1 := Yielding(TOP, TOP, false, false)]);
    var s7 := Sys(Lock(Some(TOP), [], [], 1, None), map[0 := y0, 1 := Inside(TOP)]);
    assert Apply(s7, Release(1)) == RECORD_LOST;
    assert Apply(s6, Resume(1)) == s7;
    assert Apply(s5, Wake(1)) == s6;
    assert Apply(s4, StartYield(1, 0)) == s5;
    assert Apply(s3, Admit(1)) == s4;
    assert Apply(s2, StartYield(0, 0)) == s3;
    assert Apply(s1, Enqueue(1, TOP)) == s2;
    assert Apply(START, TryAcquire(0, MID, 0)) == s1;
    run := Chain(s7, Release(1), [], RECORD_LOST);
    run := Chain(s6, Resume(1), run, RECORD_LOST);
    run := Chain(s5, Wake(1), run, RECORD_LOST);
    run := Chain(s4, StartYield(1, 0), run, RECORD_LOST);
    run := Chain(s3, Admit(1), run, RECORD_LOST);
    run := Chain(s2, StartYield(0, 0), run, RECORD_LOST);
    run := Chain(s1, Enqueue(1, TOP), run, RECORD_LOST);
    run := Chain(START, TryAcquire(0, MID, 0), run, RECORD_LOST);
  }

  /** With nested yields the shared record is lost: thread 0 yields to thread 1; thread 1 yields too,
      takes the lock back and leaves; then thread 2, less urgent than thread 0, is admitted before it. */
  lemma NestedYieldLosesPlace()
    ensures exists run ::
              && Legal(START, run)
              && var s := After(START, run);
              && PhaseOf(s, 0).Yielding? && PhaseOf(s, 2).Queued?
              && PhaseOf(s, 2).waiter.priority > PhaseOf(s, 0).record.priority
              && Enabled(s, Admit(2))
  {
    var run := NestedYieldLosesRecord();
    var step := Enqueue(2, LOW);
    RunThen(START, run, step);
    assert Apply(RECORD_LOST, step).lock.waiters == [Waiter("consolidation", 2, 2)];
  }

  // ---- Progress --------------------------------------------------------------------------

  predicate Waits(phase: Phase) {
    phase.Queued? || phase.Yielding?
  }

  /** The protocol never gets stuck: in every reachable state in which the lock is free and some
      thread waits for it, one of the waiting threads can take its next step. */
  lemma NeverStuck(steps: seq<Step>, t: ThreadId)
    requires Legal(START, steps)
    requires After(START, steps).lock.holder.None? && Waits(PhaseOf(After(START, steps), t))
    ensures exists u :: var s := After(START, steps);
                        Waits(PhaseOf(s, u)) && (Enabled(s, Admit(u)) || Enabled(s, Wake(u)) || Enabled(s, Resume(u)))
  {
    var s := After(START, steps);
    RunKeepsInv(START, steps);
    if Eligible(s.lock) != [] {
      var w := Least(Eligible(s.lock));
      var u :| PhaseOf(s, u).Queued? && PhaseOf(s, u).waiter == w;
      assert Enabled(s, Admit(u));
    } else if s.lock.yielding.Some? {
      var u :| PhaseOf(s, u).Yielding? && PhaseOf(s, u).record == s.lock.yielding.value;
      assert forall w <- s.lock.waiters :: w !in Eligible(s.lock);
      assert Enabled(s, Wake(u)) || Enabled(s, Resume(u));
    } else {
      assert s.lock.waiters == [];
      assert PhaseOf(s, t).Yielding?;
      assert Enabled(s, Wake(t)) || Enabled(s, Resume(t));
    }
  }
}
