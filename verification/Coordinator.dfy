/** The cooperative priority lock shared by all loops of one subject.
    Each method below is one block that the program runs under its condition variable,
    so each is one atomic step; a `wait_for` is a step that succeeds only when its guard holds. */
module Coordinator {
  import opened Common

  /** What a loop asks for, and, once it runs, what the holder fields record about it.
      Lower priorities run first; `chunk` is the longest uninterrupted slice, in milliseconds. */
  datatype Request = Request(loopName: string, priority: int, chunk: nat)

  datatype Waiter = Waiter(loopName: string, priority: int, sequence: nat)

  datatype PendingYield = PendingYield(loopName: string, priority: int, expiresAt: nat, sequence: nat)

  /** Every field the condition variable protects. */
  datatype Lock = Lock(
    holder: Option<Request>,
    waiters: seq<Waiter>,
    pending: seq<PendingYield>,
    sequence: nat,
    yielding: Option<Request>)

  const MIN_PENDING_YIELD := 50

  const FREE_LOCK := Lock(None, [], [], 0, None)

  /** The queue order: urgency first, then arrival. */
  predicate Before(a: Waiter, b: Waiter) {
    a.priority < b.priority || (a.priority == b.priority && a.sequence < b.sequence)
  }

  predicate SomeoneMoreUrgent(waiters: seq<Waiter>, priority: int) {
    exists w <- waiters :: w.priority < priority
  }

  function MoreUrgent(waiters: seq<Waiter>, priority: int): (urgent: seq<Waiter>)
    ensures forall w :: w in urgent <==> w in waiters && w.priority < priority
  {
    if waiters == [] then []
    else (if waiters[0].priority < priority then [waiters[0]] else []) + MoreUrgent(waiters[1..], priority)
  }

  function Eligible(l: Lock): seq<Waiter> {
    match l.yielding
    case None => l.waiters
    case Some(y) => MoreUrgent(l.waiters, y.priority)
  }

  /** The first waiter that no other waiter comes before. */
  function Least(waiters: seq<Waiter>): (least: Waiter)
    requires waiters != []
    ensures least in waiters
    ensures forall w <- waiters :: !Before(w, least)
  {
    if |waiters| == 1 then waiters[0]
    else
      var rest := Least(waiters[1..]);
      assert forall w <- waiters :: w == waiters[0] || w in waiters[1..];
      if Before(rest, waiters[0]) then rest else waiters[0]
  }

  predicate CanAcquire(l: Lock, w: Waiter) {
    && l.holder.None?
    && (l.yielding.Some? ==> w.priority < l.yielding.value.priority)
    && Eligible(l) != []
    && w == Least(Eligible(l))
  }

  /** The queue without the first occurrence of `w`. */
  function Without(waiters: seq<Waiter>, w: Waiter): (rest: seq<Waiter>)
    ensures forall v <- waiters :: v != w ==> v in rest
    ensures forall v <- rest :: v in waiters
  {
    if waiters == [] then []
    else if waiters[0] == w then waiters[1..]
    else [waiters[0]] + Without(waiters[1..], w)
  }

  function Enqueued(l: Lock, r: Request): Lock {
    l.(sequence := l.sequence + 1, waiters := l.waiters + [Waiter(r.loopName, r.priority, l.sequence + 1)])
  }

  function Admitted(l: Lock, w: Waiter, r: Request): Lock {
    l.(waiters := Without(l.waiters, w), holder := Some(r))
  }

  function Max(a: int, b: int): int {
    if a < b then b else a
  }

  /** A refused immediate request leaves a mark when it is more urgent than the holder. */
  function Refused(l: Lock, r: Request, now: nat): Lock
    requires l.holder.Some?
  {
    var h := l.holder.value;
    if r.priority >= h.priority then l
    else
      l.(sequence := l.sequence + 1,
         pending := l.pending
         + [PendingYield(r.loopName, r.priority, now + Max(MIN_PENDING_YIELD, h.chunk), l.sequence + 1)])
  }

  function Live(pending: seq<PendingYield>, now: nat): (live: seq<PendingYield>) {
    if pending == [] then []
    else (if pending[0].expiresAt > now then [pending[0]] else []) + Live(pending[1..], now)
  }

  function NotMoreUrgent(pending: seq<PendingYield>, priority: int): seq<PendingYield> {
    if pending == [] then []
    else
      (if pending[0].priority < priority then [] else [pending[0]])
      + NotMoreUrgent(pending[1..], priority)
  }

  predicate SomeRequestMoreUrgent(pending: seq<PendingYield>, priority: int) {
    exists p <- pending :: p.priority < priority
  }

  /** How a cooperative yield starts. */
  datatype YieldStart =
    | NotHeld
    | StillHeld
    | GaveUp(record: Request, forUrgentWaiter: bool)

  function YieldStarted(l: Lock, now: nat): (Lock, YieldStart) {
    match l.holder
    case None => (l, NotHeld)
    case Some(h) =>
      var live := Live(l.pending, now);
      var drained := l.(pending := NotMoreUrgent(live, h.priority));
      var urgentWaiter := SomeoneMoreUrgent(l.waiters, h.priority);
      if SomeRequestMoreUrgent(live, h.priority) && !urgentWaiter then (drained, StillHeld)
      else (drained.(yielding := Some(h), holder := None), GaveUp(h, urgentWaiter))
  }

  /** When a loop that gave up the lock may take it back. */
  predicate CanResume(l: Lock, record: Request, forUrgentWaiter: bool) {
    l.holder.None? && (forUrgentWaiter ==> !SomeoneMoreUrgent(l.waiters, record.priority))
  }

  function Resumed(l: Lock, record: Request): Lock {
    l.(holder := Some(record), yielding := None)
  }

  /** Releasing compares loop names, not threads. */
  function Released(l: Lock, loopName: string): Lock {
    if l.holder.Some? && l.holder.value.loopName == loopName then l.(holder := None) else l
  }

  predicate Distinct(waiters: seq<Waiter>) {
    forall i, j :: 0 <= i < j < |waiters| ==> waiters[i].sequence != waiters[j].sequence
  }

  lemma {:induction false} WithoutDropsExactlyOne(waiters: seq<Waiter>, w: Waiter)
    requires Distinct(waiters)
    ensures forall v :: v in Without(waiters, w) <==> v in waiters && v != w
    ensures Distinct(Without(waiters, w))
  {
    if waiters != [] {
      var rest := waiters[1..];
      assert Distinct(rest);
      if waiters[0] == w {
        assert forall v <- rest :: v != w;
      } else {
        WithoutDropsExactlyOne(rest, w);
        var kept := Without(rest, w);
        assert forall v <- kept :: v.sequence != waiters[0].sequence by {
          forall v | v in kept ensures v.sequence != waiters[0].sequence {
            assert v in rest;
          }
        }
      }
    }
  }

  /** An admission takes the head of the whole queue, whether or not a yield is under way;
      a yield only adds that the head must be more urgent than the loop that gave up the lock. */
  lemma AdmissionTakesTheHead(l: Lock, w: Waiter)
    requires Distinct(l.waiters)
    ensures CanAcquire(l, w) <==>
            && l.holder.None?
            && w in l.waiters
            && (forall v <- l.waiters :: v != w ==> Before(w, v))
            && (l.yielding.Some? ==> w.priority < l.yielding.value.priority)
  {
    if CanAcquire(l, w) {
      forall v | v in l.waiters && v != w
        ensures Before(w, v)
      {
        DistinctSequences(l.waiters, v, w);
        assert v in Eligible(l) ==> !Before(v, w);
      }
    } else if w in l.waiters && forall v <- l.waiters :: v != w ==> Before(w, v) {
      if Eligible(l) != [] && w in Eligible(l) {
        var least := Least(Eligible(l));
        assert least in l.waiters;
      }
    }
  }

  lemma DistinctSequences(waiters: seq<Waiter>, a: Waiter, b: Waiter)
    requires Distinct(waiters) && a in waiters && b in waiters && a != b
    ensures a.sequence != b.sequence
  {
    var i :| 0 <= i < |waiters| && waiters[i] == a;
    var j :| 0 <= j < |waiters| && waiters[j] == b;
  }

  // ---- Refused requests and the yields that see them -------------------------------------

  lemma {:induction false} LiveMeans(pending: seq<PendingYield>, now: nat, p: PendingYield)
    ensures p in Live(pending, now) <==> p in pending && p.expiresAt > now
  {
    if pending != [] {
      LiveMeans(pending[1..], now, p);
      assert pending == [pending[0]] + pending[1..];
    }
  }

  lemma {:induction false} NotMoreUrgentMeans(pending: seq<PendingYield>, priority: int, p: PendingYield)
    ensures p in NotMoreUrgent(pending, priority) <==> p in pending && p.priority >= priority
  {
    if pending != [] {
      NotMoreUrgentMeans(pending[1..], priority, p);
      assert pending == [pending[0]] + pending[1..];
    }
  }

  lemma {:induction false} OneMoreRequest(pending: seq<PendingYield>, p: PendingYield, priority: int)
    ensures NotMoreUrgent(pending + [p], priority) == NotMoreUrgent(pending, priority) + if p.priority < priority then [] else [p]
    ensures SomeRequestMoreUrgent(pending + [p], priority) <==> SomeRequestMoreUrgent(pending, priority) || p.priority < priority
  {
    assert forall q :: q in pending + [p] <==> q in pending || q == p;
    if pending != [] {
      OneMoreRequest(pending[1..], p, priority);
      assert (pending + [p])[1..] == pending[1..] + [p];
    }
  }

  /** A yield keeps the lock exactly when a live request more urgent than the holder is pending and no
      waiter is more urgent; what is left pending is live and not more urgent. */
  lemma YieldSees(l: Lock, now: nat)
    requires l.holder.Some?
    ensures var (l', start) := YieldStarted(l, now);
            var priority := l.holder.value.priority;
            && (start.StillHeld? <==> (exists p <- l.pending :: p.expiresAt > now && p.priority < priority)
                                      && forall w <- l.waiters :: w.priority >= priority)
            && (start.StillHeld? ==> l'.holder == l.holder && l'.yielding == l.yielding)
            && (!start.StillHeld? ==> start.GaveUp? && l'.holder.None? && l'.yielding == l.holder)
            && (start.GaveUp? ==> start.record == l.holder.value
                                  && (start.forUrgentWaiter <==> exists w <- l.waiters :: w.priority < priority))
            && l'.waiters == l.waiters && l'.sequence == l.sequence
            && forall p :: p in l'.pending <==> p in l.pending && p.expiresAt > now && p.priority >= priority
  {
    var live, priority := Live(l.pending, now), l.holder.value.priority;
    forall p
      ensures p in live <==> p in l.pending && p.expiresAt > now
      ensures p in NotMoreUrgent(live, priority) <==> p in l.pending && p.expiresAt > now && p.priority >= priority
    {
      LiveMeans(l.pending, now, p);
      NotMoreUrgentMeans(live, priority, p);
    }
  }

  /** What a refusal leaves shows in the holder's next yield: with nothing else pending and no more urgent
      waiter, it keeps the lock exactly when the refused request was more urgent than the holder and its
      lifetime, the holder's chunk or the minimum if that is longer, is not over. */
  lemma RefusalShowsInYield(l: Lock, r: Request, now: nat, later: nat)
    requires l.holder.Some? && l.pending == [] && !SomeoneMoreUrgent(l.waiters, l.holder.value.priority)
    ensures YieldStarted(Refused(l, r, now), later).1.StillHeld? <==>
            && r.priority < l.holder.value.priority
            && (later < now + MIN_PENDING_YIELD || later < now + l.holder.value.chunk)
    ensures Refused(l, r, now).holder == l.holder && Refused(l, r, now).waiters == l.waiters && Refused(l, r, now).yielding == l.yielding
  {
    var l' := Refused(l, r, now);
    YieldSees(l', later);
    if r.priority < l.holder.value.priority {
      assert l'.pending[0] in l'.pending;
    }
  }

  class LoopCoordinator {
    var holder: Option<Request>
    var waiters: seq<Waiter>
    var pending: seq<PendingYield>
    var sequence: nat
    var yielding: Option<Request>

    ghost function State(): Lock
      reads this
    {
      Lock(holder, waiters, pending, sequence, yielding)
    }

    constructor ()
      ensures State() == FREE_LOCK
    {
      holder, waiters, pending, sequence, yielding := None, [], [], 0, None;
    }

    /** First half of a blocking acquire: join the queue. */
    method Enqueue(r: Request) returns (w: Waiter)
      modifies this
      ensures State() == Enqueued(old(State()), r)
      ensures w == waiters[|old(waiters)|]
    {
      sequence := sequence + 1;
      w := Waiter(r.loopName, r.priority, sequence);
      waiters := waiters + [w];
    }

    /** Second half: one evaluation of the wait guard, entering when it holds. */
    method TryAdmit(w: Waiter, r: Request) returns (entered: bool)
      modifies this
      ensures entered == old(CanAcquire(State(), w))
      ensures State() == if entered then Admitted(old(State()), w, r) else old(State())
    {
      entered := MayAcquire(w);
      if entered {
        waiters := Without(waiters, w);
        holder := Some(r);
      }
    }

    method MayAcquire(w: Waiter) returns (may: bool)
      ensures may == CanAcquire(State(), w)
    {
      if holder.Some? {
        return false;
      }
      if yielding.Some? && w.priority >= yielding.value.priority {
        return false;
      }
      var eligible := if yielding.None? then waiters else MoreUrgent(waiters, yielding.value.priority);
      may := eligible != [] && w == Least(eligible);
    }

    /** Enter at once, or report who holds the lock. */
    method TryAcquire(r: Request, now: nat) returns (busy: Option<Request>)
      modifies this
      ensures busy == old(holder)
      ensures State() == if busy.Some? then Refused(old(State()), r, now)
                         else old(State()).(holder := Some(r))
    {
      busy := holder;
      if holder.Some? {
        if r.priority < holder.value.priority {
          sequence := sequence + 1;
          var ttl := Max(MIN_PENDING_YIELD, holder.value.chunk);
          pending := pending + [PendingYield(r.loopName, r.priority, now + ttl, sequence)];
        }
      } else {
        holder := Some(r);
      }
    }

    /** First block of a yield, up to the point where the caller waits. */
    method StartYield(now: nat) returns (start: YieldStart)
      modifies this
      ensures (State(), start) == YieldStarted(old(State()), now)
    {
      if holder.None? {
        return NotHeld;
      }
      var h := holder.value;
      var urgentWaiter := SomeoneMoreUrgent(waiters, h.priority);
      var consumed := ConsumePending(h.priority, now);
      if consumed && !urgentWaiter {
        return StillHeld;
      }
      yielding := Some(h);
      holder := None;
      return GaveUp(h, urgentWaiter);
    }

    /** Drops expired requests, then removes those more urgent than the holder. */
    method ConsumePending(priority: int, now: nat) returns (consumed: bool)
      modifies this`pending
      ensures pending == NotMoreUrgent(Live(old(pending), now), priority)
      ensures consumed == SomeRequestMoreUrgent(Live(old(pending), now), priority)
    {
      var live := Live(pending, now);
      var kept: seq<PendingYield> := [];
      consumed := false;
      var i := 0;
      while i < |live|
        invariant 0 <= i <= |live|
        invariant kept == NotMoreUrgent(live[..i], priority)
        invariant consumed == SomeRequestMoreUrgent(live[..i], priority)
      {
        OneMoreRequest(live[..i], live[i], priority);
        assert live[..i + 1] == live[..i] + [live[i]];
        if live[i].priority < priority {
          consumed := true;
        } else {
          kept := kept + [live[i]];
        }
        i := i + 1;
      }
      assert live[..i] == live;
      pending := kept;
    }

    /** Last block of a yield: one evaluation of its wait guard, taking the lock back when it holds. */
    method TryResume(record: Request, forUrgentWaiter: bool) returns (resumed: bool)
      modifies this
      ensures resumed == old(CanResume(State(), record, forUrgentWaiter))
      ensures State() == if resumed then Resumed(old(State()), record) else old(State())
    {
      resumed := holder.None? && (!forUrgentWaiter || !SomeoneMoreUrgent(waiters, record.priority));
      if resumed {
        holder := Some(record);
        yielding := None;
      }
    }

    method ReleaseIfHolder(loopName: string)
      modifies this
      ensures State() == Released(old(State()), loopName)
    {
      if holder.Some? && holder.value.loopName == loopName {
        holder := None;
      }
    }
  }
}
