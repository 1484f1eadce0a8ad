/** Handover compression: a synthetic message stands in for everything before it, and a job names the
    messages it covers. */
module Handover {
  import opened Common
  import opened Text
  import opened Messages
  import opened SessionContext

  const REMINDER_OPEN := "<system-reminder>"
  const REMINDER_CLOSE := "</system-reminder>"

  predicate IsReminder(s: string) {
    |REMINDER_OPEN| <= |s| && s[..|REMINDER_OPEN|] == REMINDER_OPEN
    && |REMINDER_CLOSE| <= |s| && s[|s| - |REMINDER_CLOSE|..] == REMINDER_CLOSE
  }

  function SystemReminder(content: string): string {
    var stripped := Strip(content);
    if IsReminder(stripped) then stripped else REMINDER_OPEN + "\n" + stripped + "\n" + REMINDER_CLOSE
  }

  /** Replaying a stored handover wraps it again, which changes nothing. */
  lemma ReminderWrapsOnce(content: string)
    ensures IsReminder(SystemReminder(content))
    ensures SystemReminder(SystemReminder(content)) == SystemReminder(content)
  {
    var s, stripped := SystemReminder(content), Strip(content);
    StripIsTight(content);
    if !IsReminder(stripped) {
      assert s[..|REMINDER_OPEN|] == REMINDER_OPEN;
      assert s[|s| - |REMINDER_CLOSE|..] == REMINDER_CLOSE;
      assert s[0] == '<' && s[|s| - 1] == '>';
    }
  }

  /** The text holds the part, somewhere. */
  ghost predicate HasPart(text: string, part: string) {
    exists k :: PartAt(text, part, k)
  }

  predicate PartAt(text: string, part: string, k: int) {
    0 <= k <= |text| - |part| && text[k..k + |part|] == part
  }

  /** The reply is in the stored handover word for word, trimmed at its ends. */
  lemma ReminderHoldsContent(content: string)
    ensures HasPart(SystemReminder(content), Strip(content))
  {
    var stripped, s := Strip(content), SystemReminder(content);
    if IsReminder(stripped) {
      assert PartAt(s, stripped, 0);
    } else {
      var k := |REMINDER_OPEN| + 1;
      assert PartAt(s, stripped, k);
    }
  }

  // ---- Compression -----------------------------------------------------------------------

  datatype CoveredRef = CoveredRef(id: string, ordinal: nat, kind: MessageKind)

  datatype Job = Job(session: string, point: nat, compressedId: string, compressedOrdinal: nat, covered: seq<CoveredRef>)

  function MaxOrdinal(ms: seq<Message>): nat {
    if ms == [] then 0
    else
      var rest, last := MaxOrdinal(ms[..|ms| - 1]), ms[|ms| - 1].ordinal;
      if last > rest then last else rest
  }

  /** The ordinary messages of a context, up to the compression point. */
  function CoveredRefs(ms: seq<Message>, point: nat): seq<CoveredRef> {
    if ms == [] then []
    else
      var rest, last := CoveredRefs(ms[..|ms| - 1], point), ms[|ms| - 1];
      if last.kind != CompressedMessage && last.ordinal <= point
      then rest + [CoveredRef(last.id, last.ordinal, last.kind)] else rest
  }

  function HandoverPayload(reply: string, point: nat): Payload {
    Payload(CompressedMessage, SystemReminder(reply), [], None, Some(point), false)
  }

  /** One compression: the table with the handover appended, and the job. `reply` is None when the
      provider fails, which appends nothing. */
  function Compressed(table: seq<Message>, session: string, before: Option<int>, reply: Option<string>, id: string)
    : Result<(seq<Message>, Job), string>
  {
    var loaded := Loaded(Rows(table, session), before);
    var point := MaxOrdinal(loaded);
    if loaded == [] || point < 1 then Err("cannot compress session context without a compression point")
    else if reply.None? then Err("provider failed")
    else
      var m := MessageOf(HandoverPayload(reply.value, point), id, session, |Rows(table, session)| + 1);
      Ok((table + [m], Job(session, point, id, m.ordinal, CoveredRefs(loaded, point))))
  }

  method CompressSessionContext(
    assembler: SessionContextAssembler, session: string, before: Option<int>, reply: Option<string>, id: string)
    returns (r: Result<Job, string>)
    requires assembler.store.Valid() && FreshId(assembler.store.table, id)
    modifies assembler.store
    ensures assembler.store.Valid()
    ensures match Compressed(old(assembler.store.table), session, before, reply, id)
            case Err(e) => r == Err(e) && assembler.store.table == old(assembler.store.table)
            case Ok((table, job)) => r == Ok(job) && assembler.store.table == table
  {
    var sources := assembler.Load(session, before);
    var point := MaxOrdinal(sources);
    if sources == [] || point < 1 {
      return Err("cannot compress session context without a compression point");
    }
    if reply.None? {
      return Err("provider failed");
    }
    var m := assembler.store.AppendSessionMessage(session, id, HandoverPayload(reply.value, point));
    return Ok(Job(session, point, m.id, m.ordinal, CoveredRefs(sources, point)));
  }

  /** A compression fails exactly when nothing is loaded or the provider fails. */
  lemma CompressesExactlyWhen(table: seq<Message>, session: string, before: Option<int>, reply: Option<string>, id: string)
    requires DenseRows(Rows(table, session))
    ensures Compressed(table, session, before, reply, id).Ok? <==> Loaded(Rows(table, session), before) != [] && reply.Some?
  {
    var ms := Rows(table, session);
    LoadIsASlice(ms, before);
    if Loaded(ms, before) != [] {
      MaxOfSlice(ms, Start(ms, before), Below(ms, before));
    }
  }

  /** A compression appends one message, a reminder that holds the reply, and its job points at it. */
  lemma CompressStores(table: seq<Message>, session: string, before: Option<int>, reply: Option<string>, id: string)
    requires DenseRows(Rows(table, session)) && Compressed(table, session, before, reply, id).Ok?
    ensures var (table', job) := Compressed(table, session, before, reply, id).value;
            && |table'| == |table| + 1 && table' == table + [table'[|table|]]
            && var m := table'[|table|];
               && m.kind == CompressedMessage && m.session == session && m.id == id && m.ordinal == |Rows(table, session)| + 1
               && reply.Some? && IsReminder(m.raw) && HasPart(m.raw, Strip(reply.value))
               && m.point == Some(Below(Rows(table, session), before)) && m.model.None? && m.calls == []
               && job.session == session && job.compressedId == m.id && job.compressedOrdinal == m.ordinal
               && Some(job.point) == m.point
  {
    var ms := Rows(table, session);
    ReminderHoldsContent(reply.value);
    ReminderWrapsOnce(reply.value);
    LoadIsASlice(ms, before);
    MaxOfSlice(ms, Start(ms, before), Below(ms, before));
  }

  // ---- Coverage --------------------------------------------------------------------------

  function CountRefs(refs: seq<CoveredRef>, ordinal: nat): nat {
    if refs == [] then 0 else CountRefs(refs[..|refs| - 1], ordinal) + if refs[|refs| - 1].ordinal == ordinal then 1 else 0
  }

  /** How often the jobs of a session cover the message with this ordinal. */
  function TimesCovered(jobs: seq<Job>, session: string, ordinal: nat): nat {
    if jobs == [] then 0
    else
      TimesCovered(jobs[..|jobs| - 1], session, ordinal)
      + if jobs[|jobs| - 1].session == session then CountRefs(jobs[|jobs| - 1].covered, ordinal) else 0
  }

  predicate Owed(ms: seq<Message>, ordinal: nat) {
    1 <= ordinal < Boundary(ms, None) && ordinal <= |ms| && ms[ordinal - 1].kind != CompressedMessage
  }

  /** In one session: every ordinary message below the latest compressed one is covered exactly once,
      and nothing else is covered at all. */
  ghost predicate SessionCovered(ms: seq<Message>, jobs: seq<Job>, session: string) {
    forall ordinal: nat :: TimesCovered(jobs, session, ordinal) == if Owed(ms, ordinal) then 1 else 0
  }

  ghost predicate CoverageExact(table: seq<Message>, jobs: seq<Job>) {
    forall session :: SessionCovered(Rows(table, session), jobs, session)
  }

  lemma {:induction false} MaxOfSlice(ms: seq<Message>, lo: nat, hi: nat)
    requires DenseRows(ms) && lo < hi <= |ms|
    ensures MaxOrdinal(ms[lo..hi]) == hi
  {
    assert ms[lo..hi][..hi - lo - 1] == ms[lo..hi - 1];
    if lo < hi - 1 {
      MaxOfSlice(ms, lo, hi - 1);
    } else {
      assert ms[lo..hi - 1] == [];
    }
  }

  lemma CountOfAppend(refs: seq<CoveredRef>, ref: CoveredRef, ordinal: nat)
    ensures CountRefs(refs + [ref], ordinal) == CountRefs(refs, ordinal) + if ref.ordinal == ordinal then 1 else 0
  {
    assert (refs + [ref])[..|refs|] == refs;
  }

  lemma CoveredOfAppend(ms: seq<Message>, m: Message, point: nat, ordinal: nat)
    requires m.ordinal <= point
    ensures CountRefs(CoveredRefs(ms + [m], point), ordinal) ==
            CountRefs(CoveredRefs(ms, point), ordinal) + if m.kind != CompressedMessage && m.ordinal == ordinal then 1 else 0
  {
    assert (ms + [m])[..|ms|] == ms;
    CountOfAppend(CoveredRefs(ms, point), CoveredRef(m.id, m.ordinal, m.kind), ordinal);
  }

  lemma {:induction false} CoveredOfStretch(ms: seq<Message>, lo: nat, point: nat, ordinal: nat)
    requires forall i :: 0 <= i < |ms| ==> ms[i].ordinal == lo + i + 1
    requires lo + |ms| <= point
    ensures CountRefs(CoveredRefs(ms, point), ordinal) ==
            if lo < ordinal <= lo + |ms| && ms[ordinal - lo - 1].kind != CompressedMessage then 1 else 0
    decreases |ms|
  {
    if ms != [] {
      var rest, last := ms[..|ms| - 1], ms[|ms| - 1];
      CoveredOfStretch(rest, lo, point, ordinal);
      CoveredOfAppend(rest, last, point, ordinal);
      assert ms == rest + [last];
    }
  }

  /** The references of messages, in their order. */
  function RefsOf(ms: seq<Message>): seq<CoveredRef> {
    seq(|ms|, i requires 0 <= i < |ms| => CoveredRef(ms[i].id, ms[i].ordinal, ms[i].kind))
  }

  lemma {:induction false} CoveredAreRefs(ms: seq<Message>, point: nat)
    requires forall i :: 0 <= i < |ms| ==> ms[i].kind != CompressedMessage && ms[i].ordinal <= point
    ensures CoveredRefs(ms, point) == RefsOf(ms)
  {
    if ms != [] {
      CoveredAreRefs(ms[..|ms| - 1], point);
    }
  }

  lemma {:induction false} CoveredSkipsHandover(c: Message, ms: seq<Message>, point: nat)
    requires c.kind == CompressedMessage
    ensures CoveredRefs([c] + ms, point) == CoveredRefs(ms, point)
    decreases |ms|
  {
    if ms == [] {
      assert [c] + ms == [c] && [c][..0] == [];
    } else {
      CoveredSkipsHandover(c, ms[..|ms| - 1], point);
      assert ([c] + ms)[..|ms|] == [c] + ms[..|ms| - 1];
    }
  }

  lemma LoadedRefs(ms: seq<Message>, before: Option<int>)
    requires DenseRows(ms)
    ensures Boundary(ms, before) <= Below(ms, before)
    ensures CoveredRefs(Loaded(ms, before), Below(ms, before)) == RefsOf(ms[Boundary(ms, before)..Below(ms, before)])
  {
    LoadIsASlice(ms, before);
    OrdinaryIsASlice(ms, before);
    LatestCompressedMeans(ms, before);
    var b, below := Boundary(ms, before), Below(ms, before);
    CoveredAreRefs(ms[b..below], below);
    if b > 0 {
      assert ms[b - 1..below] == [ms[b - 1]] + ms[b..below];
      CoveredSkipsHandover(ms[b - 1], ms[b..below], below);
    }
  }

  /** What a new job covers: exactly the ordinary messages above the latest compressed one below the
      bound, by id, ordinal and kind, in order; so each of their ordinals once. Its point is the last
      message below the bound. */
  lemma JobCovers(table: seq<Message>, session: string, before: Option<int>, reply: Option<string>, id: string, ordinal: nat)
    requires DenseRows(Rows(table, session)) && Compressed(table, session, before, reply, id).Ok?
    ensures var ms, job := Rows(table, session), Compressed(table, session, before, reply, id).value.1;
            && job.point == Below(ms, before) >= 1 && job.compressedOrdinal == |ms| + 1
            && Boundary(ms, before) <= Below(ms, before)
            && job.covered == RefsOf(ms[Boundary(ms, before)..Below(ms, before)])
            && CountRefs(job.covered, ordinal) == if Boundary(ms, before) < ordinal <= Below(ms, before) then 1 else 0
  {
    var ms := Rows(table, session);
    LoadIsASlice(ms, before);
    MaxOfSlice(ms, Start(ms, before), Below(ms, before));
    LoadedRefs(ms, before);
    LoadedCovers(ms, before, ordinal);
  }

  lemma LoadedCovers(ms: seq<Message>, before: Option<int>, ordinal: nat)
    requires DenseRows(ms) && Loaded(ms, before) != []
    ensures Boundary(ms, before) <= Below(ms, before)
    ensures CountRefs(CoveredRefs(Loaded(ms, before), Below(ms, before)), ordinal) ==
            if Boundary(ms, before) < ordinal <= Below(ms, before) then 1 else 0
  {
    LoadIsASlice(ms, before);
    OrdinaryIsASlice(ms, before);
    LatestCompressedMeans(ms, before);
    CoveredOfStretch(Loaded(ms, before), Start(ms, before), Below(ms, before), ordinal);
  }

  lemma BoundaryOfAppend(ms: seq<Message>, m: Message)
    requires m.ordinal == |ms| + 1
    ensures Boundary(ms + [m], None) == if m.kind == CompressedMessage then |ms| + 1 else Boundary(ms, None)
  {
    assert (ms + [m])[..|ms|] == ms;
  }

  lemma TimesCoveredOfAppend(jobs: seq<Job>, job: Job, session: string, ordinal: nat)
    ensures TimesCovered(jobs + [job], session, ordinal) ==
            TimesCovered(jobs, session, ordinal) + if job.session == session then CountRefs(job.covered, ordinal) else 0
  {
    assert (jobs + [job])[..|jobs|] == jobs;
  }

  predicate InStretch(lo: nat, hi: nat, ordinal: nat) {
    lo < ordinal <= hi
  }

  /** Two stretches of ordinals coincide. */
  ghost predicate SameStretch(lo: nat, hi: nat, lo2: nat, hi2: nat) {
    forall o: nat :: InStretch(lo, hi, o) <==> InStretch(lo2, hi2, o)
  }

  lemma SameStretchIff(lo: nat, hi: nat, lo2: nat, hi2: nat)
    requires lo <= hi && lo2 <= hi2
    ensures SameStretch(lo, hi, lo2, hi2) <==> (lo == lo2 && hi == hi2) || (lo == hi && lo2 == hi2)
  {
    if SameStretch(lo, hi, lo2, hi2) {
      assert InStretch(lo, hi, lo + 1) <==> InStretch(lo2, hi2, lo + 1);
      assert InStretch(lo, hi, hi) <==> InStretch(lo2, hi2, hi);
      assert InStretch(lo, hi, lo2 + 1) <==> InStretch(lo2, hi2, lo2 + 1);
      assert InStretch(lo, hi, hi2) <==> InStretch(lo2, hi2, hi2);
    }
  }

  /** When a compression bounded by `before` keeps coverage exact: the bound is past the end of the
      stream, or nothing ordinary follows the latest compressed message either in the stream or below
      the bound. Messages at or above an earlier bound are otherwise covered by no job, or twice. */
  predicate BoundIsHarmless(ms: seq<Message>, before: Option<int>) {
    || Below(ms, before) == |ms|
    || (Below(ms, before) > 0 && ms[|ms| - 1].kind == CompressedMessage && ms[Below(ms, before) - 1].kind == CompressedMessage)
  }

  lemma HarmlessIsSameStretch(ms: seq<Message>, before: Option<int>)
    requires DenseRows(ms) && Below(ms, before) > 0
    ensures SameStretch(Boundary(ms, before), Below(ms, before), Boundary(ms, None), |ms|) <==> BoundIsHarmless(ms, before)
  {
    LatestCompressedMeans(ms, before);
    LatestCompressedMeans(ms, None);
    SameStretchIff(Boundary(ms, before), Below(ms, before), Boundary(ms, None), |ms|);
    if Below(ms, before) == |ms| {
      EqualBounds(ms, before);
    }
  }

  lemma {:induction false} EqualBounds(ms: seq<Message>, before: Option<int>)
    requires DenseRows(ms) && Below(ms, before) == |ms|
    ensures LatestCompressed(ms, before) == LatestCompressed(ms, None)
  {
    if ms != [] {
      EqualBounds(ms[..|ms| - 1], before);
    }
  }

  /** Compressing keeps coverage exact exactly when the bound is harmless; without a bound it always is. */
  lemma CompressKeepsCoverageIff(
    table: seq<Message>, jobs: seq<Job>, session: string, before: Option<int>, reply: Option<string>, id: string)
    requires Dense(table) && CoverageExact(table, jobs)
    requires Compressed(table, session, before, reply, id).Ok?
    ensures var (table', job) := Compressed(table, session, before, reply, id).value;
            && Dense(table')
            && (CoverageExact(table', jobs + [job]) <==> BoundIsHarmless(Rows(table, session), before))
  {
    var ms := Rows(table, session);
    var (table', job) := Compressed(table, session, before, reply, id).value;
    var m := table'[|table|];
    assert DenseRows(ms) && SessionCovered(ms, jobs, session);
    LatestIsLength(table, session);
    AppendKeepsDense(table, m);
    RowsOfAppend(table, m, session);
    JobCovers(table, session, before, reply, id, 0);
    HarmlessIsSameStretch(ms, before);
    SessionCoverageAfter(table, jobs, session, before, reply, id);
    forall other | other != session
      ensures SessionCovered(Rows(table', other), jobs + [job], other)
    {
      assert SessionCovered(Rows(table, other), jobs, other);
      forall ordinal: nat
        ensures TimesCovered(jobs + [job], other, ordinal) == TimesCovered(jobs, other, ordinal)
      {
        TimesCoveredOfAppend(jobs, job, other, ordinal);
      }
    }
  }

  lemma SessionCoverageAfter(
    table: seq<Message>, jobs: seq<Job>, session: string, before: Option<int>, reply: Option<string>, id: string)
    requires DenseRows(Rows(table, session)) && SessionCovered(Rows(table, session), jobs, session)
    requires Compressed(table, session, before, reply, id).Ok?
    ensures var ms := Rows(table, session);
            var (table', job) := Compressed(table, session, before, reply, id).value;
            SessionCovered(Rows(table', session), jobs + [job], session) <==>
            SameStretch(Boundary(ms, before), Below(ms, before), Boundary(ms, None), |ms|)
  {
    var ms := Rows(table, session);
    var (table', job) := Compressed(table, session, before, reply, id).value;
    var ms' := Rows(table', session);
    var lo, hi, last := Boundary(ms, before), Below(ms, before), Boundary(ms, None);
    forall o: nat
      ensures TimesCovered(jobs + [job], session, o) == (if Owed(ms', o) then 1 else 0) <==>
              (InStretch(lo, hi, o) <==> InStretch(last, |ms|, o))
    {
      CoverageAt(table, jobs, session, before, reply, id, o);
    }
  }

  /** One ordinal: the new job adds one to it inside its stretch, and compressing makes it owed inside
      the stretch above the old boundary. */
  lemma CoverageAt(
    table: seq<Message>, jobs: seq<Job>, session: string, before: Option<int>, reply: Option<string>, id: string, o: nat)
    requires DenseRows(Rows(table, session)) && SessionCovered(Rows(table, session), jobs, session)
    requires Compressed(table, session, before, reply, id).Ok?
    ensures var ms := Rows(table, session);
            var (table', job) := Compressed(table, session, before, reply, id).value;
            var owed, inside, above :=
              if Owed(ms, o) then 1 else 0,
              if InStretch(Boundary(ms, before), Below(ms, before), o) then 1 else 0,
              if InStretch(Boundary(ms, None), |ms|, o) then 1 else 0;
            && TimesCovered(jobs + [job], session, o) == owed + inside
            && (if Owed(Rows(table', session), o) then 1 else 0) == owed + above
  {
    var job := Compressed(table, session, before, reply, id).value.1;
    JobCovers(table, session, before, reply, id, o);
    TimesCoveredOfAppend(jobs, job, session, o);
    var m := Compressed(table, session, before, reply, id).value.0[|table|];
    RowsOfAppend(table, m, session);
    OwedAfter(Rows(table, session), m, o);
  }

  /** Appending a compressed message makes exactly the messages above the old boundary owed too. */
  lemma OwedAfter(ms: seq<Message>, m: Message, o: nat)
    requires DenseRows(ms) && m.ordinal == |ms| + 1 && m.kind == CompressedMessage
    ensures Owed(ms + [m], o) <==> Owed(ms, o) || InStretch(Boundary(ms, None), |ms|, o)
    ensures !(Owed(ms, o) && InStretch(Boundary(ms, None), |ms|, o))
  {
    BoundaryOfAppend(ms, m);
    LatestCompressedMeans(ms, None);
    if 1 <= o <= |ms| {
      assert (ms + [m])[o - 1] == ms[o - 1];
    }
  }
}
