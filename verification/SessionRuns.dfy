/** Whole runs of appends, compressions and truncations over all sessions. */
module SessionRuns {
  import opened Common
  import opened JsonValues
  import opened Messages
  import opened SessionContext
  import opened Handover

  datatype Action =
    | Append(session: string, id: string, payload: Payload)
    | Compress(session: string, id: string, reply: Option<string>)
    | Truncate(session: string, limit: int, before: Option<int>)

  datatype State = State(table: seq<Message>, jobs: seq<Job>)

  /** Only compression appends compressed messages. */
  predicate Regular(actions: seq<Action>) {
    forall a <- actions :: a.Append? ==> a.payload.kind != CompressedMessage
  }

  function Step(codec: Codec, s: State, a: Action): State {
    match a
    case Append(session, id, p) =>
      s.(table := s.table + [MessageOf(p, id, session, |Rows(s.table, session)| + 1)])
    case Compress(session, id, reply) =>
      (match Compressed(s.table, session, None, reply, id)
       case Err(_) => s
       case Ok((table, job)) => State(table, s.jobs + [job]))
    case Truncate(session, limit, before) =>
      match TruncatedTable(codec, s.table, session, limit, before)
      case Err(_) => s
      case Ok(table) => s.(table := table)
  }

  function Run(codec: Codec, s: State, actions: seq<Action>): State
    decreases |actions|
  {
    if actions == [] then s else Run(codec, Step(codec, s, actions[0]), actions[1..])
  }

  ghost predicate Inv(s: State) {
    Dense(s.table) && CoverageExact(s.table, s.jobs)
  }

  /** Appending an ordinary message owes nothing new. */
  lemma AppendKeepsCoverage(table: seq<Message>, jobs: seq<Job>, m: Message)
    requires Dense(table) && CoverageExact(table, jobs)
    requires m.ordinal == |Rows(table, m.session)| + 1 && m.kind != CompressedMessage
    ensures CoverageExact(table + [m], jobs)
  {
    forall other
      ensures SessionCovered(Rows(table + [m], other), jobs, other)
    {
      var ms := Rows(table, other);
      assert SessionCovered(ms, jobs, other) && DenseRows(ms);
      RowsOfAppend(table, m, other);
      if other == m.session {
        OrdinaryAppendOwes(ms, m);
      }
    }
  }

  lemma AppendStep(codec: Codec, s: State, session: string, id: string, p: Payload)
    requires Inv(s) && p.kind != CompressedMessage
    ensures Inv(Step(codec, s, Append(session, id, p)))
  {
    var m := MessageOf(p, id, session, |Rows(s.table, session)| + 1);
    assert DenseRows(Rows(s.table, session));
    LatestIsLength(s.table, session);
    AppendKeepsDense(s.table, m);
    AppendKeepsCoverage(s.table, s.jobs, m);
  }

  lemma OrdinaryAppendOwes(ms: seq<Message>, m: Message)
    requires DenseRows(ms) && m.ordinal == |ms| + 1 && m.kind != CompressedMessage
    ensures forall o: nat :: Owed(ms + [m], o) <==> Owed(ms, o)
  {
    BoundaryOfAppend(ms, m);
    LatestCompressedMeans(ms, None);
    forall o: nat
      ensures Owed(ms + [m], o) <==> Owed(ms, o)
    {
      if 1 <= o <= |ms| {
        assert (ms + [m])[o - 1] == ms[o - 1];
      }
    }
  }

  lemma TruncateStep(codec: Codec, s: State, session: string, limit: int, before: Option<int>)
    requires Inv(s)
    ensures Inv(Step(codec, s, Truncate(session, limit, before)))
  {
    if TruncatedTable(codec, s.table, session, limit, before).Ok? {
      var table' := TruncatedTable(codec, s.table, session, limit, before).value;
      forall other
        ensures DenseRows(Rows(table', other)) && SessionCovered(Rows(table', other), s.jobs, other)
      {
        var ms, ms' := Rows(s.table, other), Rows(table', other);
        assert DenseRows(ms) && SessionCovered(ms, s.jobs, other);
        PassKeepsStream(codec, s.table, session, limit, before, other);
        SkeletonsKeepBoundary(ms, ms', None);
        forall o: nat
          ensures Owed(ms', o) <==> Owed(ms, o)
        {
          if 1 <= o <= |ms| {
            assert SameSkeleton(ms[o - 1], ms'[o - 1]);
          }
        }
      }
    }
  }

  lemma StepKeepsInv(codec: Codec, s: State, a: Action)
    requires Inv(s) && (a.Append? ==> a.payload.kind != CompressedMessage)
    ensures Inv(Step(codec, s, a))
  {
    match a
    case Append(session, id, p) =>
      AppendStep(codec, s, session, id, p);
    case Compress(session, id, reply) =>
      if Compressed(s.table, session, None, reply, id).Ok? {
        CompressKeepsCoverageIff(s.table, s.jobs, session, None, reply, id);
      }
    case Truncate(session, limit, before) =>
      TruncateStep(codec, s, session, limit, before);
  }

  lemma {:induction false} RunKeepsInv(codec: Codec, s: State, actions: seq<Action>)
    requires Inv(s) && Regular(actions)
    ensures Inv(Run(codec, s, actions))
    decreases |actions|
  {
    if actions != [] {
      StepKeepsInv(codec, s, actions[0]);
      RunKeepsInv(codec, Step(codec, s, actions[0]), actions[1..]);
    }
  }

  /** After any run from the empty store, in every session: each ordinary message below the latest
      compressed one is covered by exactly one job, once, and nothing else is covered; and what is loaded
      is the latest compressed message followed by exactly the messages after it, in order, all of them
      ordinary. */
  lemma CoveredOrLoaded(codec: Codec, actions: seq<Action>, session: string)
    requires Regular(actions)
    ensures var s := Run(codec, State([], []), actions);
            var ms := Rows(s.table, session);
            && SessionCovered(ms, s.jobs, session)
            && DenseRows(ms)
            && Boundary(ms, None) <= |ms| && Ordinary(ms, None) == ms[Boundary(ms, None)..]
            && (forall m <- Ordinary(ms, None) :: m.kind != CompressedMessage)
            && Start(ms, None) <= |ms| && Loaded(ms, None) == ms[Start(ms, None)..]
  {
    assert Inv(State([], [])) by {
      assert forall other :: Rows([], other) == [];
    }
    RunKeepsInv(codec, State([], []), actions);
    var s := Run(codec, State([], []), actions);
    var ms := Rows(s.table, session);
    assert DenseRows(ms);
    LoadsTheRest(ms);
  }

  lemma LoadsTheRest(ms: seq<Message>)
    requires DenseRows(ms)
    ensures Boundary(ms, None) <= |ms| && Ordinary(ms, None) == ms[Boundary(ms, None)..]
    ensures forall m <- Ordinary(ms, None) :: m.kind != CompressedMessage
    ensures Start(ms, None) <= |ms| && Loaded(ms, None) == ms[Start(ms, None)..]
  {
    OrdinaryIsASlice(ms, None);
    LoadIsASlice(ms, None);
  }

  /** With a bound, every ordinary message at or above it and above the latest compressed one, such as
      one appended while the handover was being written, is lost to both: no job covers it and it is no
      longer loaded. */
  lemma BoundedCompressionLosesMessages(
    table: seq<Message>, jobs: seq<Job>, session: string, before: Option<int>, reply: Option<string>, id: string, o: nat)
    requires Dense(table) && CoverageExact(table, jobs) && Compressed(table, session, before, reply, id).Ok?
    requires Boundary(Rows(table, session), None) < o <= |Rows(table, session)| && Below(Rows(table, session), before) < o
    ensures var (table', job) := Compressed(table, session, before, reply, id).value;
            var ms' := Rows(table', session);
            && |ms'| >= o && ms'[o - 1] == Rows(table, session)[o - 1] && ms'[o - 1].kind != CompressedMessage
            && TimesCovered(jobs + [job], session, o) == 0
            && ms'[o - 1] !in Loaded(ms', None)
  {
    var ms := Rows(table, session);
    var m := Compressed(table, session, before, reply, id).value.0[|table|];
    assert DenseRows(ms) && SessionCovered(ms, jobs, session);
    CoverageAt(table, jobs, session, before, reply, id, o);
    LatestCompressedMeans(ms, None);
    RowsOfAppend(table, m, session);
    BoundaryOfAppend(ms, m);
    assert DenseRows(ms + [m]);
    LoadIsASlice(ms + [m], None);
    assert Loaded(ms + [m], None) == [m];
  }
}
