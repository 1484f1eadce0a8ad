/** One foreground turn: context maintenance, the bounded model and tool loop, and what it stores. The
    model, the tools and the budget estimates are arbitrary. */
module AgentTurn {
  import opened Common
  import opened JsonValues
  import opened Text
  import opened Messages
  import opened SessionContext
  import opened Handover
  import opened SessionRuns
  import opened ToolExecution

  datatype Response = Response(content: string, finish: string, calls: seq<ToolCall>)

  datatype ModelReply = Reply(response: Response, retries: nat) | ModelFails

  /** What the budget estimates ask for, and what the model answers when asked for a handover. */
  datatype Maintenance = Maintenance(truncate: bool, passNeeded: bool, limit: int, handover: bool, reply: Option<string>)

  datatype RoundWorld = RoundWorld(
    canceledBefore: bool,
    canceledAfter: bool,
    callId: string,
    reply: ModelReply,
    batch: BatchWorld,
    render: Executed -> string,
    isText: Executed -> bool,
    maintenance: Maintenance)

  datatype TurnWorld = TurnWorld(
    busy: bool, canceled: bool, pendingTooLarge: bool, pre: Maintenance, stillTooLarge: bool, rounds: nat -> RoundWorld)

  datatype LoopResult = LoopResult(
    response: Response,
    toolMessages: seq<Message>,
    calls: seq<ToolCall>,
    results: seq<Executed>,
    llmRoundCount: nat,
    llmRetryCount: nat,
    toolIterationCount: nat,
    toolCallCount: nat,
    providerToolCallCount: nat,
    llmCallIds: seq<string>)

  datatype Failure = TurnCanceled | ToolTraceFailed | LlmFailed | ProtocolViolation | LoopLimit | MaintenanceFailed | TooLarge

  datatype TurnEnd = Busy | Done(assistant: Message, loop: LoopResult) | TurnFailed(why: Failure)

  predicate RequestsTools(r: Response) {
    r.finish == "tool_calls" || r.calls != []
  }

  predicate HasId(call: ToolCall) {
    call.id.Some? && call.id.value != ""
  }

  /** The provider-shaped form of a call, as it is stored. */
  function WireCall(codec: Codec, call: ToolCall): Json
    requires HasId(call)
  {
    JObject(map["id" := JString(call.id.value),
                "type" := JString("function"),
                "function" := JObject(map["name" := JString(call.name),
                                          "arguments" := JString(if call.rawArguments.Some? then call.rawArguments.value
                                                                 else codec.dump(call.arguments))])])
  }

  function AssistantPayload(codec: Codec, response: Response, calls: seq<ToolCall>): Payload
    requires forall c <- calls :: HasId(c)
  {
    Payload(AssistantMessage, response.content,
            seq(|calls|, i requires 0 <= i < |calls| => WireCall(codec, calls[i])), None, None, false)
  }

  function ResultPayload(world: RoundWorld, e: Executed): Payload {
    Payload(ToolMessage, world.render(e), [], e.call.id, None, world.isText(e))
  }

  // ---- Streams ---------------------------------------------------------------------------

  ghost predicate AllAnchored(table: seq<Message>) {
    forall session :: Anchored(Rows(table, session))
  }

  /** A stored message is never replaced by another; only tool payloads can change at all. */
  predicate Kept(m: Message, m': Message) {
    && SameSkeleton(m, m')
    && (m.kind in {UserMessage, CompressedMessage} || (m.kind == AssistantMessage && m.calls == []) ==> m' == m)
  }

  /** The stream only grows at its end. */
  predicate Grown(ms: seq<Message>, ms': seq<Message>) {
    |ms| <= |ms'| && forall i :: 0 <= i < |ms| ==> Kept(ms[i], ms'[i])
  }

  /** One session grew and no other changed. */
  ghost predicate Advanced(table: seq<Message>, table': seq<Message>, session: string) {
    && Grown(Rows(table, session), Rows(table', session))
    && forall other :: other != session ==> Rows(table', other) == Rows(table, other)
  }

  lemma KeptThen(a: Message, b: Message, c: Message)
    requires Kept(a, b) && Kept(b, c)
    ensures Kept(a, c)
  {
  }

  lemma AdvancedThen(table: seq<Message>, table1: seq<Message>, table2: seq<Message>, session: string)
    requires Advanced(table, table1, session) && Advanced(table1, table2, session)
    ensures Advanced(table, table2, session)
  {
    var a, b, c := Rows(table, session), Rows(table1, session), Rows(table2, session);
    forall i | 0 <= i < |a|
      ensures Kept(a[i], c[i])
    {
      KeptThen(a[i], b[i], c[i]);
    }
  }

  lemma NotAdvanced(table: seq<Message>, session: string)
    ensures Advanced(table, table, session)
  {
  }

  lemma AppendKeepsAll(table: seq<Message>, jobs: seq<Job>, m: Message)
    requires Dense(table) && AllAnchored(table) && CoverageExact(table, jobs)
    requires m == MessageOf(Payload(m.kind, m.raw, m.calls, m.callId, m.point, m.meta.textOutput), m.id, m.session, |Rows(table, m.session)| + 1)
    requires m.kind != CompressedMessage
    requires m.kind == ToolMessage ==> AnchoredAt(Rows(table, m.session) + [m], |Rows(table, m.session)|)
    ensures AllAnchored(table + [m]) && CoverageExact(table + [m], jobs) && Advanced(table, table + [m], m.session)
  {
    AppendKeepsCoverage(table, jobs, m);
    forall session
      ensures Anchored(Rows(table + [m], session))
      ensures session != m.session ==> Rows(table + [m], session) == Rows(table, session)
    {
      RowsOfAppend(table, m, session);
      assert Anchored(Rows(table, session));
      if session == m.session {
        AppendKeepsAnchors(Rows(table, session), m);
      }
    }
  }

  lemma TruncateKeepsAll(codec: Codec, table: seq<Message>, jobs: seq<Job>, session: string, limit: int)
    requires Dense(table) && AllAnchored(table) && CoverageExact(table, jobs)
    requires TruncatedTable(codec, table, session, limit, None).Ok?
    ensures var table' := TruncatedTable(codec, table, session, limit, None).value;
            AllAnchored(table') && CoverageExact(table', jobs) && Advanced(table, table', session)
  {
    var table' := TruncatedTable(codec, table, session, limit, None).value;
    TruncateStep(codec, State(table, jobs), session, limit, None);
    RowsOfReplaced(codec, Loaded(Rows(table, session), None), limit, table, session);
    ReplacementsAreKept(codec, Loaded(Rows(table, session), None), limit, Rows(table, session));
    forall other
      ensures Anchored(Rows(table', other))
      ensures other != session ==> Rows(table', other) == Rows(table, other)
    {
      assert Anchored(Rows(table, other));
      PassKeepsStream(codec, table, session, limit, None, other);
    }
  }

  lemma ReplacementsAreKept(codec: Codec, loaded: seq<Message>, limit: int, ms: seq<Message>)
    ensures Grown(ms, Replaced(codec, loaded, limit, ms))
  {
    ReplacedKeepsSkeletons(codec, loaded, limit, ms);
  }

  lemma CompressKeepsAll(table: seq<Message>, jobs: seq<Job>, session: string, reply: Option<string>, id: string)
    requires Dense(table) && AllAnchored(table) && CoverageExact(table, jobs)
    requires Compressed(table, session, None, reply, id).Ok?
    ensures var (table', job) := Compressed(table, session, None, reply, id).value;
            AllAnchored(table') && CoverageExact(table', jobs + [job]) && Advanced(table, table', session)
  {
    var (table', job) := Compressed(table, session, None, reply, id).value;
    CompressKeepsCoverageIff(table, jobs, session, None, reply, id);
    forall other
      ensures Anchored(Rows(table', other))
      ensures other != session ==> Rows(table', other) == Rows(table, other)
    {
      assert Anchored(Rows(table, other));
      RowsOfAppend(table, table'[|table|], other);
      if other == session {
        AppendKeepsAnchors(Rows(table, other), table'[|table|]);
      }
    }
  }

  // ---- Fresh ids -------------------------------------------------------------------------

  function Longest(table: seq<Message>): nat {
    if table == [] then 0
    else
      var rest, last := Longest(table[..|table| - 1]), |table[|table| - 1].id|;
      if last > rest then last else rest
  }

  lemma {:induction false} LongestBounds(table: seq<Message>)
    ensures forall m <- table :: |m.id| <= Longest(table)
  {
    if table != [] {
      LongestBounds(table[..|table| - 1]);
      assert table == table[..|table| - 1] + [table[|table| - 1]];
    }
  }

  /** Stands in for a random id: different from every stored one. */
  function NewId(table: seq<Message>): (id: string)
    ensures FreshId(table, id)
  {
    LongestBounds(table);
    seq(Longest(table) + 1, _ => 'm')
  }

  // ---- Maintenance -----------------------------------------------------------------------

  function AfterTruncation(codec: Codec, table: seq<Message>, session: string, m: Maintenance): Result<seq<Message>, string> {
    if m.truncate && m.passNeeded then TruncatedTable(codec, table, session, m.limit, None) else Ok(table)
  }

  function AfterHandover(table: seq<Message>, jobs: seq<Job>, session: string, m: Maintenance): Result<(seq<Message>, seq<Job>), string> {
    if !m.handover || Loaded(Rows(table, session), None) == [] then Ok((table, jobs))
    else
      match Compressed(table, session, None, m.reply, NewId(table))
      case Err(e) => Err(e)
      case Ok((table', job)) => Ok((table', jobs + [job]))
  }

  /** One compressed message of this session was appended, a reminder that holds the reply, and its job. */
  ghost predicate HandedOver(table: seq<Message>, jobs: seq<Job>, session: string, reply: string, table': seq<Message>, jobs': seq<Job>) {
    && |table'| == |table| + 1 && table'[..|table|] == table
    && var m := table'[|table|];
       && m.session == session && m.kind == CompressedMessage && IsReminder(m.raw) && HasPart(m.raw, Strip(reply))
       && |jobs'| == |jobs| + 1 && jobs'[..|jobs|] == jobs
       && jobs'[|jobs|].session == session && jobs'[|jobs|].compressedId == m.id
  }

  /** What maintenance is to do: cut what is loaded when the budget asks for it and the pass is needed; then
      hand over what is loaded, if anything, when the budget asks for that. A step that fails stops it. */
  ghost predicate Maintained(
    codec: Codec, table: seq<Message>, jobs: seq<Job>, session: string, m: Maintenance, ok: bool, table': seq<Message>, jobs': seq<Job>)
  {
    var cut := if m.truncate && m.passNeeded then TruncatedTable(codec, table, session, m.limit, None) else Ok(table);
    if cut.Err? then !ok && table' == table && jobs' == jobs
    else if m.handover && Loaded(Rows(cut.value, session), None) != [] then
      && (ok <==> m.reply.Some?)
      && if ok then HandedOver(cut.value, jobs, session, m.reply.value, table', jobs') else table' == cut.value && jobs' == jobs
    else ok && table' == cut.value && jobs' == jobs
  }

  lemma HandoverMeans(table: seq<Message>, jobs: seq<Job>, session: string, m: Maintenance)
    requires DenseRows(Rows(table, session)) && m.handover && Loaded(Rows(table, session), None) != []
    ensures var r := AfterHandover(table, jobs, session, m);
            (r.Ok? <==> m.reply.Some?) && (r.Ok? ==> HandedOver(table, jobs, session, m.reply.value, r.value.0, r.value.1) == true)
  {
    CompressesExactlyWhen(table, session, None, m.reply, NewId(table));
    if m.reply.Some? {
      CompressStores(table, session, None, m.reply, NewId(table));
    }
  }

  // ---- The loop's record -----------------------------------------------------------------

  predicate Answered(world: RoundWorld) {
    !world.canceledBefore && !world.canceledAfter && world.reply.Reply?
  }

  predicate GoodCalls(calls: seq<ToolCall>) {
    calls != [] && forall c <- calls :: HasId(c)
  }

  /** The first `n` model calls all answered and asked for tools properly. */
  predicate AllAsked(world: nat -> RoundWorld, n: nat) {
    forall i :: 0 <= i < n ==> Answered(world(i)) && GoodCalls(world(i).reply.response.calls)
  }

  function CallsUpTo(world: nat -> RoundWorld, n: nat): seq<ToolCall> {
    if n == 0 then []
    else CallsUpTo(world, n - 1) + BatchCalls(world(n - 1))
  }

  /** The tools a turn runs in its first `n` batches, and what it has counted before each. */
  function RunsUpTo(world: nat -> RoundWorld, known: string -> bool, digest: Json -> string, n: nat): seq<ToolRun> {
    if n == 0 then [] else RunsUpTo(world, known, digest, n - 1) + BatchRuns(world, known, digest, n - 1, |BatchCalls(world(n - 1))|)
  }

  function BatchCalls(now: RoundWorld): seq<ToolCall> {
    if Answered(now) then now.reply.response.calls else []
  }

  /** The tools run for the first `reached` calls of batch `n`. */
  function BatchRuns(world: nat -> RoundWorld, known: string -> bool, digest: Json -> string, n: nat, reached: nat): seq<ToolRun>
    requires reached <= |BatchCalls(world(n))|
  {
    RunsIn(world(n).batch, known, digest, CountedAfter(digest, map[], CallsUpTo(world, n)), BatchCalls(world(n)), reached)
  }

  lemma {:induction false} CountedOn(digest: Json -> string, counts: map<string, nat>, calls: seq<ToolCall>, more: seq<ToolCall>)
    ensures CountedAfter(digest, CountedAfter(digest, counts, calls), more) == CountedAfter(digest, counts, calls + more)
    decreases |more|
  {
    if more == [] {
      assert calls + more == calls;
    } else {
      CountedOn(digest, counts, calls, more[..|more| - 1]);
      assert (calls + more)[..|calls + more| - 1] == calls + more[..|more| - 1];
    }
  }

  function IdsUpTo(world: nat -> RoundWorld, n: nat): seq<string> {
    if n == 0 then [] else IdsUpTo(world, n - 1) + [world(n - 1).callId]
  }

  function RetriesUpTo(world: nat -> RoundWorld, n: nat): nat {
    if n == 0 then 0
    else RetriesUpTo(world, n - 1) + if world(n - 1).reply.Reply? then world(n - 1).reply.retries else 0
  }

  /** The last message of a session asked for all these calls. */
  ghost predicate AwaitsResults(ms: seq<Message>, calls: seq<ToolCall>) {
    && ms != []
    && ms[|ms| - 1].kind == AssistantMessage
    && forall c <- calls :: HasId(c) && CarriesId(ms[|ms| - 1], c.id.value)
  }

  /** The messages answer the calls: one tool message per call, in call order. */
  predicate Answers(ms: seq<Message>, calls: seq<ToolCall>) {
    |ms| == |calls| && forall i :: 0 <= i < |ms| ==> ms[i].kind == ToolMessage && ms[i].callId == calls[i].id
  }

  /** The messages hold the results: what each rendered to, and whether that is plain text. */
  predicate Holds(ms: seq<Message>, now: RoundWorld, results: seq<Executed>) {
    |ms| == |results| && forall i :: 0 <= i < |ms| ==>
      && ms[i].raw == now.render(results[i]) && ms[i].model.None?
      && ms[i].meta.textOutput == now.isText(results[i]) && !ms[i].meta.truncateChecked
  }

  /** A stored call reads back as the call asked for: its id, its name and the text of its arguments. */
  predicate ReadsAsCall(codec: Codec, stored: Json, call: ToolCall) {
    && call.id.Some? && Field(stored, "id") == Some(JString(call.id.value))
    && match Field(stored, "function")
       case Some(fn) =>
         && Field(fn, "name") == Some(JString(call.name))
         && Field(fn, "arguments") == Some(JString(if call.rawArguments.Some? then call.rawArguments.value else codec.dump(call.arguments)))
       case None => false
  }

  /** The assistant message holds what the model said and the calls it asked for, in order. */
  predicate HoldsCalls(codec: Codec, m: Message, response: Response) {
    && m.kind == AssistantMessage && m.raw == response.content && !m.meta.truncateChecked && |m.calls| == |response.calls|
    && forall i :: 0 <= i < |m.calls| ==> ReadsAsCall(codec, m.calls[i], response.calls[i])
  }

  lemma StoredCallsRead(codec: Codec, response: Response, m: Message)
    requires forall c <- response.calls :: HasId(c)
    requires m.kind == AssistantMessage && m.raw == response.content && !m.meta.truncateChecked
    requires m.calls == AssistantPayload(codec, response, response.calls).calls
    ensures HoldsCalls(codec, m, response)
    ensures RoundTrips(codec) ==>
              forall i :: 0 <= i < |response.calls| && response.calls[i].rawArguments.None? ==>
                ParsedArguments(codec, m.calls[i]) == Some(response.calls[i].arguments)
  {
    forall i | 0 <= i < |m.calls|
      ensures ReadsAsCall(codec, m.calls[i], response.calls[i])
    {
      assert HasId(response.calls[i]);
    }
  }

  class AlphaAgent {
    const store: SessionStore
    const assembler: SessionContextAssembler
    const toolExecutor: ToolExecutor
    const maxToolIterations: nat
    const maxLlmRounds: nat
    const digest: Json -> string
    /** The extraction jobs handed to the submitter, in order. */
    var jobs: seq<Job>

    ghost predicate Valid()
      reads this, store
    {
      && assembler.store == store && maxLlmRounds >= 1
      && store.Valid() && AllAnchored(store.table) && CoverageExact(store.table, jobs)
    }

    constructor (codec: Codec, executor: ToolExecutor, digest: Json -> string, maxToolIterations: int, maxLlmRounds: Option<int>)
      ensures Valid() && fresh(store) && store.table == [] && jobs == []
      ensures this.maxToolIterations == if maxToolIterations > 0 then maxToolIterations else 0
      ensures this.maxLlmRounds == match maxLlmRounds
                                   case Some(n) => if n > 1 then n else 1
                                   case None => this.maxToolIterations + 2
    {
      var s := new SessionStore();
      var a := new SessionContextAssembler(s, codec);
      var iterations: nat := if maxToolIterations > 0 then maxToolIterations else 0;
      store, assembler, toolExecutor, this.digest, jobs := s, a, executor, digest, [];
      this.maxToolIterations := iterations;
      this.maxLlmRounds := match maxLlmRounds
                           case Some(n) => if n > 1 then n else 1
                           case None => iterations + 2;
      new;
      forall session
        ensures Anchored(Rows(store.table, session)) && SessionCovered(Rows(store.table, session), jobs, session)
      {
        assert Rows([], session) == [];
      }
    }

    /** A tool message is only ever appended where an assistant message still wants it. */
    method Append(session: string, p: Payload) returns (m: Message)
      requires Valid() && p.kind != CompressedMessage
      requires p.kind == ToolMessage ==> Wanted(Rows(store.table, session), p.callId)
      modifies store
      ensures Valid() && Advanced(old(store.table), store.table, session)
      ensures m == MessageOf(p, m.id, session, |Rows(old(store.table), session)| + 1)
      ensures store.table == old(store.table) + [m]
      ensures Rows(store.table, session) == Rows(old(store.table), session) + [m]
    {
      ghost var ms := Rows(store.table, session);
      ghost var next := MessageOf(p, NewId(store.table), session, |ms| + 1);
      if p.kind == ToolMessage {
        WantedIsAnchored(ms, next);
      }
      AppendKeepsAll(store.table, jobs, next);
      RowsOfAppend(store.table, next, session);
      m := store.AppendSessionMessage(session, NewId(store.table), p);
    }

    /** One tool message per result, right after the assistant message that asked for them. */
    method WriteToolResultMessages(session: string, world: RoundWorld, results: seq<Executed>, ghost calls: seq<ToolCall>)
      returns (written: seq<Message>)
      requires Valid() && AwaitsResults(Rows(store.table, session), calls)
      requires |results| == |calls| && forall i :: 0 <= i < |calls| ==> results[i].call == calls[i]
      modifies store
      ensures Valid() && Advanced(old(store.table), store.table, session)
      ensures Rows(store.table, session) == Rows(old(store.table), session) + written
      ensures Answers(written, calls) && Holds(written, world, results)
    {
      ghost var ms := Rows(store.table, session);
      NotAdvanced(store.table, session);
      written := [];
      var i := 0;
      while i < |results|
        invariant 0 <= i <= |results|
        invariant Valid() && Advanced(old(store.table), store.table, session)
        invariant Rows(store.table, session) == ms + written
        invariant |written| == i && Answers(written, calls[..i]) && Holds(written, world, results[..i])
      {
        StillWanted(ms, written, calls, i);
        ghost var table := store.table;
        var m := Append(session, ResultPayload(world, results[i]));
        AdvancedThen(old(store.table), table, store.table, session);
        AnswersOneMore(written, m, calls, i);
        HoldsOneMore(written, m, world, results, i);
        assert ms + written + [m] == ms + (written + [m]);
        written := written + [m];
        i := i + 1;
      }
      assert calls[..i] == calls && results[..i] == results;
    }

    /** Truncates and compresses as the budget asks. False when either raises; the stream is then as the
        last step that succeeded left it. */
    method RunContextMaintenance(session: string, m: Maintenance) returns (ok: bool)
      requires Valid()
      modifies this`jobs, store
      ensures Valid() && Advanced(old(store.table), store.table, session)
      ensures Maintained(assembler.codec, old(store.table), old(jobs), session, m, ok, store.table, jobs)
      ensures ok ==> |Rows(store.table, session)| <= |Rows(old(store.table), session)| + 1
    {
      ok := TruncateIfAsked(session, m);
      if ok {
        ghost var table := store.table;
        if m.handover && Loaded(Rows(table, session), None) != [] {
          HandoverMeans(table, jobs, session, m);
        }
        ok := HandOverIfAsked(session, m);
        AdvancedThen(old(store.table), table, store.table, session);
        if ok {
          MaintenanceAddsAtMostOne(assembler.codec, old(store.table), old(jobs), session, m);
        }
      }
    }

    method TruncateIfAsked(session: string, m: Maintenance) returns (ok: bool)
      requires Valid()
      modifies store
      ensures Valid() && Advanced(old(store.table), store.table, session)
      ensures match AfterTruncation(assembler.codec, old(store.table), session, m)
              case Err(_) => !ok && store.table == old(store.table)
              case Ok(table) => ok && store.table == table
    {
      if !m.truncate {
        return true;
      }
      if m.passNeeded && TruncatedTable(assembler.codec, store.table, session, m.limit, None).Ok? {
        TruncateKeepsAll(assembler.codec, store.table, jobs, session, m.limit);
      }
      var pass := assembler.TruncateToolContextIfNeeded(session, m.limit, None, m.passNeeded);
      return pass.Ok?;
    }

    method HandOverIfAsked(session: string, m: Maintenance) returns (ok: bool)
      requires Valid()
      modifies this`jobs, store
      ensures Valid() && Advanced(old(store.table), store.table, session)
      ensures match AfterHandover(old(store.table), old(jobs), session, m)
              case Err(_) => !ok && store.table == old(store.table) && jobs == old(jobs)
              case Ok((table', jobs')) => ok && store.table == table' && jobs == jobs'
    {
      if !m.handover {
        return true;
      }
      var sources := assembler.Load(session, None);
      if sources == [] {
        return true;
      }
      var id := NewId(store.table);
      if Compressed(store.table, session, None, m.reply, id).Ok? {
        CompressKeepsAll(store.table, jobs, session, m.reply, id);
      }
      var job := CompressSessionContext(assembler, session, None, m.reply, id);
      if job.Err? {
        return false;
      }
      jobs := jobs + [job.value];
      return true;
    }

    /** The loop. It stops after at most min(maxToolIterations + 2, maxLlmRounds + 1) model calls and
        maxToolIterations batches however the model behaves. Every model call but the last asked for tools;
        the first `batches` of them were run, in order, and one more was refused exactly when a limit was
        reached. The counters it returns are the lengths of the lists it returns. */
    method RunAgentLoop(session: string, world: nat -> RoundWorld)
      returns (r: Result<LoopResult, Failure>, modelCalls: nat, batches: nat, ghost runs: seq<ToolRun>)
      requires Valid()
      modifies this`jobs, store
      ensures Valid() && Advanced(old(store.table), store.table, session)
      ensures modelCalls <= maxToolIterations + 2 && modelCalls <= maxLlmRounds + 1
      ensures batches <= maxToolIterations
      ensures LoopEnd(maxToolIterations, maxLlmRounds, world, r, modelCalls, batches)
      ensures TurnRuns(world, toolExecutor.known, digest, batches, runs) && (r.Ok? ==> RanAll(world, toolExecutor.known, digest, batches, runs))
      ensures NoneTooOften(runs)
    {
      modelCalls, batches := 0, 0;
      var turn := new TurnToolState(digest);
      var finalizing := false;
      var loop := NOTHING_YET;
      StartsInLoop(maxToolIterations, maxLlmRounds, world);
      ghost var before := store.table;
      NotAdvanced(before, session);
      while true
        invariant Valid() && turn.Valid() && Advanced(before, store.table, session)
        invariant turn.digest == digest && CountedSoFar(turn, world, toolExecutor.known, batches)
        invariant InLoop(maxToolIterations, maxLlmRounds, world, loop, modelCalls, batches, finalizing)
        decreases maxToolIterations - batches, !finalizing
      {
        ghost var table := store.table;
        var stop;
        stop, loop, modelCalls, batches, finalizing := RunRound(session, world, turn, loop, modelCalls, batches, finalizing);
        AdvancedThen(before, table, store.table, session);
        if stop.Some? {
          EndWithinBounds(maxToolIterations, maxLlmRounds, world, stop.value, modelCalls, batches);
          NoneRunTooOften(turn);
          return stop.value, modelCalls, batches, turn.runs;
        }
      }
    }

    /** One model call and what follows from it: the end of the loop, a last round without tools, or one
        more batch. */
    method RunRound(
      session: string, world: nat -> RoundWorld, turn: TurnToolState, loop: LoopResult, modelCalls: nat, batches: nat, finalizing: bool)
      returns (stop: Option<Result<LoopResult, Failure>>, loop': LoopResult, modelCalls': nat, batches': nat, finalizing': bool)
      requires Valid() && turn.Valid() && CountedSoFar(turn, world, toolExecutor.known, batches)
      requires InLoop(maxToolIterations, maxLlmRounds, world, loop, modelCalls, batches, finalizing)
      modifies this`jobs, store, turn
      ensures Valid() && turn.Valid() && Advanced(old(store.table), store.table, session)
      ensures stop.Some? ==> LoopEnd(maxToolIterations, maxLlmRounds, world, stop.value, modelCalls', batches')
      ensures stop.Some? ==> TurnRuns(world, toolExecutor.known, turn.digest, batches', turn.runs)
      ensures stop.Some? && stop.value.Ok? ==> RanAll(world, toolExecutor.known, turn.digest, batches', turn.runs)
      ensures stop.None? ==> CountedSoFar(turn, world, toolExecutor.known, batches')
      ensures stop.None? ==>
                && InLoop(maxToolIterations, maxLlmRounds, world, loop', modelCalls', batches', finalizing')
                && !finalizing && (if finalizing' then batches' == batches else batches' == batches + 1)
    {
      NotAdvanced(store.table, session);
      SoFarIsTurnRuns(world, toolExecutor.known, turn.digest, batches, turn.runs);
      loop', modelCalls', batches', finalizing' := loop, modelCalls, batches, finalizing;
      var now := world(modelCalls);
      EndsWithoutReply(maxToolIterations, maxLlmRounds, world, loop, modelCalls, batches, finalizing);
      if now.canceledBefore {
        return Some(Err(TurnCanceled)), loop', modelCalls', batches', finalizing';
      }
      modelCalls' := modelCalls + 1;
      if now.reply.ModelFails? {
        return Some(Err(LlmFailed)), loop', modelCalls', batches', finalizing';
      }
      if now.canceledAfter {
        return Some(Err(TurnCanceled)), loop', modelCalls', batches', finalizing';
      }
      loop' := WithModelCall(loop, now.callId, now.reply.retries);
      stop, loop', batches', finalizing' := RunReply(session, world, turn, loop', modelCalls', batches, finalizing);
    }

    /** What follows from a reply of the model. */
    method RunReply(
      session: string, world: nat -> RoundWorld, turn: TurnToolState, loop: LoopResult, modelCalls: nat, batches: nat, finalizing: bool)
      returns (stop: Option<Result<LoopResult, Failure>>, loop': LoopResult, batches': nat, finalizing': bool)
      requires Valid() && turn.Valid() && CountedSoFar(turn, world, toolExecutor.known, batches)
      requires Replied(maxToolIterations, maxLlmRounds, world, loop, modelCalls, batches, finalizing)
      modifies this`jobs, store, turn
      ensures Valid() && turn.Valid() && Advanced(old(store.table), store.table, session)
      ensures stop.Some? ==> LoopEnd(maxToolIterations, maxLlmRounds, world, stop.value, modelCalls, batches')
      ensures stop.Some? ==> TurnRuns(world, toolExecutor.known, turn.digest, batches', turn.runs)
      ensures stop.Some? && stop.value.Ok? ==> RanAll(world, toolExecutor.known, turn.digest, batches', turn.runs)
      ensures stop.None? ==> CountedSoFar(turn, world, toolExecutor.known, batches')
      ensures stop.None? ==>
                && InLoop(maxToolIterations, maxLlmRounds, world, loop', modelCalls, batches', finalizing')
                && !finalizing && (if finalizing' then batches' == batches else batches' == batches + 1)
    {
      NotAdvanced(store.table, session);
      SoFarIsTurnRuns(world, toolExecutor.known, turn.digest, batches, turn.runs);
      loop', batches', finalizing' := loop, batches, finalizing;
      var response := world(modelCalls - 1).reply.response;
      EndsAfterReply(maxToolIterations, maxLlmRounds, world, loop, modelCalls, batches, finalizing);
      if !RequestsTools(response) {
        return Some(Ok(loop.(response := response))), loop', batches', finalizing';
      }
      if finalizing {
        return Some(Err(LoopLimit)), loop', batches', finalizing';
      }
      if !GoodCalls(response.calls) {
        return Some(Err(ProtocolViolation)), loop', batches', finalizing';
      }
      if batches >= maxToolIterations || modelCalls >= maxLlmRounds {
        return None, loop', batches', true;
      }
      stop, loop', batches' := RunAskedTools(session, world, turn, loop, modelCalls, batches);
    }

    /** The batch the model asked for, when no limit is reached. */
    method RunAskedTools(
      session: string, world: nat -> RoundWorld, turn: TurnToolState, loop: LoopResult, modelCalls: nat, batches: nat)
      returns (stop: Option<Result<LoopResult, Failure>>, loop': LoopResult, batches': nat)
      requires Valid() && turn.Valid() && modelCalls == batches + 1 && !LimitReached(maxToolIterations, maxLlmRounds, batches)
      requires Recorded(world, loop, modelCalls, batches) && AllAsked(world, modelCalls)
      requires CountedSoFar(turn, world, toolExecutor.known, batches)
      modifies this`jobs, store, turn
      ensures Valid() && turn.Valid() && Advanced(old(store.table), store.table, session)
      ensures stop.Some? ==> LoopEnd(maxToolIterations, maxLlmRounds, world, stop.value, modelCalls, batches')
      ensures stop.None? ==>
                batches' == batches + 1 && InLoop(maxToolIterations, maxLlmRounds, world, loop', modelCalls, batches', false)
      ensures stop.None? ==> CountedSoFar(turn, world, toolExecutor.known, batches')
      ensures stop.Some? ==> stop.value.Err? && TurnRuns(world, toolExecutor.known, turn.digest, batches', turn.runs)
    {
      var now := world(batches);
      ghost var counts, runs := turn.repeatedCallCounts, turn.runs;
      var failed, messages, results, reached := RunToolRound(session, now, now.reply.response, turn);
      if Stopped(failed) {
        StoppedIsTurnRuns(world, toolExecutor.known, turn.digest, batches, counts, runs, reached, turn.runs);
        return Some(Err(failed.value)), loop, batches;
      }
      BatchIsRun(world, toolExecutor.known, turn.digest, batches, counts, runs, turn.runs);
      BatchIsCounted(world, turn.digest, batches, counts, turn.repeatedCallCounts);
      SoFarIsTurnRuns(world, toolExecutor.known, turn.digest, batches + 1, turn.runs);
      RecordBatch(world, loop, modelCalls, batches, messages, results);
      loop' := WithBatch(loop, now.reply.response.calls, messages, results);
      return if failed.Some? then Some(Err(MaintenanceFailed)) else None, loop', batches + 1;
    }

    /** A batch and the maintenance after it. */
    method RunToolRound(session: string, now: RoundWorld, response: Response, turn: TurnToolState)
      returns (failed: Option<Failure>, messages: seq<Message>, results: seq<Executed>, ghost reached: nat)
      requires Valid() && turn.Valid() && GoodCalls(response.calls)
      modifies this`jobs, store, turn
      ensures Valid() && turn.Valid() && Advanced(old(store.table), store.table, session)
      ensures failed.Some? ==> failed.value in {TurnCanceled, ToolTraceFailed, MaintenanceFailed}
      ensures failed == Some(TurnCanceled) ==> CanCancel(now.batch, |response.calls|)
      ensures failed == Some(ToolTraceFailed) ==> TraceCanRaise(now.batch, |response.calls|)
      ensures failed == Some(MaintenanceFailed) ==> now.maintenance.truncate || now.maintenance.handover
      ensures reached <= |response.calls|
      ensures Ran(now.batch, toolExecutor.known, turn.digest, old(turn.repeatedCallCounts), response.calls, reached, old(turn.runs), turn.runs)
      ensures !Stopped(failed) ==>
                && |messages| == |response.calls| + 1 && CallsOf(results) == response.calls && reached == |response.calls|
                && HoldsCalls(assembler.codec, messages[0], response)
                && Answers(messages[1..], response.calls) && Holds(messages[1..], now, results)
                && AllSettled(now.batch, toolExecutor.known, true, turn.digest, old(turn.repeatedCallCounts), response.calls, results)
                && Counted(turn.digest, old(turn.repeatedCallCounts), response.calls, reached, turn.repeatedCallCounts)
    {
      failed, messages, results, reached := RunBatch(session, now, response, turn);
      if failed.None? {
        ghost var table := store.table;
        var maintained := RunContextMaintenance(session, now.maintenance);
        AdvancedThen(old(store.table), table, store.table, session);
        failed := if maintained then None else Some(MaintenanceFailed);
      }
    }

    /** One batch: stores the calls, runs them, stores the results. When it completes the session grew by
        the assistant message and one tool message per call, in call order. It stops exactly at the first
        call that a cancellation or a summary that raises stops. */
    method RunBatch(session: string, now: RoundWorld, response: Response, turn: TurnToolState)
      returns (failed: Option<Failure>, messages: seq<Message>, results: seq<Executed>, ghost reached: nat)
      requires Valid() && turn.Valid() && GoodCalls(response.calls)
      modifies store, turn
      ensures Valid() && turn.Valid() && Advanced(old(store.table), store.table, session)
      ensures failed == Some(TurnCanceled) ==> CanCancel(now.batch, |response.calls|)
      ensures failed == Some(ToolTraceFailed) ==> TraceCanRaise(now.batch, |response.calls|)
      ensures reached <= |response.calls|
      ensures Ran(now.batch, toolExecutor.known, turn.digest, old(turn.repeatedCallCounts), response.calls, reached, old(turn.runs), turn.runs)
      ensures failed.Some? ==>
                && Stopped(failed)
                && StoppedAt(now.batch, toolExecutor.known, true, turn.digest, old(turn.repeatedCallCounts), response.calls, reached,
                             if failed == Some(TurnCanceled) then Canceled else TraceRaised)
      ensures failed.None? ==>
                && Rows(store.table, session) == Rows(old(store.table), session) + messages
                && messages != [] && HoldsCalls(assembler.codec, messages[0], response)
                && Answers(messages[1..], response.calls) && Holds(messages[1..], now, results)
                && CallsOf(results) == response.calls && reached == |response.calls|
                && Counted(turn.digest, old(turn.repeatedCallCounts), response.calls, reached, turn.repeatedCallCounts)
                && AllSettled(now.batch, toolExecutor.known, true, turn.digest, old(turn.repeatedCallCounts), response.calls, results)
    {
      ghost var before, counts := store.table, turn.repeatedCallCounts;
      var asked := AskTools(session, response);
      ghost var table := store.table;
      var executed;
      executed, reached := toolExecutor.Execute(response.calls, turn, now.batch, true);
      if executed.Err? {
        RecoveredStops(now.batch, toolExecutor.known, turn.digest, counts, response.calls, reached, executed.error);
        return Some(if executed.error.Canceled? then TurnCanceled else ToolTraceFailed), [asked], [], reached;
      }
      assert store.table == table && CallsOf(executed.value) == response.calls;
      var written := WriteToolResultMessages(session, now, executed.value, response.calls);
      messages := [asked] + written;
      AskedThenWritten(Rows(before, session), asked, written);
      AdvancedThen(before, table, store.table, session);
      return None, messages, executed.value, reached;
    }

    /** Stores the assistant message that carries the calls. */
    method AskTools(session: string, response: Response) returns (asked: Message)
      requires Valid() && GoodCalls(response.calls)
      modifies store
      ensures Valid() && Advanced(old(store.table), store.table, session)
      ensures HoldsCalls(assembler.codec, asked, response)
      ensures Rows(store.table, session) == Rows(old(store.table), session) + [asked]
      ensures AwaitsResults(Rows(store.table, session), response.calls)
    {
      asked := Append(session, AssistantPayload(assembler.codec, response, response.calls));
      WireCarriesIds(assembler.codec, response, asked);
      StoredCallsRead(assembler.codec, response, asked);
    }

    /** A whole turn. However it ends, every session stays dense, anchored and exactly covered, this
        session's stream only grew and no other session changed. A finished turn stored what the user
        said, right after at most one handover, and ends with its answer. */
    method Respond(session: string, userMessage: string, world: TurnWorld) returns (end: TurnEnd, ghost runs: seq<ToolRun>)
      requires Valid()
      modifies this`jobs, store
      ensures Valid() && Advanced(old(store.table), store.table, session)
      ensures NoneTooOften(runs)
      ensures end.Done? ==> RanAll(world.rounds, toolExecutor.known, digest, end.loop.toolIterationCount, runs)
      ensures world.busy <==> end.Busy?
      ensures end.Busy? ==> store.table == old(store.table) && jobs == old(jobs)
      ensures end.Done? ==>
                && CountersAgree(end.loop) && !RequestsTools(end.loop.response)
                && end.assistant.raw == end.loop.response.content && end.assistant.kind == AssistantMessage
                && var ms := Rows(store.table, session);
                && ms != [] && ms[|ms| - 1] == end.assistant
                && Heard(Rows(old(store.table), session), ms, userMessage)
    {
      NotAdvanced(store.table, session);
      if world.busy {
        return Busy, [];
      }
      if world.canceled {
        return TurnFailed(TurnCanceled), [];
      }
      if world.pendingTooLarge {
        return TurnFailed(TooLarge), [];
      }
      ghost var before := store.table;
      var maintained := MakeRoom(session, world.pre);
      if !maintained {
        return TurnFailed(MaintenanceFailed), [];
      }
      if world.stillTooLarge {
        return TurnFailed(TooLarge), [];
      }
      ghost var ready := store.table;
      end, runs := AnswerUser(session, userMessage, world.rounds);
      AdvancedThen(before, ready, store.table, session);
    }

    /** The maintenance before a turn: the session gains at most a handover. */
    method MakeRoom(session: string, m: Maintenance) returns (ok: bool)
      requires Valid()
      modifies this`jobs, store
      ensures Valid() && Advanced(old(store.table), store.table, session)
      ensures ok ==> |Rows(store.table, session)| <= |Rows(old(store.table), session)| + 1
    {
      ok := RunContextMaintenance(session, m);
    }

    /** The turn proper: the user's message, the loop, the answer. */
    method AnswerUser(session: string, userMessage: string, rounds: nat -> RoundWorld) returns (end: TurnEnd, ghost runs: seq<ToolRun>)
      requires Valid()
      modifies this`jobs, store
      ensures Valid() && Advanced(old(store.table), store.table, session) && !end.Busy?
      ensures NoneTooOften(runs) && (end.Done? ==> RanAll(rounds, toolExecutor.known, digest, end.loop.toolIterationCount, runs))
      ensures end.Done? ==>
                && CountersAgree(end.loop) && !RequestsTools(end.loop.response)
                && end.assistant.raw == end.loop.response.content && end.assistant.kind == AssistantMessage
                && var ms, n := Rows(store.table, session), |Rows(old(store.table), session)|;
                && |ms| > n + 1 && ms[|ms| - 1] == end.assistant
                && ms[n].kind == UserMessage && ms[n].raw == userMessage
    {
      ghost var before := store.table;
      var r;
      r, runs := HearAndLoop(session, userMessage, rounds);
      if r.Err? {
        return TurnFailed(r.error), runs;
      }
      ghost var table := store.table;
      var assistant := Append(session, AssistantPayload(assembler.codec, r.value.response, []));
      AdvancedThen(before, table, store.table, session);
      return Done(assistant, r.value), runs;
    }

    /** Stores what the user said, then runs the loop. */
    method HearAndLoop(session: string, userMessage: string, rounds: nat -> RoundWorld)
      returns (r: Result<LoopResult, Failure>, ghost runs: seq<ToolRun>)
      requires Valid()
      modifies this`jobs, store
      ensures Valid() && Advanced(old(store.table), store.table, session) && NoneTooOften(runs)
      ensures var ms, n := Rows(store.table, session), |Rows(old(store.table), session)|;
              |ms| > n && ms[n].kind == UserMessage && ms[n].raw == userMessage
      ensures r.Ok? ==>
                && CountersAgree(r.value) && !RequestsTools(r.value.response)
                && RanAll(rounds, toolExecutor.known, digest, r.value.toolIterationCount, runs)
    {
      ghost var table0 := store.table;
      var user := Append(session, Payload(UserMessage, userMessage, [], None, None, false));
      ghost var table1 := store.table;
      var modelCalls, batches;
      r, modelCalls, batches, runs := RunAgentLoop(session, rounds);
      AdvancedThen(table0, table1, store.table, session);
      assert Kept(user, Rows(store.table, session)[|Rows(table0, session)|]);
    }
  }

  /** A batch that did not complete. */
  predicate Stopped(failed: Option<Failure>) {
    failed == Some(TurnCanceled) || failed == Some(ToolTraceFailed)
  }

  /** The tools run by exactly the first `batches` batches. A bound name for the number keeps the run
      folded up until it is asked for. */
  ghost predicate RanAll(world: nat -> RoundWorld, known: string -> bool, digest: Json -> string, batches: nat, runs: seq<ToolRun>) {
    forall n: nat :: n == batches ==> runs == RunsUpTo(world, known, digest, n)
  }

  ghost predicate CountedAll(world: nat -> RoundWorld, digest: Json -> string, batches: nat, counts: map<string, nat>) {
    forall n: nat :: n == batches ==> counts == CountedAfter(digest, map[], CallsUpTo(world, n))
  }

  /** Between batches a turn has counted all its calls and run the tools of all its batches. */
  ghost predicate CountedSoFar(turn: TurnToolState, world: nat -> RoundWorld, known: string -> bool, batches: nat)
    reads turn
  {
    CountedAll(world, turn.digest, batches, turn.repeatedCallCounts) && RanAll(world, known, turn.digest, batches, turn.runs)
  }

  /** The tools run by a turn that completed its first `batches` batches and perhaps began one more. */
  ghost predicate TurnRuns(world: nat -> RoundWorld, known: string -> bool, digest: Json -> string, batches: nat, runs: seq<ToolRun>) {
    forall n: nat :: n == batches ==>
      exists reached :: 0 <= reached <= |BatchCalls(world(n))|
        && runs == RunsUpTo(world, known, digest, n) + BatchRuns(world, known, digest, n, reached)
  }

  lemma SoFarIsTurnRuns(world: nat -> RoundWorld, known: string -> bool, digest: Json -> string, batches: nat, runs: seq<ToolRun>)
    requires RanAll(world, known, digest, batches, runs)
    ensures TurnRuns(world, known, digest, batches, runs)
  {
    assert runs == RunsUpTo(world, known, digest, batches) + BatchRuns(world, known, digest, batches, 0);
  }

  lemma StoppedIsTurnRuns(
    world: nat -> RoundWorld, known: string -> bool, digest: Json -> string, batches: nat, counts: map<string, nat>, runs: seq<ToolRun>,
    reached: nat, runs': seq<ToolRun>)
    requires RanAll(world, known, digest, batches, runs) && CountedAll(world, digest, batches, counts)
    requires reached <= |BatchCalls(world(batches))|
    requires Ran(world(batches).batch, known, digest, counts, BatchCalls(world(batches)), reached, runs, runs')
    ensures TurnRuns(world, known, digest, batches, runs')
  {
    assert runs == RunsUpTo(world, known, digest, batches);
    assert counts == CountedAfter(digest, map[], CallsUpTo(world, batches));
    assert runs' == runs + RunsIn(world(batches).batch, known, digest, counts, BatchCalls(world(batches)), reached);
    assert runs' == RunsUpTo(world, known, digest, batches) + BatchRuns(world, known, digest, batches, reached);
  }

  lemma BatchIsRun(
    world: nat -> RoundWorld, known: string -> bool, digest: Json -> string, batches: nat, counts: map<string, nat>, runs: seq<ToolRun>,
    runs': seq<ToolRun>)
    requires RanAll(world, known, digest, batches, runs) && CountedAll(world, digest, batches, counts)
    requires var calls := BatchCalls(world(batches));
             Ran(world(batches).batch, known, digest, counts, calls, |calls|, runs, runs')
    ensures RanAll(world, known, digest, batches + 1, runs')
  {
    var calls := BatchCalls(world(batches));
    assert runs == RunsUpTo(world, known, digest, batches);
    assert counts == CountedAfter(digest, map[], CallsUpTo(world, batches));
    assert runs' == runs + RunsIn(world(batches).batch, known, digest, counts, calls, |calls|);
  }

  lemma BatchIsCounted(world: nat -> RoundWorld, digest: Json -> string, batches: nat, counts: map<string, nat>, counts': map<string, nat>)
    requires CountedAll(world, digest, batches, counts)
    requires var calls := BatchCalls(world(batches)); Counted(digest, counts, calls, |calls|, counts')
    ensures CountedAll(world, digest, batches + 1, counts')
  {
    var calls := BatchCalls(world(batches));
    assert calls[..|calls|] == calls;
    assert counts == CountedAfter(digest, map[], CallsUpTo(world, batches));
    assert counts' == CountedAfter(digest, counts, calls);
    CountedNext(digest, world, batches);
  }

  lemma CountedNext(digest: Json -> string, world: nat -> RoundWorld, n: nat)
    ensures CountedAfter(digest, CountedAfter(digest, map[], CallsUpTo(world, n)), BatchCalls(world(n)))
            == CountedAfter(digest, map[], CallsUpTo(world, n + 1))
  {
    CountedOn(digest, map[], CallsUpTo(world, n), BatchCalls(world(n)));
  }

  /** No tool was run more than three times with the same arguments. */
  ghost predicate NoneTooOften(runs: seq<ToolRun>) {
    forall run :: TimesRun(runs, run) <= BLOCK_AFTER
  }

  lemma NoneRunTooOften(turn: TurnToolState)
    requires turn.Valid()
    ensures NoneTooOften(turn.runs)
  {
    forall run
      ensures TimesRun(turn.runs, run) <= BLOCK_AFTER
    {
      RunAtMostThrice(turn.digest, turn.runs, turn.repeatedCallCounts, run);
    }
  }

  function LastResponse(world: nat -> RoundWorld, modelCalls: nat): Response {
    if modelCalls > 0 && world(modelCalls - 1).reply.Reply? then world(modelCalls - 1).reply.response else Response("", "", [])
  }

  /** What the user said is stored at the old end of the stream, or one later. */
  predicate Heard(ms: seq<Message>, ms': seq<Message>, text: string) {
    exists k :: |ms| <= k <= |ms| + 1 && k < |ms'| && ms'[k].kind == UserMessage && ms'[k].raw == text
  }

  lemma MaintenanceAddsAtMostOne(codec: Codec, table: seq<Message>, jobs: seq<Job>, session: string, m: Maintenance)
    requires AfterTruncation(codec, table, session, m).Ok?
    requires AfterHandover(AfterTruncation(codec, table, session, m).value, jobs, session, m).Ok?
    ensures var table' := AfterHandover(AfterTruncation(codec, table, session, m).value, jobs, session, m).value.0;
            |Rows(table, session)| <= |Rows(table', session)| <= |Rows(table, session)| + 1
  {
    var table1 := AfterTruncation(codec, table, session, m).value;
    if m.truncate && m.passNeeded {
      PassKeepsStream(codec, table, session, m.limit, None, session);
    }
    var r := Compressed(table1, session, None, m.reply, NewId(table1));
    if r.Ok? {
      RowsOfAppend(table1, r.value.0[|table1|], session);
    }
  }

  lemma AskedThenWritten(ms: seq<Message>, asked: Message, written: seq<Message>)
    ensures ms + [asked] + written == ms + ([asked] + written)
    ensures ([asked] + written)[1..] == written
  {
  }

  /** The calls of the first `batches` batches. Here too a bound name keeps the record folded up. */
  ghost predicate CallsAre(world: nat -> RoundWorld, batches: nat, calls: seq<ToolCall>) {
    forall n: nat :: n == batches ==> calls == CallsUpTo(world, n)
  }

  ghost predicate ModelCallsAre(world: nat -> RoundWorld, modelCalls: nat, ids: seq<string>, retries: nat) {
    forall n: nat :: n == modelCalls ==> ids == IdsUpTo(world, n) && retries == RetriesUpTo(world, n)
  }

  /** What the loop has recorded so far. */
  ghost predicate Recorded(world: nat -> RoundWorld, l: LoopResult, modelCalls: nat, batches: nat) {
    && CountersAgree(l) && l.llmRoundCount == modelCalls && l.toolIterationCount == batches
    && CallsAre(world, batches, l.calls) && ModelCallsAre(world, modelCalls, l.llmCallIds, l.llmRetryCount)
  }

  lemma RecordCall(world: nat -> RoundWorld, l: LoopResult, modelCalls: nat, batches: nat)
    requires Recorded(world, l, modelCalls, batches) && world(modelCalls).reply.Reply?
    ensures Recorded(world, WithModelCall(l, world(modelCalls).callId, world(modelCalls).reply.retries), modelCalls + 1, batches)
  {
    assert l.llmCallIds == IdsUpTo(world, modelCalls) && l.llmRetryCount == RetriesUpTo(world, modelCalls);
  }

  lemma RecordBatch(
    world: nat -> RoundWorld, l: LoopResult, modelCalls: nat, batches: nat, messages: seq<Message>, results: seq<Executed>)
    requires Recorded(world, l, modelCalls, batches) && Answered(world(batches))
    requires var calls := world(batches).reply.response.calls;
             CallsOf(results) == calls && |messages| == |calls| + 1
    ensures Recorded(world, WithBatch(l, world(batches).reply.response.calls, messages, results), modelCalls, batches + 1)
  {
    assert l.calls == CallsUpTo(world, batches);
    BatchKeepsCounters(l, world(batches).reply.response.calls, messages, results);
  }

  /** Before the next model call, after the last one, or in the last one's batch. */
  predicate CanceledSomewhere(world: nat -> RoundWorld, modelCalls: nat) {
    || world(modelCalls).canceledBefore
    || (modelCalls > 0 && (world(modelCalls - 1).canceledAfter
                           || CanCancel(world(modelCalls - 1).batch, |LastResponse(world, modelCalls).calls|)))
  }

  /** Whether one more batch would exceed a limit. */
  predicate LimitReached(maxIterations: nat, maxRounds: nat, batches: nat) {
    batches >= maxIterations || batches + 1 >= maxRounds
  }

  /** Between rounds: every model call so far asked for tools properly, and all but a last one, made
      because a limit was reached, led to a batch. */
  ghost predicate InLoop(
    maxIterations: nat, maxRounds: nat, world: nat -> RoundWorld, l: LoopResult, modelCalls: nat, batches: nat, finalizing: bool)
  {
    && Recorded(world, l, modelCalls, batches) && AllAsked(world, modelCalls)
    && batches <= maxIterations && batches < maxRounds
    && modelCalls == batches + (if finalizing then 1 else 0)
    && (finalizing ==> LimitReached(maxIterations, maxRounds, batches))
  }

  /** Right after a model call that answered. */
  ghost predicate Replied(
    maxIterations: nat, maxRounds: nat, world: nat -> RoundWorld, l: LoopResult, modelCalls: nat, batches: nat, finalizing: bool)
  {
    && modelCalls > 0 && Answered(world(modelCalls - 1))
    && Recorded(world, l, modelCalls, batches) && AllAsked(world, modelCalls - 1)
    && batches <= maxIterations && batches < maxRounds
    && modelCalls == batches + (if finalizing then 2 else 1)
    && (finalizing ==> LimitReached(maxIterations, maxRounds, batches))
  }

  /** The ends of a round that has no reply, and what a round that has one starts from. */
  lemma EndsWithoutReply(
    maxIterations: nat, maxRounds: nat, world: nat -> RoundWorld, l: LoopResult, modelCalls: nat, batches: nat, finalizing: bool)
    requires InLoop(maxIterations, maxRounds, world, l, modelCalls, batches, finalizing)
    ensures world(modelCalls).canceledBefore ==> LoopEnd(maxIterations, maxRounds, world, Err(TurnCanceled), modelCalls, batches) == true
    ensures world(modelCalls).canceledAfter ==> LoopEnd(maxIterations, maxRounds, world, Err(TurnCanceled), modelCalls + 1, batches) == true
    ensures world(modelCalls).reply.ModelFails? ==> LoopEnd(maxIterations, maxRounds, world, Err(LlmFailed), modelCalls + 1, batches) == true
    ensures Answered(world(modelCalls)) ==>
              Replied(maxIterations, maxRounds, world, WithModelCall(l, world(modelCalls).callId, world(modelCalls).reply.retries),
                      modelCalls + 1, batches, finalizing) == true
  {
    if world(modelCalls).reply.Reply? {
      RecordCall(world, l, modelCalls, batches);
    }
  }

  /** The ends of a round whose reply asks for no batch, and what a refused batch leads to. */
  lemma EndsAfterReply(
    maxIterations: nat, maxRounds: nat, world: nat -> RoundWorld, l: LoopResult, modelCalls: nat, batches: nat, finalizing: bool)
    requires Replied(maxIterations, maxRounds, world, l, modelCalls, batches, finalizing)
    ensures var response := world(modelCalls - 1).reply.response;
            if !RequestsTools(response) then
              LoopEnd(maxIterations, maxRounds, world, Ok(l.(response := response)), modelCalls, batches) == true
            else if finalizing then LoopEnd(maxIterations, maxRounds, world, Err(LoopLimit), modelCalls, batches) == true
            else if !GoodCalls(response.calls) then
              LoopEnd(maxIterations, maxRounds, world, Err(ProtocolViolation), modelCalls, batches) == true
            else
              AllAsked(world, modelCalls) == true
              && (LimitReached(maxIterations, maxRounds, batches) ==>
                    InLoop(maxIterations, maxRounds, world, l, modelCalls, batches, true) == true)
  {
  }

  /** How the loop ends: every model call but the last asked for tools properly; all of those led to a
      batch, except one that is refused exactly when a limit is reached; and the end follows from what
      the last model call gave. */
  ghost predicate LoopEnd(
    maxIterations: nat, maxRounds: nat, world: nat -> RoundWorld, r: Result<LoopResult, Failure>, modelCalls: nat, batches: nat)
  {
    && batches <= modelCalls <= batches + 2 && batches <= maxIterations && batches < maxRounds + 1
    && AllAsked(world, if modelCalls == 0 then 0 else modelCalls - 1)
    && (modelCalls == batches + 2 ==> LimitReached(maxIterations, maxRounds, batches) && batches < maxRounds)
    && match r
       case Ok(l) =>
         && Recorded(world, l, modelCalls, batches)
         && modelCalls > batches && Answered(world(modelCalls - 1))
         && l.response == world(modelCalls - 1).reply.response && !RequestsTools(l.response)
       case Err(LoopLimit) => modelCalls == batches + 2 && RequestsTools(LastResponse(world, modelCalls))
       case Err(ProtocolViolation) =>
         && modelCalls == batches + 1
         && RequestsTools(LastResponse(world, modelCalls)) && !GoodCalls(LastResponse(world, modelCalls).calls)
       case Err(LlmFailed) => modelCalls > 0 && world(modelCalls - 1).reply.ModelFails?
       case Err(TurnCanceled) => CanceledSomewhere(world, modelCalls)
       case Err(ToolTraceFailed) =>
         modelCalls > 0 && TraceCanRaise(world(modelCalls - 1).batch, |LastResponse(world, modelCalls).calls|)
       case Err(MaintenanceFailed) =>
         modelCalls > 0 && (world(modelCalls - 1).maintenance.truncate || world(modelCalls - 1).maintenance.handover)
       case Err(TooLarge) => false
  }

  const NOTHING_YET := LoopResult(Response("", "", []), [], [], [], 0, 0, 0, 0, 0, [])

  lemma StartsInLoop(maxIterations: nat, maxRounds: nat, world: nat -> RoundWorld)
    requires maxRounds >= 1
    ensures InLoop(maxIterations, maxRounds, world, NOTHING_YET, 0, 0, false)
  {
  }

  lemma EndWithinBounds(
    maxIterations: nat, maxRounds: nat, world: nat -> RoundWorld, r: Result<LoopResult, Failure>, modelCalls: nat, batches: nat)
    requires LoopEnd(maxIterations, maxRounds, world, r, modelCalls, batches)
    ensures modelCalls <= maxIterations + 2 && modelCalls <= maxRounds + 1
  {
  }

  function WithModelCall(l: LoopResult, callId: string, retries: nat): LoopResult {
    l.(llmRoundCount := l.llmRoundCount + 1, llmRetryCount := l.llmRetryCount + retries, llmCallIds := l.llmCallIds + [callId])
  }

  /** The counters of a loop result are the lengths of its lists, and its results answer its calls. */
  predicate CountersAgree(l: LoopResult) {
    && l.llmRoundCount == |l.llmCallIds|
    && l.providerToolCallCount == |l.calls| && l.toolCallCount == |l.results|
    && |l.toolMessages| == l.toolIterationCount + |l.results|
    && CallsOf(l.results) == l.calls
  }

  /** The calls that results belong to, in order. */
  function CallsOf(results: seq<Executed>): seq<ToolCall> {
    seq(|results|, i requires 0 <= i < |results| => results[i].call)
  }

  function WithBatch(l: LoopResult, calls: seq<ToolCall>, messages: seq<Message>, results: seq<Executed>): LoopResult {
    l.(calls := l.calls + calls, providerToolCallCount := l.providerToolCallCount + |calls|,
       results := l.results + results, toolCallCount := l.toolCallCount + |results|,
       toolMessages := l.toolMessages + messages, toolIterationCount := l.toolIterationCount + 1)
  }

  lemma BatchKeepsCounters(l: LoopResult, calls: seq<ToolCall>, messages: seq<Message>, results: seq<Executed>)
    requires CountersAgree(l) && CallsOf(results) == calls && |messages| == |calls| + 1
    ensures CountersAgree(WithBatch(l, calls, messages, results))
  {
  }

  lemma WireCarriesIds(codec: Codec, response: Response, m: Message)
    requires forall c <- response.calls :: HasId(c)
    requires m.calls == AssistantPayload(codec, response, response.calls).calls
    ensures forall c <- response.calls :: CarriesId(m, c.id.value)
  {
    forall c | c in response.calls
      ensures CarriesId(m, c.id.value)
    {
      var i :| 0 <= i < |response.calls| && response.calls[i] == c;
      assert m.calls[i] in m.calls && Field(m.calls[i], "id") == Some(JString(c.id.value));
    }
  }

  /** Some assistant message carries the id, with no compressed message after it. */
  ghost predicate Wanted(ms: seq<Message>, id: Option<string>) {
    id.Some? && exists a :: WantedBy(ms, id.value, a)
  }

  predicate WantedBy(ms: seq<Message>, id: string, a: int) {
    && 0 <= a < |ms| && ms[a].kind == AssistantMessage && CarriesId(ms[a], id)
    && forall i :: a < i < |ms| ==> ms[i].kind != CompressedMessage
  }

  lemma WantedIsAnchored(ms: seq<Message>, m: Message)
    requires Wanted(ms, m.callId)
    ensures AnchoredAt(ms + [m], |ms|)
  {
    var a :| WantedBy(ms, m.callId.value, a);
    assert Carrier(ms + [m], a, |ms|);
  }

  lemma StillWanted(ms: seq<Message>, written: seq<Message>, calls: seq<ToolCall>, i: nat)
    requires i < |calls| && AwaitsResults(ms, calls) && |written| == i && Answers(written, calls[..i])
    ensures Wanted(ms + written, calls[i].id)
  {
    assert calls[i] in calls;
    assert WantedBy(ms + written, calls[i].id.value, |ms| - 1);
  }

  lemma HoldsOneMore(written: seq<Message>, m: Message, now: RoundWorld, results: seq<Executed>, i: nat)
    requires i < |results| && Holds(written, now, results[..i])
    requires m.raw == now.render(results[i]) && m.model.None? && m.meta.textOutput == now.isText(results[i]) && !m.meta.truncateChecked
    ensures Holds(written + [m], now, results[..i + 1])
  {
    assert results[..i + 1] == results[..i] + [results[i]];
  }

  lemma AnswersOneMore(written: seq<Message>, m: Message, calls: seq<ToolCall>, i: nat)
    requires i < |calls| && |written| == i && Answers(written, calls[..i])
    requires m.kind == ToolMessage && m.callId == calls[i].id
    ensures Answers(written + [m], calls[..i + 1])
  {
    assert calls[..i + 1] == calls[..i] + [calls[i]];
  }
}
