/** Executing one batch of tool calls: one result per call, in call order, and no call run a fourth
    time in a turn. */
module ToolExecution {
  import opened Common
  import opened JsonValues

  const BLOCK_AFTER := 3

  datatype ToolCall = ToolCall(
    id: Option<string>, name: string, arguments: Json, parseError: bool, rawArguments: Option<string>)

  datatype ToolResult =
    | Plain(output: Json)
    | Warned(output: Json, count: nat)
    | Blocked(count: nat)
    | Failed(why: string)

  datatype Executed = Executed(call: ToolCall, result: ToolResult)

  /** What running a tool does: it returns, raises, or raises the cancellation. A result may itself say
      the tool was canceled, which skips the check after it. */
  datatype RunOutcome = Output(value: Json, saysCanceled: bool) | Raises(why: string) | RaisesCanceled

  /** An arbitrary environment for one batch, by position in it. `traceRaises` is the tool's own summary of
      its arguments, asked for before the call is counted and outside the handling of errors. */
  datatype BatchWorld = BatchWorld(
    canceledBefore: nat -> bool, canceledAfter: nat -> bool, available: string -> bool,
    traceRaises: nat -> bool, run: nat -> RunOutcome)

  predicate Cancels(b: BatchWorld, i: nat) {
    b.canceledBefore(i) || b.canceledAfter(i) || b.run(i).RaisesCanceled?
  }

  /** The user or a tool cancels somewhere in the first `n` calls. */
  predicate CanCancel(b: BatchWorld, n: nat) {
    exists i :: 0 <= i < n && Cancels(b, i)
  }

  /** Some tool's summary of its arguments raises in the first `n` calls. */
  predicate TraceCanRaise(b: BatchWorld, n: nat) {
    exists i :: 0 <= i < n && b.traceRaises(i)
  }

  datatype Stop = Canceled | ToolError(call: ToolCall) | TraceRaised

  predicate Known(known: string -> bool, call: ToolCall) {
    !call.parseError && known(call.name)
  }

  predicate Runnable(b: BatchWorld, known: string -> bool, call: ToolCall) {
    Known(known, call) && b.available(call.name)
  }

  /** What stops a batch at a call that is its kind's `count`-th in the turn, if anything does. */
  function CallStop(b: BatchWorld, known: string -> bool, recover: bool, call: ToolCall, i: nat, count: nat): Option<Stop> {
    if b.canceledBefore(i) then Some(Canceled)
    else if Known(known, call) && b.traceRaises(i) then Some(TraceRaised)
    else if count > BLOCK_AFTER then None
    else if !Runnable(b, known, call) then if recover then None else Some(ToolError(call))
    else
      match b.run(i)
      case Raises(_) => if recover then None else Some(ToolError(call))
      case RaisesCanceled => Some(Canceled)
      case Output(_, saysCanceled) => if !saysCanceled && b.canceledAfter(i) then Some(Canceled) else None
  }

  /** Whether a call gets as far as its tool. */
  predicate ReachesTool(b: BatchWorld, known: string -> bool, call: ToolCall, i: nat, count: nat) {
    !b.canceledBefore(i) && !b.traceRaises(i) && count <= BLOCK_AFTER && Runnable(b, known, call)
  }

  /** The call is one the turn may still run, asked properly, of a tool that is there. */
  predicate IsAsked(b: BatchWorld, known: string -> bool, call: ToolCall, count: nat) {
    count <= 3 && !call.parseError && known(call.name) && b.available(call.name)
  }

  /** The tool raises the cancellation, or returns, not canceled itself, and the turn is canceled after it. */
  predicate CanceledInRun(b: BatchWorld, i: nat) {
    match b.run(i)
    case RaisesCanceled => true
    case Output(_, saysCanceled) => !saysCanceled && b.canceledAfter(i)
    case Raises(_) => false
  }

  /** What stops a batch at a call: a cancellation before it or in its run, a summary that raises first, or,
      without recovery only, a call that cannot be run or a tool that raises. Nothing else does. */
  lemma StopsExactlyWhen(b: BatchWorld, known: string -> bool, recover: bool, call: ToolCall, i: nat, count: nat)
    ensures var stop := CallStop(b, known, recover, call, i, count);
            var summaryRaises := !call.parseError && known(call.name) && b.traceRaises(i);
            && (stop == Some(Canceled) <==>
                  b.canceledBefore(i) || (!summaryRaises && IsAsked(b, known, call, count) && CanceledInRun(b, i)))
            && (stop == Some(TraceRaised) <==> !b.canceledBefore(i) && summaryRaises)
            && (stop == Some(ToolError(call)) <==>
                  && !recover && !b.canceledBefore(i) && !summaryRaises && count <= 3
                  && (IsAsked(b, known, call, count) ==> b.run(i).Raises?))
            && (stop.Some? && stop.value.ToolError? ==> stop.value.call == call)
            && (ReachesTool(b, known, call, i, count) <==> !b.canceledBefore(i) && !summaryRaises && IsAsked(b, known, call, count))
  {
  }

  /** The key of a call: its name and the digest of its canonical arguments, which is left open. */
  function KeyOf(digest: Json -> string, name: string, arguments: Json): string {
    name + ":" + digest(arguments)
  }

  function CallKey(digest: Json -> string, call: ToolCall): string {
    KeyOf(digest, call.name, call.arguments)
  }

  function CountOf(counts: map<string, nat>, key: string): nat {
    if key in counts then counts[key] else 0
  }

  /** How many calls of a batch have a key. */
  function Occurrences(digest: Json -> string, calls: seq<ToolCall>, key: string): nat {
    if calls == [] then 0
    else Occurrences(digest, calls[..|calls| - 1], key) + if CallKey(digest, calls[|calls| - 1]) == key then 1 else 0
  }

  datatype ToolRun = ToolRun(name: string, arguments: Json)

  function RunsOfKey(digest: Json -> string, runs: seq<ToolRun>, key: string): nat {
    if runs == [] then 0
    else
      var last := runs[|runs| - 1];
      RunsOfKey(digest, runs[..|runs| - 1], key) + if KeyOf(digest, last.name, last.arguments) == key then 1 else 0
  }

  function TimesRun(runs: seq<ToolRun>, run: ToolRun): nat {
    if runs == [] then 0 else TimesRun(runs[..|runs| - 1], run) + if runs[|runs| - 1] == run then 1 else 0
  }

  /** Every key was run at most three times, and no more often than it was counted. */
  ghost predicate RunsCounted(digest: Json -> string, runs: seq<ToolRun>, counts: map<string, nat>) {
    forall key :: RunsOfKey(digest, runs, key) <= CountOf(counts, key) && RunsOfKey(digest, runs, key) <= BLOCK_AFTER
  }

  /** However the digest behaves, one tool is run at most three times with the same arguments. */
  lemma {:induction false} RunAtMostThrice(digest: Json -> string, runs: seq<ToolRun>, counts: map<string, nat>, run: ToolRun)
    requires RunsCounted(digest, runs, counts)
    ensures TimesRun(runs, run) <= BLOCK_AFTER
  {
    TimesRunUnderKey(digest, runs, run);
  }

  lemma {:induction false} TimesRunUnderKey(digest: Json -> string, runs: seq<ToolRun>, run: ToolRun)
    ensures TimesRun(runs, run) <= RunsOfKey(digest, runs, KeyOf(digest, run.name, run.arguments))
  {
    if runs != [] {
      TimesRunUnderKey(digest, runs[..|runs| - 1], run);
    }
  }

  lemma CountedOnce(digest: Json -> string, runs: seq<ToolRun>, counts: map<string, nat>, key: string)
    requires RunsCounted(digest, runs, counts)
    ensures RunsCounted(digest, runs, counts[key := CountOf(counts, key) + 1])
  {
  }

  /** A run of a call that was just counted, and not more than three times. */
  lemma RunOnce(digest: Json -> string, runs: seq<ToolRun>, counts: map<string, nat>, run: ToolRun)
    requires RunsCounted(digest, runs, counts)
    requires CountOf(counts, KeyOf(digest, run.name, run.arguments)) < BLOCK_AFTER
    ensures var key := KeyOf(digest, run.name, run.arguments);
            RunsCounted(digest, runs + [run], counts[key := CountOf(counts, key) + 1])
  {
    var key := KeyOf(digest, run.name, run.arguments);
    var counts' := counts[key := CountOf(counts, key) + 1];
    assert (runs + [run])[..|runs|] == runs;
    forall other
      ensures RunsOfKey(digest, runs + [run], other) <= CountOf(counts', other)
      ensures RunsOfKey(digest, runs + [run], other) <= BLOCK_AFTER
    {
      assert RunsOfKey(digest, runs, other) <= CountOf(counts, other) && RunsOfKey(digest, runs, other) <= BLOCK_AFTER;
    }
  }

  class TurnToolState {
    const digest: Json -> string
    var repeatedCallCounts: map<string, nat>
    ghost var runs: seq<ToolRun>

    ghost predicate Valid()
      reads this
    {
      RunsCounted(digest, runs, repeatedCallCounts)
    }

    constructor (digest: Json -> string)
      ensures Valid() && repeatedCallCounts == map[] && runs == [] && this.digest == digest
    {
      this.digest, repeatedCallCounts, runs := digest, map[], [];
    }
  }

  /** The count a call reaches: what the turn counted before the batch, plus its like in the batch so
      far. */
  function CountAt(digest: Json -> string, counts: map<string, nat>, calls: seq<ToolCall>, i: nat): nat
    requires i < |calls|
  {
    CountOf(counts, CallKey(digest, calls[i])) + Occurrences(digest, calls[..i + 1], CallKey(digest, calls[i]))
  }

  function CountedAfter(digest: Json -> string, counts: map<string, nat>, calls: seq<ToolCall>): map<string, nat>
  {
    if calls == [] then counts
    else
      var rest, key := CountedAfter(digest, counts, calls[..|calls| - 1]), CallKey(digest, calls[|calls| - 1]);
      rest[key := CountOf(rest, key) + 1]
  }

  lemma {:induction false} CountedAfterMeans(digest: Json -> string, counts: map<string, nat>, calls: seq<ToolCall>, key: string)
    ensures CountOf(CountedAfter(digest, counts, calls), key) == CountOf(counts, key) + Occurrences(digest, calls, key)
  {
    if calls != [] {
      CountedAfterMeans(digest, counts, calls[..|calls| - 1], key);
    }
  }

  /** What a call's result must be: blocked exactly when its like was already asked for three times in
      the turn, warned about exactly when it ran as the third. */
  predicate ResultFits(result: ToolResult, count: nat) {
    && (result.Blocked? <==> count > BLOCK_AFTER)
    && (result.Blocked? ==> result.count == count)
    && (result.Plain? ==> count < BLOCK_AFTER)
    && (result.Warned? ==> count == BLOCK_AFTER && result.count == count)
  }

  /** Where a result comes from: a tool that was asked properly, known and available gave its output;
      otherwise a failure says it could not be run or raised. */
  predicate ResultFrom(world: BatchWorld, known: string -> bool, call: ToolCall, i: nat, result: ToolResult) {
    match result
    case Plain(v) => Runnable(world, known, call) && world.run(i).Output? && world.run(i).value == v
    case Warned(v, _) => Runnable(world, known, call) && world.run(i).Output? && world.run(i).value == v
    case Failed(_) => !Runnable(world, known, call) || world.run(i).Raises?
    case Blocked(_) => true
  }

  /** The tools run for the first `n` calls of a batch, in order. */
  function RunsIn(
    b: BatchWorld, known: string -> bool, digest: Json -> string, counts: map<string, nat>, calls: seq<ToolCall>, n: nat): seq<ToolRun>
    requires n <= |calls|
  {
    if n == 0 then []
    else
      RunsIn(b, known, digest, counts, calls, n - 1)
      + if ReachesTool(b, known, calls[n - 1], n - 1, CountAt(digest, counts, calls, n - 1))
        then [ToolRun(calls[n - 1].name, calls[n - 1].arguments)] else []
  }

  /** What stops the batch at a call, if anything does, with the counts the batch starts from. */
  function StopAt(
    b: BatchWorld, known: string -> bool, recover: bool, digest: Json -> string, counts: map<string, nat>, calls: seq<ToolCall>, i: nat)
    : Option<Stop>
    requires i < |calls|
  {
    CallStop(b, known, recover, calls[i], i, CountAt(digest, counts, calls, i))
  }

  /** What is recorded for a call of the batch: that call, with a result it can have. */
  predicate Settles(
    b: BatchWorld, known: string -> bool, digest: Json -> string, counts: map<string, nat>, calls: seq<ToolCall>, i: nat, e: Executed)
    requires i < |calls|
  {
    && e.call == calls[i] && ResultFits(e.result, CountAt(digest, counts, calls, i))
    && ResultFrom(b, known, calls[i], i, e.result)
  }

  class ToolExecutor {
    /** Which names the registry knows. */
    const known: string -> bool

    constructor (known: string -> bool)
      ensures this.known == known
    {
      this.known := known;
    }

    /** One call that is neither blocked nor stopped by cancellation before it: its result, or the error
        it raises. The turn's record of runs grows exactly when the tool is really run. */
    method RunCall(call: ToolCall, i: nat, world: BatchWorld, count: nat, turn: TurnToolState, ghost before: map<string, nat>)
      returns (r: Result<ToolResult, Option<string>>)
      requires RunsCounted(turn.digest, turn.runs, before)
      requires turn.repeatedCallCounts == before[CallKey(turn.digest, call) := count]
      requires count == CountOf(before, CallKey(turn.digest, call)) + 1 && count <= BLOCK_AFTER
      modifies turn`runs
      ensures turn.Valid()
      ensures r.Ok? ==> ResultFits(r.value, count) && !r.value.Failed? && ResultFrom(world, known, call, i, r.value)
      ensures r.Err? && r.error.Some? ==> ResultFrom(world, known, call, i, Failed(r.error.value))
      ensures r == Err(None) <==> Runnable(world, known, call) && match world.run(i)
                                                                  case Raises(_) => false
                                                                  case RaisesCanceled => true
                                                                  case Output(_, saysCanceled) => !saysCanceled && world.canceledAfter(i)
      ensures r.Ok? <==> Runnable(world, known, call) && world.run(i).Output? && r != Err(None)
      ensures turn.runs == if Runnable(world, known, call) then old(turn.runs) + [ToolRun(call.name, call.arguments)] else old(turn.runs)
    {
      CountedOnce(turn.digest, turn.runs, before, CallKey(turn.digest, call));
      if call.parseError {
        return Err(Some("invalid tool call arguments"));
      }
      if !known(call.name) {
        return Err(Some("unknown tool"));
      }
      if !world.available(call.name) {
        return Err(Some("tool unavailable"));
      }
      RunOnce(turn.digest, turn.runs, before, ToolRun(call.name, call.arguments));
      turn.runs := turn.runs + [ToolRun(call.name, call.arguments)];
      match world.run(i)
      case Raises(why) => return Err(Some(why));
      case RaisesCanceled => return Err(None);
      case Output(value, saysCanceled) =>
        if !saysCanceled && world.canceledAfter(i) {
          return Err(None);
        }
        return Ok(if count == BLOCK_AFTER then Warned(value, count) else Plain(value));
    }

    /** Asks the tool for its summary, counts the call, then blocks it or runs it. A summary that raises
        stops the batch, whatever `recover` says, before the call is counted. */
    method ExecuteOne(call: ToolCall, i: nat, turn: TurnToolState, world: BatchWorld, recover: bool)
      returns (r: Result<ToolResult, Stop>)
      requires turn.Valid()
      modifies turn
      ensures turn.Valid()
      ensures var key, counts := CallKey(turn.digest, call), old(turn.repeatedCallCounts);
              var count := CountOf(counts, key) + 1;
              && (r.Ok? ==> turn.repeatedCallCounts == counts[key := count])
              && (r == Err(TraceRaised) ==> turn.repeatedCallCounts == counts)
              && CallStop(world, known, recover, call, i, count) == (if r.Err? then Some(r.error) else None)
              && (r.Ok? ==> ResultFits(r.value, count) && ResultFrom(world, known, call, i, r.value))
              && turn.runs == if ReachesTool(world, known, call, i, count)
                              then old(turn.runs) + [ToolRun(call.name, call.arguments)] else old(turn.runs)
      ensures r.Ok? && r.value.Failed? ==> recover
    {
      if world.canceledBefore(i) {
        return Err(Canceled);
      }
      if !call.parseError && known(call.name) && world.traceRaises(i) {
        return Err(TraceRaised);
      }
      ghost var before := turn.repeatedCallCounts;
      var key := CallKey(turn.digest, call);
      var count := CountOf(turn.repeatedCallCounts, key) + 1;
      turn.repeatedCallCounts := turn.repeatedCallCounts[key := count];
      if count > BLOCK_AFTER {
        CountedOnce(turn.digest, turn.runs, before, key);
        return Ok(Blocked(count));
      }
      var ran := RunCall(call, i, world, count, turn, before);
      if ran.Ok? {
        return Ok(ran.value);
      }
      if ran.error.None? {
        return Err(Canceled);
      }
      if !recover {
        return Err(ToolError(call));
      }
      return Ok(Failed(ran.error.value));
    }

    /** The whole batch, of which `reached` calls were taken up. It stops exactly at the first call that
        something stops: with `recover`, a cancellation or a summary that raises. When it completes there
        is exactly one result per call, in call order. */
    method Execute(calls: seq<ToolCall>, turn: TurnToolState, world: BatchWorld, recover: bool)
      returns (r: Result<seq<Executed>, Stop>, ghost reached: nat)
      requires turn.Valid()
      modifies turn
      ensures turn.Valid() && reached <= |calls|
      ensures Ran(world, known, turn.digest, old(turn.repeatedCallCounts), calls, reached, old(turn.runs), turn.runs)
      ensures r.Ok? ==>
                && reached == |calls| == |r.value|
                && Counted(turn.digest, old(turn.repeatedCallCounts), calls, reached, turn.repeatedCallCounts)
                && AllSettled(world, known, recover, turn.digest, old(turn.repeatedCallCounts), calls, r.value)
      ensures r.Err? ==> StoppedAt(world, known, recover, turn.digest, old(turn.repeatedCallCounts), calls, reached, r.error)
    {
      ghost var start, runs := turn.repeatedCallCounts, turn.runs;
      var executed: seq<Executed> := [];
      NothingCounted(turn.digest, start, calls);
      reached := 0;
      while |executed| < |calls|
        invariant |executed| == reached <= |calls| && turn.Valid()
        invariant Counted(turn.digest, start, calls, reached, turn.repeatedCallCounts)
        invariant Ran(world, known, turn.digest, start, calls, reached, runs, turn.runs)
        invariant AllSettled(world, known, recover, turn.digest, start, calls, executed)
        decreases |calls| - |executed|
      {
        CountedIsCountAt(turn.digest, start, calls, reached, turn.repeatedCallCounts);
        ghost var ran := turn.runs;
        var result := ExecuteOne(calls[|executed|], |executed|, turn, world, recover);
        OneMoreRan(world, known, turn.digest, start, calls, reached, runs, ran, turn.runs);
        reached := reached + 1;
        if result.Err? {
          StoppedHere(world, known, recover, turn.digest, start, calls, executed, result.error);
          return Err(result.error), reached;
        }
        SettlesNext(world, known, recover, turn.digest, start, calls, executed, Executed(calls[|executed|], result.value));
        executed := executed + [Executed(calls[|executed|], result.value)];
      }
      return Ok(executed), reached;
    }
  }

  /** The calls taken up so far were not stopped, and each has its result. */
  predicate AllSettled(
    b: BatchWorld, known: string -> bool, recover: bool, digest: Json -> string, counts: map<string, nat>, calls: seq<ToolCall>,
    executed: seq<Executed>)
  {
    && |executed| <= |calls|
    && forall i :: 0 <= i < |executed| ==>
         && StopAt(b, known, recover, digest, counts, calls, i) == None
         && Settles(b, known, digest, counts, calls, i, executed[i])
         && (executed[i].result.Failed? ==> recover)
  }

  lemma SettlesNext(
    b: BatchWorld, known: string -> bool, recover: bool, digest: Json -> string, counts: map<string, nat>, calls: seq<ToolCall>,
    executed: seq<Executed>, e: Executed)
    requires |executed| < |calls| && AllSettled(b, known, recover, digest, counts, calls, executed)
    requires StopAt(b, known, recover, digest, counts, calls, |executed|) == None
    requires Settles(b, known, digest, counts, calls, |executed|, e) && (e.result.Failed? ==> recover)
    ensures AllSettled(b, known, recover, digest, counts, calls, executed + [e])
  {
  }

  /** The batch stops at its `reached`-th call and at none before it. */
  predicate StoppedAt(
    b: BatchWorld, known: string -> bool, recover: bool, digest: Json -> string, counts: map<string, nat>, calls: seq<ToolCall>,
    reached: nat, why: Stop)
  {
    && 0 < reached <= |calls|
    && forall i :: 0 <= i < reached ==>
         StopAt(b, known, recover, digest, counts, calls, i) == if i == reached - 1 then Some(why) else None
  }

  lemma StoppedHere(
    b: BatchWorld, known: string -> bool, recover: bool, digest: Json -> string, counts: map<string, nat>, calls: seq<ToolCall>,
    executed: seq<Executed>, why: Stop)
    requires |executed| < |calls| && AllSettled(b, known, recover, digest, counts, calls, executed)
    requires StopAt(b, known, recover, digest, counts, calls, |executed|) == Some(why)
    ensures StoppedAt(b, known, recover, digest, counts, calls, |executed| + 1, why)
  {
  }

  /** The tools run grew by those the first `reached` calls get to. A bound name for the number keeps the
      list folded up until it is asked for; likewise for the counts. */
  ghost predicate Ran(
    b: BatchWorld, known: string -> bool, digest: Json -> string, counts: map<string, nat>, calls: seq<ToolCall>, reached: nat,
    runs: seq<ToolRun>, runs': seq<ToolRun>)
  {
    forall n: nat :: n == reached && n <= |calls| ==> runs' == runs + RunsIn(b, known, digest, counts, calls, n)
  }

  ghost predicate Counted(digest: Json -> string, counts: map<string, nat>, calls: seq<ToolCall>, reached: nat, counts': map<string, nat>)
    requires reached <= |calls|
  {
    forall cs :: cs == calls[..reached] ==> counts' == CountedAfter(digest, counts, cs)
  }

  lemma NothingCounted(digest: Json -> string, counts: map<string, nat>, calls: seq<ToolCall>)
    ensures Counted(digest, counts, calls, 0, counts)
  {
  }

  lemma CountedIsCountAt(digest: Json -> string, start: map<string, nat>, calls: seq<ToolCall>, i: nat, counts: map<string, nat>)
    requires i < |calls| && Counted(digest, start, calls, i, counts)
    ensures var key := CallKey(digest, calls[i]);
            && Counted(digest, start, calls, i + 1, counts[key := CountOf(counts, key) + 1])
            && CountOf(counts, key) + 1 == CountAt(digest, start, calls, i)
  {
    assert counts == CountedAfter(digest, start, calls[..i]);
    CountsSoFar(digest, start, calls, i);
  }

  lemma OneMoreRan(
    b: BatchWorld, known: string -> bool, digest: Json -> string, counts: map<string, nat>, calls: seq<ToolCall>, i: nat,
    start: seq<ToolRun>, runs: seq<ToolRun>, runs': seq<ToolRun>)
    requires i < |calls| && Ran(b, known, digest, counts, calls, i, start, runs)
    requires runs' == if ReachesTool(b, known, calls[i], i, CountAt(digest, counts, calls, i))
                      then runs + [ToolRun(calls[i].name, calls[i].arguments)] else runs
    ensures Ran(b, known, digest, counts, calls, i + 1, start, runs')
  {
    assert runs == start + RunsIn(b, known, digest, counts, calls, i);
  }

  /** With recovery, what stops a batch is a cancellation that took place or a summary that raised. */
  lemma RecoveredStops(
    b: BatchWorld, known: string -> bool, digest: Json -> string, counts: map<string, nat>, calls: seq<ToolCall>, reached: nat, why: Stop)
    requires StoppedAt(b, known, true, digest, counts, calls, reached, why)
    ensures why == Canceled || why == TraceRaised
    ensures why == Canceled ==> CanCancel(b, |calls|)
    ensures why == TraceRaised ==> TraceCanRaise(b, |calls|) && Known(known, calls[reached - 1])
  {
    var i := reached - 1;
    assert StopAt(b, known, true, digest, counts, calls, i) == Some(why);
    assert why == Canceled ==> Cancels(b, i);
  }

  lemma CountsSoFar(digest: Json -> string, start: map<string, nat>, calls: seq<ToolCall>, i: nat)
    requires i < |calls|
    ensures var counts, key := CountedAfter(digest, start, calls[..i]), CallKey(digest, calls[i]);
            && CountedAfter(digest, start, calls[..i + 1]) == counts[key := CountOf(counts, key) + 1]
            && CountOf(counts, key) + 1 == CountAt(digest, start, calls, i)
  {
    assert calls[..i + 1][..i] == calls[..i];
    CountedAfterMeans(digest, start, calls[..i], CallKey(digest, calls[i]));
  }
}
