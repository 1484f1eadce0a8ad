/** The sidecar ledger of background stages: per-source progress, source windows, stage runs. */
module Ledger {
  import opened Common
  import opened Beliefs
  import opened Contract

  datatype Progress = Pending | Claimed | Processed | Failed | Skipped

  datatype RunStatus = RunStarted | RunSucceeded | RunFailed | RunYielded | RunSkipped

  datatype SourceKey = SourceKey(ref: SourceRef, stage: WindowStage, unit: string)

  datatype SourceRow = SourceRow(
    status: Progress,
    attempts: nat,
    lastError: Option<string>,
    claimedBy: Option<string>,
    processedAt: Option<Time>,
    checkpoint: Option<string>,
    updatedAt: Time)

  datatype WindowRow = WindowRow(status: Progress, closedAt: Option<Time>, claimedBy: Option<string>, lastError: Option<string>)

  datatype RunRow = RunRow(status: RunStatus, finishedAt: Option<Time>, outputs: seq<SourceRef>, error: Option<string>)

  datatype Books = Books(
    sources: map<SourceKey, SourceRow>,
    windows: map<string, WindowRow>,
    runs: map<string, RunRow>)

  /** A source row as it is first inserted. */
  function NewSource(now: Time): SourceRow {
    SourceRow(Pending, 0, None, None, None, None, now)
  }

  function SourceOr(l: Books, k: SourceKey, now: Time): SourceRow {
    if k in l.sources then l.sources[k] else NewSource(now)
  }

  function SourceProcessed(l: Books, k: SourceKey, checkpoint: Option<string>, now: Time): Books {
    var row := SourceOr(l, k, now);
    l.(sources := l.sources[k := row.(status := Processed, lastError := None, processedAt := Some(now),
                                      checkpoint := checkpoint, updatedAt := now)])
  }

  function SourceEnded(l: Books, k: SourceKey, status: Progress, reason: string, now: Time): Books {
    var row := SourceOr(l, k, now);
    l.(sources := l.sources[k := row.(status := status, lastError := Some(reason), updatedAt := now)])
  }

  function WindowEnded(l: Books, id: string, status: Progress, reason: Option<string>, now: Time): Books
    requires id in l.windows
  {
    l.(windows := l.windows[id := l.windows[id].(status := status, closedAt := Some(now), lastError := reason)])
  }

  function RunEnded(l: Books, id: string, status: RunStatus, outputs: seq<SourceRef>, error: Option<string>, now: Time): Books
    requires id in l.runs
  {
    l.(runs := l.runs[id := RunRow(status, Some(now), outputs, error)])
  }

  function KeyOf(ref: SourceRef, stage: WindowStage, unit: string): SourceKey {
    SourceKey(ref, stage, unit)
  }

  function AllProcessed(l: Books, refs: seq<SourceRef>, stage: WindowStage, unit: string, checkpoint: Option<string>, now: Time): Books
    decreases |refs|
  {
    if refs == [] then l
    else AllProcessed(SourceProcessed(l, KeyOf(refs[0], stage, unit), checkpoint, now), refs[1..], stage, unit, checkpoint, now)
  }

  function AllFailed(l: Books, refs: seq<SourceRef>, stage: WindowStage, unit: string, reason: string, now: Time): Books
    decreases |refs|
  {
    if refs == [] then l
    else AllFailed(SourceEnded(l, KeyOf(refs[0], stage, unit), Failed, reason, now), refs[1..], stage, unit, reason, now)
  }

  predicate InWindow(k: SourceKey, refs: seq<SourceRef>, stage: WindowStage, unit: string) {
    k.ref in refs && k.stage == stage && k.unit == unit
  }

  /** Marking the sources of a window touches exactly the rows of those sources. */
  ghost predicate OnlyWindow(l: Books, l': Books, refs: seq<SourceRef>, stage: WindowStage, unit: string) {
    && l'.windows == l.windows && l'.runs == l.runs
    && forall k :: !InWindow(k, refs, stage, unit) ==>
         (k in l'.sources <==> k in l.sources) && (k in l.sources ==> l'.sources[k] == l.sources[k])
  }

  /** Processed now, without an error; what else the row had, or a new row has, is kept. */
  predicate IsProcessed(was: Option<SourceRow>, row: SourceRow, checkpoint: Option<string>, now: Time) {
    && row.status == Processed && row.lastError == None && row.processedAt == Some(now) && row.checkpoint == checkpoint
    && row.updatedAt == now
    && row.attempts == (if was.Some? then was.value.attempts else 0)
    && row.claimedBy == (if was.Some? then was.value.claimedBy else None)
  }

  /** Failed for this reason; what else the row had, or a new row has, is kept. */
  predicate HasFailed(was: Option<SourceRow>, row: SourceRow, reason: string, now: Time) {
    && row.status == Failed && row.lastError == Some(reason) && row.updatedAt == now
    && row.attempts == (if was.Some? then was.value.attempts else 0)
    && row.claimedBy == (if was.Some? then was.value.claimedBy else None)
    && row.processedAt == (if was.Some? then was.value.processedAt else None)
    && row.checkpoint == (if was.Some? then was.value.checkpoint else None)
  }

  lemma {:induction false} AllProcessedRows(l: Books, refs: seq<SourceRef>, stage: WindowStage, unit: string, checkpoint: Option<string>, now: Time)
    ensures var l' := AllProcessed(l, refs, stage, unit, checkpoint, now);
            && OnlyWindow(l, l', refs, stage, unit)
            && (forall k :: InWindow(k, refs, stage, unit) ==>
                  k in l'.sources && IsProcessed(if k in l.sources then Some(l.sources[k]) else None, l'.sources[k], checkpoint, now))
    decreases |refs|
  {
    if refs != [] {
      var l1 := SourceProcessed(l, KeyOf(refs[0], stage, unit), checkpoint, now);
      AllProcessedRows(l1, refs[1..], stage, unit, checkpoint, now);
      assert forall k: SourceKey :: k.ref in refs <==> k.ref == refs[0] || k.ref in refs[1..];
    }
  }

  lemma {:induction false} AllFailedRows(l: Books, refs: seq<SourceRef>, stage: WindowStage, unit: string, reason: string, now: Time)
    ensures var l' := AllFailed(l, refs, stage, unit, reason, now);
            && OnlyWindow(l, l', refs, stage, unit)
            && (forall k :: InWindow(k, refs, stage, unit) ==>
                  k in l'.sources && HasFailed(if k in l.sources then Some(l.sources[k]) else None, l'.sources[k], reason, now))
    decreases |refs|
  {
    if refs != [] {
      var l1 := SourceEnded(l, KeyOf(refs[0], stage, unit), Failed, reason, now);
      AllFailedRows(l1, refs[1..], stage, unit, reason, now);
      assert forall k: SourceKey :: k.ref in refs <==> k.ref == refs[0] || k.ref in refs[1..];
    }
  }

  class ProcessingLedger {
    var sources: map<SourceKey, SourceRow>
    var windows: map<string, WindowRow>
    var runs: map<string, RunRow>

    ghost function State(): Books
      reads this
    {
      Books(sources, windows, runs)
    }

    constructor ()
      ensures State() == Books(map[], map[], map[])
    {
      sources, windows, runs := map[], map[], map[];
    }

    method Save() returns (l: Books)
      ensures l == State()
    {
      l := Books(sources, windows, runs);
    }

    method Restore(l: Books)
      modifies this
      ensures State() == l
    {
      sources, windows, runs := l.sources, l.windows, l.runs;
    }

    method EnsureSource(k: SourceKey, now: Time)
      modifies this`sources
      ensures sources == old(sources)[k := SourceOr(old(State()), k, now)]
    {
      if k !in sources {
        sources := sources[k := NewSource(now)];
      } else {
        assert sources == sources[k := sources[k]];
      }
    }

    method MarkSourceProcessed(k: SourceKey, checkpoint: Option<string>, now: Time)
      modifies this`sources
      ensures State() == SourceProcessed(old(State()), k, checkpoint, now)
    {
      EnsureSource(k, now);
      sources := sources[k := sources[k].(status := Processed, lastError := None, processedAt := Some(now),
                                          checkpoint := checkpoint, updatedAt := now)];
    }

    method MarkSourceEnded(k: SourceKey, status: Progress, reason: string, now: Time)
      modifies this`sources
      ensures State() == SourceEnded(old(State()), k, status, reason, now)
    {
      EnsureSource(k, now);
      sources := sources[k := sources[k].(status := status, lastError := Some(reason), updatedAt := now)];
    }

    /** Not found is the error the program raises when it reads the updated row back. */
    method MarkWindowEnded(id: string, status: Progress, reason: Option<string>, now: Time) returns (found: bool)
      modifies this`windows
      ensures found == (id in old(windows))
      ensures State() == if found then WindowEnded(old(State()), id, status, reason, now) else old(State())
    {
      found := id in windows;
      if found {
        windows := windows[id := windows[id].(status := status, closedAt := Some(now), lastError := reason)];
      }
    }

    method FinishRun(id: string, status: RunStatus, outputs: seq<SourceRef>, error: Option<string>, now: Time) returns (found: bool)
      modifies this`runs
      ensures found == (id in old(runs))
      ensures State() == if found then RunEnded(old(State()), id, status, outputs, error, now) else old(State())
    {
      found := id in runs;
      if found {
        runs := runs[id := RunRow(status, Some(now), outputs, error)];
      }
    }
  }
}
