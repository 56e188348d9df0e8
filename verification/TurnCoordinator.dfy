/** The coordinator itself: the fields it keeps and the methods that update them in place, each
    proved to take the step that the turn model prescribes. */
module TurnCoordinator {
  import opened Wrappers
  import opened Text
  import opened TurnStream
  import opened TurnModel
  import TurnTools
  import TR = TurnRuns
  import TS = TurnSafety
  import TP = ToolPolicy

  /** The value of a saturating counter that has counted `n`. */
  function Saturated(n: nat): nat {
    Min(n, USIZE_MAX)
  }

  ghost function DeltaCount(items: seq<StreamItem>): nat {
    if items == [] then 0 else DeltaCount(items[..|items| - 1]) + if items[|items| - 1].IsDelta() then 1 else 0
  }

  ghost function TotalDeltaBytes(items: seq<StreamItem>): nat {
    if items == [] then 0 else TotalDeltaBytes(items[..|items| - 1]) + items[|items| - 1].DeltaBytes()
  }

  datatype RetentionMetrics = RetentionMetrics(
    rawStreamItems: nat,
    rawDeltaItems: nat,
    retainedStreamItems: nat,
    coalescedDeltaItems: nat,
    droppedStreamItems: nat,
    retainedDeltaBytes: nat,
    queuedDeltaBytes: nat)

  /** What the counters must read after a run: nothing is dropped, every accepted item is retained
      as an entry or was merged into one, and the queued bytes are those of the queue. */
  ghost predicate MetricsAgree(m: RetentionMetrics, queue: Queue, log: Log) {
    var delivered := |log.drained| + |queue|;
    && m.rawStreamItems == Saturated(|log.enqueued|)
    && m.rawDeltaItems == Saturated(DeltaCount(log.enqueued))
    && m.retainedStreamItems == Saturated(delivered)
    && delivered <= |log.enqueued| && m.coalescedDeltaItems == Saturated(|log.enqueued| - delivered)
    && m.droppedStreamItems == 0
    && m.retainedDeltaBytes == Saturated(TotalDeltaBytes(log.enqueued))
    && m.queuedDeltaBytes == QueuedDeltaBytes(queue) <= USIZE_MAX
  }

  lemma CountsAppend(items: seq<StreamItem>, item: StreamItem)
    ensures DeltaCount(items + [item]) == DeltaCount(items) + if item.IsDelta() then 1 else 0
    ensures TotalDeltaBytes(items + [item]) == TotalDeltaBytes(items) + item.DeltaBytes()
  {
    assert (items + [item])[..|items|] == items;
  }

  function MetricsAfterMerge(m: RetentionMetrics, deltaBytes: nat, queuedDeltaBytes: nat): RetentionMetrics {
    m.(rawStreamItems := Saturated(m.rawStreamItems + 1),
       rawDeltaItems := Saturated(m.rawDeltaItems + 1),
       coalescedDeltaItems := Saturated(m.coalescedDeltaItems + 1),
       retainedDeltaBytes := Saturated(m.retainedDeltaBytes + deltaBytes),
       queuedDeltaBytes := queuedDeltaBytes)
  }

  function MetricsAfterPush(m: RetentionMetrics, item: StreamItem): RetentionMetrics {
    var counted := m.(rawStreamItems := Saturated(m.rawStreamItems + 1),
                      retainedStreamItems := Saturated(m.retainedStreamItems + 1));
    if !item.IsDelta() then counted
    else counted.(rawDeltaItems := Saturated(m.rawDeltaItems + 1),
                  retainedDeltaBytes := Saturated(m.retainedDeltaBytes + item.DeltaBytes()),
                  queuedDeltaBytes := Saturated(m.queuedDeltaBytes + item.DeltaBytes()))
  }

  lemma MergeAddsBytes(queue: Queue, item: StreamItem)
    requires Mergeable(queue, item)
    ensures
      var merged := MergedLast(queue, Coalesced(queue[|queue| - 1].item, item).value);
      |merged| == |queue| && QueuedDeltaBytes(merged) == QueuedDeltaBytes(queue) + item.DeltaBytes()
  {
    var n := |queue| - 1;
    var last := queue[n];
    CoalescingKeepsMeaning(last.item, item);
    QueuedBytesAppend(queue[..n], last.(item := Coalesced(last.item, item).value));
  }

  lemma MergedMetricsAgree(m: RetentionMetrics, queue: Queue, queue': Queue, log: Log, item: StreamItem)
    requires MetricsAgree(m, queue, log) && item.IsDelta()
    requires |queue'| == |queue| && QueuedDeltaBytes(queue') == QueuedDeltaBytes(queue) + item.DeltaBytes() <= USIZE_MAX
    ensures MetricsAgree(MetricsAfterMerge(m, item.DeltaBytes(), m.queuedDeltaBytes + item.DeltaBytes()), queue',
                         log.(enqueued := log.enqueued + [item]))
  {
    CountsAppend(log.enqueued, item);
  }

  lemma MergeIsTheStep(t: Turn, item: StreamItem, now: nat, queue': Queue, m: RetentionMetrics)
    requires MetricsAgree(m, t.state.queue, t.log) && item.IsDelta()
    requires AdmissionError(t.state, item).None? && Mergeable(t.state.queue, item)
    requires queue' == MergedLast(t.state.queue, Coalesced(t.state.queue[|t.state.queue| - 1].item, item).value)
    ensures DoEnqueue(t, item, now) == Turn(t.state.(queue := queue'), t.log.(enqueued := t.log.enqueued + [item]))
    ensures MetricsAgree(MetricsAfterMerge(m, item.DeltaBytes(), m.queuedDeltaBytes + item.DeltaBytes()), queue',
                         DoEnqueue(t, item, now).log)
  {
    MergeAddsBytes(t.state.queue, item);
    MergedMetricsAgree(m, t.state.queue, queue', t.log, item);
  }

  lemma PushedMetricsAgree(m: RetentionMetrics, queue: Queue, entry: SequencedItem, log: Log)
    requires MetricsAgree(m, queue, log)
    requires m.queuedDeltaBytes + entry.item.DeltaBytes() <= USIZE_MAX
    ensures MetricsAgree(MetricsAfterPush(m, entry.item), queue + [entry],
                         log.(enqueued := log.enqueued + [entry.item]))
  {
    CountsAppend(log.enqueued, entry.item);
    QueuedBytesAppend(queue, entry);
  }

  lemma PushIsTheStep(t: Turn, item: StreamItem, now: nat, m: RetentionMetrics)
    requires MetricsAgree(m, t.state.queue, t.log)
    requires AdmissionError(t.state, item).None? && !Mergeable(t.state.queue, item)
             && CapacityError(t.state, item).None?
    ensures DoEnqueue(t, item, now) == Turn(Push(t.state, item, now), t.log.(enqueued := t.log.enqueued + [item]))
    ensures MetricsAgree(MetricsAfterPush(m, item), Push(t.state, item, now).queue,
                         t.log.(enqueued := t.log.enqueued + [item]))
  {
    PushedMetricsAgree(m, t.state.queue, SequencedItem(t.state.nextSequence, item), t.log);
  }

  lemma PushSetsTerminal(s: State, item: StreamItem, now: nat)
    requires s.terminal.Some? <==> s.phase.IsTerminal()
    ensures var s' := Push(s, item, now);
            && (s'.terminal.Some? <==> s'.phase.IsTerminal())
            && s'.hostResults == s.hostResults && s'.decisions == s.decisions
  {
  }

  /** Takes items off the front of a queue, at most `limit` and none past a terminal item, and
      keeps the byte count in step. The subtraction saturates, but never needs to. */
  method PopItems(queue: Queue, limit: nat, queuedDeltaBytes: nat) returns (items: Queue, rest: Queue, bytesLeft: nat)
    requires queuedDeltaBytes == QueuedDeltaBytes(queue)
    ensures items == queue[..DrainCount(queue, limit)] && rest == queue[DrainCount(queue, limit)..]
    ensures bytesLeft == QueuedDeltaBytes(rest)
  {
    items, rest, bytesLeft := [], queue, queuedDeltaBytes;
    var n, stopped := 0, false;
    while !stopped && n < limit && rest != []
      invariant n <= limit && n <= |queue| && items == queue[..n] && rest == queue[n..]
      invariant DrainCount(queue, limit) == n + if stopped then 0 else DrainCount(rest, limit - n)
      invariant bytesLeft == QueuedDeltaBytes(rest)
      decreases |rest|
    {
      var entry := rest[0];
      QueuedBytesPop(rest);
      assert rest[1..] == queue[n + 1..];
      rest := rest[1..];
      bytesLeft := if entry.item.IsDelta() then Max(bytesLeft - entry.item.DeltaBytes(), 0) else bytesLeft;
      items := items + [entry];
      stopped := entry.item.IsTerminal();
      n := n + 1;
    }
  }

  lemma DrainIsTheStep(t: Turn, maxItems: nat, m: RetentionMetrics, n: nat, rest: Queue)
    requires MetricsAgree(m, t.state.queue, t.log)
    requires n == DrainCount(t.state.queue, Max(maxItems, 1)) && rest == t.state.queue[n..]
    ensures DoDrainStream(t, maxItems) == Turn(t.state.(queue := rest),
                                               t.log.(drained := t.log.drained + t.state.queue[..n]))
    ensures MetricsAgree(m.(queuedDeltaBytes := QueuedDeltaBytes(rest)), rest, DoDrainStream(t, maxItems).log)
  {
    QueuedBytesConcat(t.state.queue[..n], rest);
    assert t.state.queue == t.state.queue[..n] + rest;
  }

  /** A provider's item is enqueued; a refusal that is not for lack of room also fails an open turn. */
  lemma ProviderStep(t: Turn, item: StreamItem, now: nat)
    requires TR.Inv(t)
    ensures var mid, result := DoEnqueue(t, item, now), Enqueue(t.state, item, now).1;
            && DoEnqueueProvider(t, item, now) ==
               (if result.Err? && !result.error.BufferLimitExceeded? && !mid.state.phase.IsTerminal() then
                  Turn(EndTurn(mid.state, Failed, ProviderStreamEnqueueFailed, now), mid.log.(discarded := true))
                else mid)
            && EnqueueProvider(t.state, item, now).1 == result
    ensures TR.Inv(DoEnqueueProvider(t, item, now)) && TR.Follows(t, DoEnqueueProvider(t, item, now))
  {
    hide TR.Inv, TR.Follows;
    TR.StepAdvances(t, EnqueueProviderOp(item, now));
  }

  lemma CancelIsTheStep(t: Turn, reason: Reason, now: nat, m: RetentionMetrics)
    requires MetricsAgree(m, t.state.queue, t.log)
    ensures DoCancel(t, reason, now).state == TurnModel.Cancel(t.state, reason, now).0
    ensures MetricsAgree(m, t.state.queue, DoCancel(t, reason, now).log)
  {
  }

  /** The host path is the policy's record followed by the submission of its decision. */
  lemma HostPathIsDecided(t: Turn, callId: string, result: TP.HostToolResult, recorded: State,
                          decision: TP.PolicyDecision)
    requires callId !in t.state.hostResults && t.state.phase.AwaitingHostTools? && callId in t.state.pending
    requires recorded ==
      t.state.(policyHistory := t.state.policyHistory + [TP.FailureOf(t.state.pending[callId].name, result)])
    requires decision == PolicyDecision(t.state, t.state.pending[callId], result)
    ensures SubmitHostResult(t.state, callId, result) == SubmitDecided(recorded, callId, result, decision)
    ensures DoSubmitHostResult(t, callId, result).state == SubmitDecided(recorded, callId, result, decision).0
    ensures
      var log := DoSubmitHostResult(t, callId, result).log;
      log.enqueued == t.log.enqueued && log.drained == t.log.drained
  {
  }

  /** Takes request ids off the front of the queue and looks up those still pending. */
  method PopRequests(ids: seq<string>, pending: map<string, ToolRequest>, limit: nat)
    returns (requests: seq<ToolRequest>, rest: seq<string>)
    ensures requests == StillPending(ids[..Min(limit, |ids|)], pending) && rest == ids[Min(limit, |ids|)..]
  {
    requests, rest := [], ids;
    var n := 0;
    while n < limit && rest != []
      invariant n <= limit && n <= |ids| && rest == ids[n..] && requests == StillPending(ids[..n], pending)
      decreases |rest|
    {
      var callId := rest[0];
      rest := rest[1..];
      assert ids[..n + 1][..n] == ids[..n];
      if callId in pending {
        requests := requests + [pending[callId]];
      }
      n := n + 1;
    }
  }

  /** The coordinator. The ghost field `turn` is the turn of the model with its log: it starts as
      `NewTurn`, and every method advances it by the model step of the same name, so that it is
      always a run from a new turn. */
  class BufferedBrainTurnCoordinator {
    const wakeId: string
    const sessionId: string
    const limits: Limits
    var phase: Phase
    var terminal: Option<TerminalDetails>
    var nextStreamSequence: nat
    var streamItems: Queue
    var metrics: RetentionMetrics
    var pendingToolRequests: map<string, ToolRequest>
    var undeliveredToolRequestIds: seq<string>
    var submittedToolOutputs: map<string, TP.ToolOutput>
    var submittedToolDispositions: map<string, Option<TP.TurnDisposition>>
    var acceptedToolOutputs: map<string, TP.ToolOutput>
    var acceptedHostToolResults: map<string, TP.HostToolResult>
    var acceptedHostToolDecisions: map<string, TP.PolicyDecision>
    const toolFailurePolicy: TP.ToolFailurePolicy
    var providerStateOutput: Option<string>
    ghost var turn: Turn

    ghost function View(): State
      reads this, toolFailurePolicy
    {
      State(wakeId, sessionId, limits, phase, terminal, streamItems, nextStreamSequence,
            pendingToolRequests, undeliveredToolRequestIds, submittedToolOutputs, submittedToolDispositions,
            acceptedToolOutputs, acceptedHostToolResults, acceptedHostToolDecisions,
            toolFailurePolicy.history, providerStateOutput)
    }

    ghost predicate Valid()
      reads this, toolFailurePolicy
    {
      && limits.Valid()
      && toolFailurePolicy.Valid() && toolFailurePolicy.config == TP.DEFAULT_CONFIG
      && turn.state == View()
      && MetricsAgree(metrics, streamItems, turn.log)
      && acceptedHostToolDecisions.Keys == acceptedHostToolResults.Keys
      && (terminal.Some? <==> phase.IsTerminal())
      && TR.Inv(turn)
    }

    /** The turn has ended and everything it had to say has been drained. */
    ghost predicate Finished()
      reads this
    {
      phase.IsTerminal() && streamItems == []
    }

    /** Whatever was called in between, a finished turn is still finished. */
    twostate lemma StaysFinished()
      requires old(Valid()) && Valid() && TR.Follows(old(turn), turn) && old(Finished())
      ensures Finished()
    {
      TR.FinishedStays(old(turn), turn);
    }

    /** What holds of every run holds of the object: everything drained followed by everything queued is
        what was accepted, numbered without gap, the queue keeps its bounds, and the phase tells whether
        the host is awaited. */
    lemma StreamIsFaithful()
      requires Valid()
      ensures Meaning(turn.log.drained + streamItems) == ExpandAll(turn.log.enqueued)
      ensures forall i :: 0 <= i < |streamItems| ==> streamItems[i].sequence == |turn.log.drained| + i + 1
      ensures TS.FullyCoalesced(streamItems) && TS.WithinLimits(streamItems, limits)
      ensures phase.AwaitingHostTools? <==> pendingToolRequests != map[]
      ensures pendingToolRequests.Keys !! acceptedToolOutputs.Keys
    {
      var delivered := turn.log.drained + streamItems;
      assert turn.state.queue == streamItems;
      forall i | 0 <= i < |streamItems| ensures streamItems[i].sequence == |turn.log.drained| + i + 1 {
        assert delivered[|turn.log.drained| + i] == streamItems[i];
      }
    }

    constructor (wakeId: string, sessionId: string, limits: Limits)
      requires limits.Valid()
      ensures Valid() && fresh(toolFailurePolicy)
      ensures turn == NewTurn(wakeId, sessionId, limits)
    {
      TR.NewTurnInv(wakeId, sessionId, limits);
      this.wakeId, this.sessionId, this.limits := wakeId, sessionId, limits;
      phase, terminal := Created, None;
      nextStreamSequence, streamItems := 1, [];
      metrics := RetentionMetrics(0, 0, 0, 0, 0, 0, 0);
      pendingToolRequests, undeliveredToolRequestIds := map[], [];
      submittedToolOutputs, submittedToolDispositions := map[], map[];
      acceptedToolOutputs, acceptedHostToolResults, acceptedHostToolDecisions := map[], map[], map[];
      toolFailurePolicy := new TP.ToolFailurePolicy(TP.DEFAULT_CONFIG);
      providerStateOutput := None;
      turn := NewTurn(wakeId, sessionId, limits);
    }

    /** Creates a coordinator unless a limit is zero. */
    static method New(wakeId: string, sessionId: string, limits: Limits)
      returns (r: Result<BufferedBrainTurnCoordinator, TurnError>)
      ensures r.Ok? <==> limits.Valid()
      ensures r.Ok? ==> fresh(r.value) && r.value.Valid() && r.value.turn == NewTurn(wakeId, sessionId, limits)
      ensures r.Err? ==> limits.FirstZero().Some? && r.error == InvalidLimit(limits.FirstZero().value)
    {
      hide TR.Inv, TR.Follows;
      var zero := limits.FirstZero();
      if zero.Some? {
        return Err(InvalidLimit(zero.value));
      }
      var coordinator := new BufferedBrainTurnCoordinator(wakeId, sessionId, limits);
      return Ok(coordinator);
    }

    method Start() returns (result: Result<(), TurnError>)
      requires Valid()
      modifies `phase, `turn
      ensures Valid() && turn == DoStart(old(turn)) && TR.Follows(old(turn), turn)
      ensures result == TurnModel.Start(old(View())).1
    {
      hide TR.Inv, TR.Follows;
      TR.StepAdvances(turn, StartOp);
      turn := DoStart(turn);
      if !phase.Created? {
        return Err(InvalidTransition(phase, StartTurn));
      }
      phase := Running;
      return Ok(());
    }

    // ---------- the stream ----------

    method CheckAdmission(item: StreamItem) returns (error: Option<TurnError>)
      requires Valid()
      ensures error == AdmissionError(View(), item)
    {
      hide TR.Inv, TR.Follows;
      if !phase.Running? {
        return Some(InvalidTransition(phase, EnqueueItem));
      }
      if item.wakeId != wakeId {
        return Some(WakeIdentityMismatch(wakeId, item.wakeId));
      }
      if item.sessionId != sessionId {
        return Some(SessionIdentityMismatch(sessionId, item.sessionId));
      }
      if item.IsDelta() {
        var nextQueuedDeltaBytes := metrics.queuedDeltaBytes + item.DeltaBytes();
        if nextQueuedDeltaBytes > USIZE_MAX {
          return Some(BufferLimitExceeded(StreamDeltaBytes, limits.maxStreamDeltaBytes));
        }
        if nextQueuedDeltaBytes > limits.maxStreamDeltaBytes && streamItems != [] {
          return Some(BufferLimitExceeded(StreamDeltaBytes, limits.maxStreamDeltaBytes));
        }
      }
      return None;
    }

    method CheckCapacity(item: StreamItem) returns (error: Option<TurnError>)
      ensures error == CapacityError(View(), item)
    {
      if !item.IsTerminal() && |streamItems| >= limits.maxStreamItems {
        return Some(BufferLimitExceeded(StreamItems, limits.maxStreamItems));
      }
      if nextStreamSequence >= U64_MAX {
        return Some(SequenceExhausted);
      }
      return None;
    }

    method PushItem(item: StreamItem, now: nat) returns (sequence: nat)
      modifies `phase, `terminal, `nextStreamSequence, `streamItems, `metrics
      ensures View() == Push(old(View()), item, now) && sequence == old(nextStreamSequence)
      ensures metrics == MetricsAfterPush(old(metrics), item)
    {
      sequence := nextStreamSequence;
      nextStreamSequence := nextStreamSequence + 1;
      streamItems := streamItems + [SequencedItem(sequence, item)];
      metrics := MetricsAfterPush(metrics, item);
      if item.IsTerminal() {
        phase := TerminalPhase(item);
        terminal := Some(TerminalOf(item, now));
      }
    }

    /** Merges an admitted delta into the entry at the back of the queue if they are of a kind. */
    method CoalesceAdjacentDelta(item: StreamItem, now: nat) returns (sequence: Option<nat>)
      requires Valid() && item.IsDelta() && AdmissionError(View(), item).None?
      modifies `streamItems, `metrics, `turn
      ensures Valid()
      ensures sequence.Some? <==>
              old(streamItems) != [] && SameKind(old(streamItems)[|old(streamItems)| - 1].item, item)
      ensures sequence.Some? ==>
                |streamItems| == |old(streamItems)| && sequence.value == streamItems[|streamItems| - 1].sequence
      ensures sequence.Some? ==>
        && turn == DoEnqueue(old(turn), item, now) && TR.Follows(old(turn), turn)
        && Enqueue(old(View()), item, now).1 == Ok(sequence.value)
      ensures sequence.None? ==> turn == old(turn) && streamItems == old(streamItems) && metrics == old(metrics)
    {
      hide TR.Inv, TR.Follows, MetricsAgree;
      if streamItems != [] {
        MergesIffSameKind(streamItems[|streamItems| - 1].item, item);
      }
      if !Mergeable(streamItems, item) {
        return None;
      }
      var last := streamItems[|streamItems| - 1];
      MergeIsTheStep(turn, item, now, MergedLast(streamItems, Coalesced(last.item, item).value), metrics);
      MergeIntoLast(item);
      TR.StepAdvances(turn, EnqueueOp(item, now));
      turn := DoEnqueue(turn, item, now);
      return Some(last.sequence);
    }

    method MergeIntoLast(item: StreamItem)
      requires Mergeable(streamItems, item)
      modifies `streamItems, `metrics
      ensures var last := old(streamItems)[|old(streamItems)| - 1];
              streamItems == MergedLast(old(streamItems), Coalesced(last.item, item).value)
      ensures View() == old(View()).(queue := streamItems)
      ensures metrics == MetricsAfterMerge(old(metrics), item.DeltaBytes(),
                                           old(metrics).queuedDeltaBytes + item.DeltaBytes())
    {
      var n := |streamItems| - 1;
      var last := streamItems[n];
      streamItems := streamItems[..n] + [last.(item := Coalesced(last.item, item).value)];
      metrics := MetricsAfterMerge(metrics, item.DeltaBytes(), metrics.queuedDeltaBytes + item.DeltaBytes());
    }

    /** Gives an admitted item that cannot be merged and for which there is room its own entry. */
    method AppendItem(item: StreamItem, now: nat) returns (result: Result<nat, TurnError>)
      requires Valid() && AdmissionError(View(), item).None? && !Mergeable(streamItems, item)
      requires CapacityError(View(), item).None?
      modifies `phase, `terminal, `nextStreamSequence, `streamItems, `metrics, `turn
      ensures Valid() && turn == DoEnqueue(old(turn), item, now) && TR.Follows(old(turn), turn)
      ensures result == Enqueue(old(View()), item, now).1
    {
      hide TR.Inv, TR.Follows, MetricsAgree, MetricsAfterPush;
      TR.StepAdvances(turn, EnqueueOp(item, now));
      PushIsTheStep(turn, item, now, metrics);
      PushSetsTerminal(View(), item, now);
      ghost var pushed := Turn(Push(View(), item, now), turn.log.(enqueued := turn.log.enqueued + [item]));
      assert DoEnqueue(turn, item, now) == pushed;
      var sequence := PushItem(item, now);
      turn := pushed;
      return Ok(sequence);
    }

    method EnqueueStreamItem(item: StreamItem, now: nat) returns (result: Result<nat, TurnError>)
      requires Valid()
      modifies `phase, `terminal, `nextStreamSequence, `streamItems, `metrics, `turn
      ensures Valid() && turn == DoEnqueue(old(turn), item, now) && TR.Follows(old(turn), turn)
      ensures result == Enqueue(old(View()), item, now).1
    {
      hide TR.Inv, TR.Follows, AdmissionError, CapacityError, Push;
      var refusal := CheckAdmission(item);
      if refusal.Some? {
        TR.StepAdvances(turn, EnqueueOp(item, now));
        turn := DoEnqueue(turn, item, now);
        return Err(refusal.value);
      }
      if item.IsDelta() {
        var merged := CoalesceAdjacentDelta(item, now);
        if merged.Some? {
          return Ok(merged.value);
        }
      }
      refusal := CheckCapacity(item);
      if refusal.Some? {
        TR.StepAdvances(turn, EnqueueOp(item, now));
        turn := DoEnqueue(turn, item, now);
        return Err(refusal.value);
      }
      result := AppendItem(item, now);
    }

    method DrainStream(maxItems: nat) returns (drain: Drain)
      requires Valid()
      modifies `streamItems, `metrics, `turn
      ensures Valid() && turn == DoDrainStream(old(turn), maxItems) && TR.Follows(old(turn), turn)
      ensures drain == TurnModel.DrainStream(old(View()), maxItems).1
      ensures drain.terminal <==> Finished()
      ensures old(Finished()) ==> drain.items == [] && drain.terminal
    {
      hide TR.Inv, TR.Follows;
      var items, rest, queuedDeltaBytes := PopItems(streamItems, Max(maxItems, 1), metrics.queuedDeltaBytes);
      DrainIsTheStep(turn, maxItems, metrics, DrainCount(streamItems, Max(maxItems, 1)), rest);
      streamItems := rest;
      metrics := metrics.(queuedDeltaBytes := queuedDeltaBytes);
      TR.DrainStreamAdvances(turn, maxItems);
      turn := DoDrainStream(turn, maxItems);
      drain := Drain(wakeId, phase, items, |streamItems|, phase.IsTerminal() && streamItems == []);
    }

    // ---------- tool requests and outputs ----------

    method TakeSubmittedToolOutput(callId: string) returns (output: Option<TP.ToolOutput>)
      requires Valid()
      modifies `submittedToolOutputs, `turn
      ensures Valid() && turn == DoTakeOutput(old(turn), callId) && TR.Follows(old(turn), turn)
      ensures output == TakeOutput(old(View()), callId).1
    {
      hide TR.Inv, TR.Follows;
      TR.StepAdvances(turn, TakeOutputOp(callId));
      turn := DoTakeOutput(turn, callId);
      if callId !in submittedToolOutputs {
        return None;
      }
      output := Some(submittedToolOutputs[callId]);
      submittedToolOutputs := submittedToolOutputs - {callId};
    }

    method QueueToolRequest(request: ToolRequest) returns (result: Result<(), TurnError>)
      requires Valid()
      modifies `phase, `pendingToolRequests, `undeliveredToolRequestIds, `turn
      ensures Valid() && turn == DoQueueRequest(old(turn), request) && TR.Follows(old(turn), turn)
      ensures result == QueueRequest(old(View()), request).1
    {
      hide TR.Inv, TR.Follows;
      TR.StepAdvances(turn, QueueRequestOp(request));
      turn := DoQueueRequest(turn, request);
      if !(phase.Running? || phase.AwaitingHostTools?) {
        return Err(InvalidTransition(phase, TurnModel.QueueToolRequest));
      }
      if request.callId in pendingToolRequests || request.callId in acceptedToolOutputs {
        return Err(DuplicateToolRequest(request.callId));
      }
      if |pendingToolRequests| >= limits.maxPendingToolRequests {
        return Err(BufferLimitExceeded(PendingToolRequests, limits.maxPendingToolRequests));
      }
      AddPending(request);
      return Ok(());
    }

    method AddPending(request: ToolRequest)
      modifies `phase, `pendingToolRequests, `undeliveredToolRequestIds
      ensures View() == old(View()).(pending := old(pendingToolRequests)[request.callId := request],
                                     undelivered := old(undeliveredToolRequestIds) + [request.callId],
                                     phase := AwaitingHostTools)
    {
      pendingToolRequests := pendingToolRequests[request.callId := request];
      undeliveredToolRequestIds := undeliveredToolRequestIds + [request.callId];
      phase := AwaitingHostTools;
    }

    method DrainHostToolRequests(maxRequests: nat) returns (requests: seq<ToolRequest>)
      requires Valid()
      modifies `undeliveredToolRequestIds, `turn
      ensures Valid() && turn == DoDrainRequests(old(turn), maxRequests) && TR.Follows(old(turn), turn)
      ensures requests == DrainRequests(old(View()), maxRequests).1
    {
      hide TR.Inv, TR.Follows;
      var rest;
      requests, rest := PopRequests(undeliveredToolRequestIds, pendingToolRequests, Max(maxRequests, 1));
      TR.StepAdvances(turn, DrainRequestsOp(maxRequests));
      turn := DoDrainRequests(turn, maxRequests);
      undeliveredToolRequestIds := rest;
    }

    /** The submission itself, shared by the plain path and the host path. */
    method AcceptOutput(callId: string, output: TP.ToolOutput) returns (result: Result<Receipt, TurnError>)
      modifies `phase, `pendingToolRequests, `submittedToolOutputs, `acceptedToolOutputs
      ensures View() == SubmitOutput(old(View()), callId, output).0
      ensures result == SubmitOutput(old(View()), callId, output).1
    {
      if callId in acceptedToolOutputs {
        return if acceptedToolOutputs[callId] == output then Ok(Duplicate) else Err(ConflictingToolResult(callId));
      }
      if !phase.AwaitingHostTools? {
        return Err(InvalidTransition(phase, TurnModel.SubmitToolOutput));
      }
      if callId !in pendingToolRequests {
        return Err(UnknownToolRequest(callId));
      }
      var outputBytes := ByteLen(output.output);
      if outputBytes > limits.maxToolOutputBytes {
        return Err(ToolOutputTooLarge(callId, outputBytes, limits.maxToolOutputBytes));
      }
      if |submittedToolOutputs| >= limits.maxToolResults {
        return Err(BufferLimitExceeded(ToolResults, limits.maxToolResults));
      }
      pendingToolRequests := pendingToolRequests - {callId};
      submittedToolOutputs := submittedToolOutputs[callId := output];
      acceptedToolOutputs := acceptedToolOutputs[callId := output];
      if pendingToolRequests == map[] {
        phase := Running;
      }
      return Ok(Accepted);
    }

    method SubmitToolOutput(callId: string, output: TP.ToolOutput) returns (result: Result<Receipt, TurnError>)
      requires Valid()
      modifies `phase, `pendingToolRequests, `submittedToolOutputs, `acceptedToolOutputs, `turn
      ensures Valid() && turn == DoSubmitOutput(old(turn), callId, output) && TR.Follows(old(turn), turn)
      ensures result == SubmitOutput(old(View()), callId, output).1
    {
      hide TR.Inv, TR.Follows;
      TurnTools.SubmitOutputShape(turn.state, callId, output);
      TR.SubmitOutputAdvances(turn, callId, output);
      turn := DoSubmitOutput(turn, callId, output);
      result := AcceptOutput(callId, output);
    }

    method SubmitHostToolResult(callId: string, hostResult: TP.HostToolResult)
      returns (result: Result<HostSubmission, TurnError>)
      requires Valid()
      modifies this, toolFailurePolicy
      ensures Valid() && turn == DoSubmitHostResult(old(turn), callId, hostResult) && TR.Follows(old(turn), turn)
      ensures result == SubmitHostResult(old(View()), callId, hostResult).1
      ensures result.Err? ==> !result.error.ToolOutputTooLarge? && !result.error.MissingDecision?
    {
      hide TR.Inv, TR.Follows;
      TR.HostSubmissionIsOrderly(turn, callId, hostResult);
      if callId in acceptedHostToolResults {
        TR.SubmitHostResultAdvances(turn, callId, hostResult);
        turn := DoSubmitHostResult(turn, callId, hostResult);
        return if acceptedHostToolResults[callId] == hostResult
               then Ok(HostSubmission(Duplicate, acceptedHostToolDecisions[callId]))
               else Err(ConflictingToolResult(callId));
      }
      if !phase.AwaitingHostTools? {
        TR.SubmitHostResultAdvances(turn, callId, hostResult);
        turn := DoSubmitHostResult(turn, callId, hostResult);
        return Err(InvalidTransition(phase, TurnModel.SubmitHostToolResult));
      }
      if callId !in pendingToolRequests {
        TR.SubmitHostResultAdvances(turn, callId, hostResult);
        turn := DoSubmitHostResult(turn, callId, hostResult);
        return Err(UnknownToolRequest(callId));
      }
      result := DecideAndSubmit(callId, hostResult);
    }

    /** Submits what the policy decided and keeps result, disposition and decision beside it. */
    method SubmitDecidedOutput(callId: string, hostResult: TP.HostToolResult, decision: TP.PolicyDecision)
      returns (result: Result<HostSubmission, TurnError>)
      requires acceptedHostToolDecisions.Keys == acceptedHostToolResults.Keys
      modifies `phase, `pendingToolRequests, `submittedToolOutputs, `acceptedToolOutputs,
               `submittedToolDispositions, `acceptedHostToolResults, `acceptedHostToolDecisions
      ensures View() == SubmitDecided(old(View()), callId, hostResult, decision).0
      ensures result == SubmitDecided(old(View()), callId, hostResult, decision).1
      ensures acceptedHostToolDecisions.Keys == acceptedHostToolResults.Keys
      ensures phase.IsTerminal() <==> old(phase).IsTerminal()
    {
      var receipt := AcceptOutput(callId, decision.providerOutput);
      if receipt.Err? {
        return Err(receipt.error);
      }
      KeepDecision(callId, hostResult, decision);
      return Ok(HostSubmission(Accepted, decision));
    }

    method KeepDecision(callId: string, hostResult: TP.HostToolResult, decision: TP.PolicyDecision)
      modifies `submittedToolDispositions, `acceptedHostToolResults, `acceptedHostToolDecisions
      ensures View() ==
              old(View()).(dispositions := old(submittedToolDispositions)[callId := hostResult.turnDisposition],
                           hostResults := old(acceptedHostToolResults)[callId := hostResult],
                           decisions := old(acceptedHostToolDecisions)[callId := decision])
    {
      submittedToolDispositions := submittedToolDispositions[callId := hostResult.turnDisposition];
      acceptedHostToolResults := acceptedHostToolResults[callId := hostResult];
      acceptedHostToolDecisions := acceptedHostToolDecisions[callId := decision];
    }

    method DecideAndSubmit(callId: string, hostResult: TP.HostToolResult)
      returns (result: Result<HostSubmission, TurnError>)
      requires Valid()
      requires callId !in acceptedHostToolResults && phase.AwaitingHostTools? && callId in pendingToolRequests
      modifies this, toolFailurePolicy
      ensures Valid() && turn == DoSubmitHostResult(old(turn), callId, hostResult) && TR.Follows(old(turn), turn)
      ensures result == SubmitHostResult(old(View()), callId, hostResult).1
    {
      hide TR.Inv, TR.Follows, TP.DecisionTells, SubmitDecided, SubmitHostResult, DoSubmitHostResult;
      var request := pendingToolRequests[callId];
      var decision := toolFailurePolicy.RecordResult(request.name, hostResult, limits.maxToolOutputBytes);
      HostPathIsDecided(old(turn), callId, hostResult, View(), decision);
      result := SubmitDecidedOutput(callId, hostResult, decision);
      TR.SubmitHostResultAdvances(turn, callId, hostResult);
      turn := DoSubmitHostResult(turn, callId, hostResult);
    }

    method PollSubmittedHostToolOutput(callId: string) returns (output: Option<HostOutput>)
      requires Valid()
      modifies `submittedToolOutputs, `submittedToolDispositions, `turn
      ensures Valid() && turn == DoPollHostOutput(old(turn), callId) && TR.Follows(old(turn), turn)
      ensures output == PollHostOutput(old(View()), callId).1
    {
      hide TR.Inv, TR.Follows;
      TR.StepAdvances(turn, PollHostOutputOp(callId));
      turn := DoPollHostOutput(turn, callId);
      if callId !in submittedToolOutputs {
        return None;
      }
      var taken := submittedToolOutputs[callId];
      submittedToolOutputs := submittedToolOutputs - {callId};
      var disposition := if callId in submittedToolDispositions then submittedToolDispositions[callId] else None;
      submittedToolDispositions := submittedToolDispositions - {callId};
      return Some(HostOutput(taken, disposition));
    }

    // ---------- phases ----------

    method SetProviderStateOutput(output: string) returns (result: Result<(), TurnError>)
      requires Valid()
      modifies `providerStateOutput, `turn
      ensures Valid() && turn == DoSetProviderState(old(turn), output) && TR.Follows(old(turn), turn)
      ensures result == SetProviderState(old(View()), output).1
    {
      hide TR.Inv, TR.Follows;
      TR.StepAdvances(turn, SetProviderStateOp(output));
      turn := DoSetProviderState(turn, output);
      if phase.Created? || phase.Cancelled? {
        return Err(InvalidTransition(phase, TurnModel.SetProviderStateOutput));
      }
      providerStateOutput := Some(output);
      return Ok(());
    }

    method YieldTurn(now: nat) returns (result: Result<(), TurnError>)
      requires Valid()
      modifies `phase, `terminal, `turn
      ensures Valid() && turn == DoYield(old(turn), now) && TR.Follows(old(turn), turn)
      ensures result == TurnModel.YieldTurn(old(View()), now).1
    {
      hide TR.Inv, TR.Follows;
      TR.StepAdvances(turn, YieldOp(now));
      turn := DoYield(turn, now);
      if !phase.Running? {
        return Err(InvalidTransition(phase, YieldEpoch));
      }
      phase := Yielded;
      terminal := Some(TerminalDetails(WorkQuantumReached, now));
      return Ok(());
    }

    method RequireAttention(reason: Reason, now: nat) returns (result: Result<(), TurnError>)
      requires Valid()
      modifies `phase, `terminal, `turn
      ensures Valid() && turn == DoRequireAttention(old(turn), reason, now) && TR.Follows(old(turn), turn)
      ensures result == TurnModel.RequireAttention(old(View()), reason, now).1
    {
      hide TR.Inv, TR.Follows;
      TR.StepAdvances(turn, RequireAttentionOp(reason, now));
      turn := DoRequireAttention(turn, reason, now);
      if !phase.Running? {
        return Err(InvalidTransition(phase, RequireOperatorAttention));
      }
      phase := AttentionRequired;
      terminal := Some(TerminalDetails(reason, now));
      return Ok(());
    }

    method TransitionTerminal(ending: Phase, reason: Reason, now: nat)
      requires ending.IsTerminal()
      modifies `phase, `terminal, `pendingToolRequests, `undeliveredToolRequestIds,
               `submittedToolOutputs, `submittedToolDispositions
      ensures View() == EndTurn(old(View()), ending, reason, now)
      ensures phase == ending && terminal.Some?
    {
      phase := ending;
      pendingToolRequests := map[];
      undeliveredToolRequestIds := [];
      submittedToolOutputs := map[];
      submittedToolDispositions := map[];
      terminal := Some(TerminalDetails(reason, now));
    }

    method Fail(reason: Reason, now: nat) returns (result: Result<(), TurnError>)
      requires Valid()
      modifies `phase, `terminal, `pendingToolRequests, `undeliveredToolRequestIds,
               `submittedToolOutputs, `submittedToolDispositions, `turn
      ensures Valid() && turn == DoFail(old(turn), reason, now) && TR.Follows(old(turn), turn)
      ensures result == TurnModel.Fail(old(View()), reason, now).1
    {
      hide TR.Inv, TR.Follows, EndTurn;
      TR.StepAdvances(turn, FailOp(reason, now));
      turn := DoFail(turn, reason, now);
      if phase.IsTerminal() {
        return Err(InvalidTransition(phase, FailTurn));
      }
      TransitionTerminal(Failed, reason, now);
      return Ok(());
    }

    method Cancel(reason: Reason, now: nat) returns (result: Result<(), TurnError>)
      requires Valid()
      modifies `phase, `terminal, `pendingToolRequests, `undeliveredToolRequestIds,
               `submittedToolOutputs, `submittedToolDispositions, `turn
      ensures Valid() && turn == DoCancel(old(turn), reason, now) && TR.Follows(old(turn), turn)
      ensures result == TurnModel.Cancel(old(View()), reason, now).1
    {
      hide TR.Inv, TR.Follows, EndTurn, DoCancel;
      TR.StepAdvances(turn, CancelOp(reason, now));
      CancelIsTheStep(turn, reason, now, metrics);
      turn := DoCancel(turn, reason, now);
      if phase.Cancelled? {
        return Ok(());
      }
      if phase.IsTerminal() && !phase.AttentionRequired? {
        return Err(InvalidTransition(phase, CancelTurn));
      }
      TransitionTerminal(Cancelled, reason, now);
      return Ok(());
    }

    method EnqueueProviderStreamItem(item: StreamItem, now: nat) returns (result: Result<nat, TurnError>)
      requires Valid()
      modifies this
      ensures Valid() && turn == DoEnqueueProvider(old(turn), item, now) && TR.Follows(old(turn), turn)
      ensures result == EnqueueProvider(old(View()), item, now).1
    {
      hide TR.Inv, TR.Follows, EndTurn, Enqueue, EnqueueProvider, DoEnqueue, DoEnqueueProvider;
      result := EnqueueStreamItem(item, now);
      if result.Err? && !result.error.BufferLimitExceeded? && !phase.IsTerminal() {
        TransitionTerminal(Failed, ProviderStreamEnqueueFailed, now);
      }
      ProviderStep(old(turn), item, now);
      turn := DoEnqueueProvider(old(turn), item, now);
    }

    /** A cancelled turn always has the details to report. */
    method Cancellation() returns (details: Option<TerminalDetails>)
      requires Valid()
      ensures details.Some? <==> phase.Cancelled?
      ensures details.Some? ==> details == terminal
    {
      hide TR.Inv, TR.Follows;
      if !phase.Cancelled? {
        return None;
      }
      return Some(terminal.value);
    }
  }
}
