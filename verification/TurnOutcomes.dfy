/** What each operation on a buffered brain turn answers, and what it changes, in terms of what an
    observer of the turn has seen. */
module TurnOutcomes {
  import opened Wrappers
  import opened Text
  import opened TurnStream
  import opened TurnModel
  import opened TurnSafety
  import opened TurnTools
  import opened TurnRuns
  import TP = ToolPolicy

  // ---------- stream items ----------

  /** All delta text waiting in a queue. */
  ghost function DeltaText(queue: Queue): string {
    if queue == [] then ""
    else
      var last := queue[|queue| - 1].item;
      DeltaText(queue[..|queue| - 1]) + if last.IsDelta() then last.event.text else ""
  }

  lemma {:induction false} QueuedBytesAreTheText(queue: Queue)
    ensures QueuedDeltaBytes(queue) == ByteLen(DeltaText(queue))
  {
    if queue != [] {
      var before, last := queue[..|queue| - 1], queue[|queue| - 1].item;
      QueuedBytesAreTheText(before);
      ByteLenConcat(DeltaText(before), if last.IsDelta() then last.event.text else "");
    }
  }

  /** The delta goes behind one of its own kind. */
  predicate Joins(queue: Queue, item: StreamItem) {
    queue != [] && SameKind(queue[|queue| - 1].item, item)
  }

  /** The waiting text and the delta's own stay within the byte limit, or nothing is waiting. */
  ghost predicate TextFits(s: State, item: StreamItem)
    requires item.IsDelta()
  {
    var bytes := ByteLen(DeltaText(s.queue) + item.event.text);
    bytes <= USIZE_MAX && (bytes <= s.limits.maxStreamDeltaBytes || s.queue == [])
  }

  /** There is room for one entry more, which an ending always has, and a number for it. */
  predicate EntryFits(s: State, item: StreamItem) {
    (item.IsTerminal() || |s.queue| < s.limits.maxStreamItems) && s.nextSequence < U64_MAX
  }

  predicate OfThisTurn(s: State, item: StreamItem) {
    item.wakeId == s.wakeId && item.sessionId == s.sessionId
  }

  lemma WaitsIff(s: State, item: StreamItem)
    ensures DeltaMustWait(s, item) <==> item.IsDelta() && !TextFits(s, item)
  {
    QueuedBytesAreTheText(s.queue);
    if item.IsDelta() {
      ByteLenConcat(DeltaText(s.queue), item.event.text);
    }
  }

  /** An item is accepted exactly when the turn is running, the item is of this turn, its text fits, and it
      joins a delta of its kind or fits as an entry of its own. */
  lemma ItemIsAcceptedIff(s: State, item: StreamItem, now: nat)
    ensures Enqueue(s, item, now).1.Ok? <==>
            && s.phase.Running? && OfThisTurn(s, item)
            && (item.IsDelta() ==> TextFits(s, item))
            && (Joins(s.queue, item) || EntryFits(s, item))
  {
    WaitsIff(s, item);
    if s.queue != [] {
      MergesIffSameKind(s.queue[|s.queue| - 1].item, item);
    }
  }

  /** A refused item changes nothing, and the error names the first thing wrong with it. */
  lemma ItemRefusalIsTrue(s: State, item: StreamItem, now: nat)
    requires Enqueue(s, item, now).1.Err?
    ensures Enqueue(s, item, now).0 == s
    ensures match Enqueue(s, item, now).1.error
            case InvalidTransition(phase, operation) => phase == s.phase != Running && operation == EnqueueItem
            case WakeIdentityMismatch(expected, found) =>
              s.phase.Running? && expected == s.wakeId != found == item.wakeId
            case SessionIdentityMismatch(expected, found) =>
              s.phase.Running? && item.wakeId == s.wakeId && expected == s.sessionId != found == item.sessionId
            case BufferLimitExceeded(buffer, limit) =>
              && s.phase.Running? && OfThisTurn(s, item)
              && (if item.IsDelta() && !TextFits(s, item) then
                    buffer == StreamDeltaBytes && limit == s.limits.maxStreamDeltaBytes
                  else
                    && buffer == StreamItems && limit == s.limits.maxStreamItems <= |s.queue|
                    && !item.IsTerminal() && !Joins(s.queue, item))
            case SequenceExhausted =>
              && s.phase.Running? && OfThisTurn(s, item) && (item.IsDelta() ==> TextFits(s, item))
              && (item.IsTerminal() || |s.queue| < s.limits.maxStreamItems)
              && s.nextSequence >= U64_MAX && !Joins(s.queue, item)
            case _ => false
  {
    WaitsIff(s, item);
    if s.queue != [] {
      MergesIffSameKind(s.queue[|s.queue| - 1].item, item);
    }
  }

  /** An accepted delta behind one of its kind takes no entry and no number of its own: its text goes
      behind the other's, whose number is returned. */
  lemma JoiningDeltaExtendsTheLast(s: State, item: StreamItem, now: nat)
    requires Enqueue(s, item, now).1.Ok? && Joins(s.queue, item)
    ensures var (s', result) := Enqueue(s, item, now);
            var n := |s.queue| - 1;
            && s' == s.(queue := s'.queue) && |s'.queue| == |s.queue| && s'.queue[..n] == s.queue[..n]
            && result.value == s.queue[n].sequence == s'.queue[n].sequence
            && SameKind(s'.queue[n].item, s.queue[n].item)
            && s'.queue[n].item.wakeId == s.queue[n].item.wakeId
            && s'.queue[n].item.sessionId == s.queue[n].item.sessionId
            && s'.queue[n].item.event.text == s.queue[n].item.event.text + item.event.text
  {
    MergesIffSameKind(s.queue[|s.queue| - 1].item, item);
  }

  /** The ending a terminal item brings: a batch of actions completes the turn; a failed wake fails it
      with the failure's own code, or else its kind's, and its message. */
  ghost predicate EndsWith(item: StreamItem, now: nat, phase: Phase, terminal: Option<TerminalDetails>) {
    && terminal.Some? && terminal.value.occurredAt == now
    && (item.Actions? ==> phase.Completed? && terminal.value.reason == TurnCompleted)
    && (item.WakeFailed? ==>
          phase.Failed? && terminal.value.reason.Given? && terminal.value.reason.summary == item.message)
    && (item.WakeFailed? && item.reasonCode.Some? ==> terminal.value.reason.code == item.reasonCode.value)
    && (item.WakeFailed? && item.reasonCode.None? ==> terminal.value.reason.code == item.kindReason)
  }

  /** Any other accepted item gets the next number and goes to the end of the queue, and a terminal one
      ends the turn. */
  lemma OtherItemIsAppended(s: State, item: StreamItem, now: nat)
    requires Enqueue(s, item, now).1.Ok? && !Joins(s.queue, item)
    ensures var (s', result) := Enqueue(s, item, now);
            && s' == s.(queue := s'.queue, nextSequence := s'.nextSequence, phase := s'.phase, terminal := s'.terminal)
            && s'.queue == s.queue + [SequencedItem(s.nextSequence, item)]
            && result.value == s.nextSequence == s'.nextSequence - 1
            && (if item.IsTerminal() then EndsWith(item, now, s'.phase, s'.terminal)
                else s'.phase == s.phase && s'.terminal == s.terminal)
  {
    if s.queue != [] {
      MergesIffSameKind(s.queue[|s.queue| - 1].item, item);
    }
  }

  /** Nothing is waiting any more; what was accepted and what is queued for the reader stays. */
  ghost predicate OnlyEnded(s: State, s': State, phase: Phase, reason: Reason, now: nat) {
    && s'.phase == phase && s'.terminal == Some(TerminalDetails(reason, now))
    && s'.pending == map[] && s'.undelivered == [] && s'.submitted == map[] && s'.dispositions == map[]
    && s' == s.(phase := s'.phase, terminal := s'.terminal, pending := s'.pending, undelivered := s'.undelivered,
                submitted := s'.submitted, dispositions := s'.dispositions)
  }

  /** On the provider's path an item gets the same answer, and a refusal other than for lack of room fails
      a turn that has not ended. */
  lemma ProviderRefusalFailsTheTurn(s: State, item: StreamItem, now: nat)
    ensures var result := Enqueue(s, item, now).1;
            var (s', result') := EnqueueProvider(s, item, now);
            && result' == result
            && (if result.Err? && !result.error.BufferLimitExceeded? && !s.phase.IsTerminal() then
                  OnlyEnded(s, s', Failed, ProviderStreamEnqueueFailed, now)
                else s' == Enqueue(s, item, now).0)
  {
    if Enqueue(s, item, now).1.Err? {
      ItemRefusalIsTrue(s, item, now);
    }
  }

  /** A drain reports what it leaves behind, and the end exactly when the turn has ended and nothing is
      left. */
  lemma DrainReports(s: State, maxItems: nat)
    ensures var (s', drain) := DrainStream(s, maxItems);
            && drain.items + s'.queue == s.queue && s' == s.(queue := s'.queue)
            && (s.queue != [] ==> drain.items != []) && |drain.items| <= Max(maxItems, 1)
            && drain.remaining == |s'.queue| && drain.phase == s.phase && drain.wakeId == s.wakeId
            && (drain.terminal <==> s.phase.IsTerminal() && s'.queue == [])
  {
  }

  // ---------- phases ----------

  /** The phases an operation is allowed in, and the phase it leads to. */
  ghost function AllowedIn(op: Op): set<Phase>
    requires op.StartOp? || op.YieldOp? || op.RequireAttentionOp? || op.FailOp? || op.CancelOp?
  {
    match op
    case StartOp => {Created}
    case YieldOp(_) => {Running}
    case RequireAttentionOp(_, _) => {Running}
    case FailOp(_, _) => {Created, Running, AwaitingHostTools}
    case CancelOp(_, _) => {Created, Running, AwaitingHostTools, AttentionRequired}
  }

  /** Starting, yielding and asking for attention change the phase alone, exactly where they are
      allowed. */
  lemma PhaseChangesObeyTheTable(s: State, reason: Reason, now: nat)
    ensures var (s', result) := Start(s);
            && (result.Ok? <==> s.phase in AllowedIn(StartOp))
            && s' == (if result.Ok? then s.(phase := Running) else s)
            && (result.Err? ==> result.error == InvalidTransition(s.phase, StartTurn))
    ensures var (s', result) := YieldTurn(s, now);
            && (result.Ok? <==> s.phase in AllowedIn(YieldOp(now)))
            && (result.Ok? ==> s'.phase.Yielded? && s'.terminal == Some(TerminalDetails(WorkQuantumReached, now)))
            && s' == (if result.Ok? then s.(phase := s'.phase, terminal := s'.terminal) else s)
            && (result.Err? ==> result.error == InvalidTransition(s.phase, YieldEpoch))
    ensures var (s', result) := RequireAttention(s, reason, now);
            && (result.Ok? <==> s.phase in AllowedIn(RequireAttentionOp(reason, now)))
            && (result.Ok? ==> s'.phase.AttentionRequired? && s'.terminal == Some(TerminalDetails(reason, now)))
            && s' == (if result.Ok? then s.(phase := s'.phase, terminal := s'.terminal) else s)
            && (result.Err? ==> result.error == InvalidTransition(s.phase, RequireOperatorAttention))
  {
  }

  /** Failing and cancelling end a turn that has not ended, cancelling also one that waits for an operator;
      cancelling again is no error and changes nothing. */
  lemma EndingsObeyTheTable(s: State, reason: Reason, now: nat)
    ensures var (s', result) := Fail(s, reason, now);
            && (result.Ok? <==> s.phase in AllowedIn(FailOp(reason, now)))
            && (if result.Ok? then OnlyEnded(s, s', Failed, reason, now) else s' == s)
            && (result.Err? ==> result.error == InvalidTransition(s.phase, FailTurn))
    ensures var (s', result) := Cancel(s, reason, now);
            && (result.Ok? <==> s.phase in AllowedIn(CancelOp(reason, now)) || s.phase.Cancelled?)
            && (if s.phase in AllowedIn(CancelOp(reason, now)) then OnlyEnded(s, s', Cancelled, reason, now)
                else s' == s)
            && (result.Err? ==> result.error == InvalidTransition(s.phase, CancelTurn))
  {
  }

  /** The provider's state is kept except before the start and after a cancellation. */
  lemma ProviderStateIsKept(s: State, output: string)
    ensures var (s', result) := SetProviderState(s, output);
            && (result.Ok? <==> s.phase !in {Created, Cancelled})
            && s' == s.(providerState := s'.providerState)
            && s'.providerState == (if result.Ok? then Some(output) else s.providerState)
            && (result.Err? ==> result.error == InvalidTransition(s.phase, SetProviderStateOutput))
  {
  }

  // ---------- tool requests ----------

  /** In an open turn, pending and answered calls are together all calls ever requested. */
  lemma RequestedBefore(t: Turn, callId: string)
    requires ToolInv(t) && (t.state.phase.Running? || t.state.phase.AwaitingHostTools?)
    ensures callId in CallIds(t.log.requested) <==> callId in t.state.pending || callId in t.state.accepted
  {
    if callId in t.state.pending {
      var i :| 0 <= i < |t.log.requested| && t.log.requested[i] == t.state.pending[callId];
      assert t.log.requested[i].callId == callId;
    }
  }

  /** A request is accepted exactly when the turn is open, its call was never requested before and there
      is room; it is then the last in line for the host.  A refusal changes nothing and names its reason. */
  lemma RequestIsAcceptedIff(t: Turn, request: ToolRequest)
    requires Inv(t)
    ensures var (s', result) := QueueRequest(t.state, request);
            var isOpen := t.state.phase.Running? || t.state.phase.AwaitingHostTools?;
            var isNew := request.callId !in CallIds(t.log.requested);
            var fits := |t.state.pending| < t.state.limits.maxPendingToolRequests;
            && (result.Ok? <==> isOpen && isNew && fits)
            && (result.Ok? ==>
                  && s'.phase.AwaitingHostTools? && s'.pending == t.state.pending[request.callId := request]
                  && s'.undelivered == t.state.undelivered + [request.callId]
                  && s' == t.state.(phase := s'.phase, pending := s'.pending, undelivered := s'.undelivered))
            && (result.Err? ==>
                  && s' == t.state
                  && match result.error
                     case InvalidTransition(phase, operation) =>
                       phase == t.state.phase && operation == QueueToolRequest && !isOpen
                     case DuplicateToolRequest(callId) => callId == request.callId && isOpen && !isNew
                     case BufferLimitExceeded(buffer, limit) =>
                       buffer == PendingToolRequests && limit == t.state.limits.maxPendingToolRequests && isNew && !fits
                     case _ => false)
  {
    if t.state.phase.Running? || t.state.phase.AwaitingHostTools? {
      RequestedBefore(t, request.callId);
    }
  }

  /** A hand-out takes as many ids off the front as asked for, at least one, and yields those requests among
      them that still wait for a result. */
  lemma HandOutTakesTheOldest(s: State, maxRequests: nat)
    ensures var (s', requests) := DrainRequests(s, maxRequests);
            var n := Min(Max(maxRequests, 1), |s.undelivered|);
            && s' == s.(undelivered := s'.undelivered) && s.undelivered == s.undelivered[..n] + s'.undelivered
            && (forall i :: 0 <= i < n && s.undelivered[i] in s.pending ==> s.pending[s.undelivered[i]] in requests)
  {
    var n := Min(Max(maxRequests, 1), |s.undelivered|);
    var ids := s.undelivered[..n];
    forall i | 0 <= i < n && s.undelivered[i] in s.pending
      ensures s.pending[s.undelivered[i]] in DrainRequests(s, maxRequests).1
    {
      assert ids[i] == s.undelivered[i];
      StillPendingAll(ids, s.pending, i);
    }
  }

  lemma AllGivenOut(pending: Pending, undelivered: seq<string>, requested: seq<ToolRequest>,
                    handedOut: seq<ToolRequest>, accepted: set<string>, callId: string)
    requires RequestInv(pending, accepted, requested, false) && callId in pending
    requires HandOutInv(undelivered, requested, handedOut, accepted, false)
    ensures pending[callId] in handedOut + StillPending(undelivered, pending)
  {
    hide Subsequence, StillPending;
    HandOutDrains(pending, undelivered, requested, handedOut, accepted, false, |undelivered|);
    assert undelivered[..|undelivered|] == undelivered && requested[..|requested|] == requested;
    var i :| 0 <= i < |requested| && requested[i] == pending[callId];
    assert requested[i].callId !in accepted;
  }

  /** One large enough hand-out leaves no pending request that the host has not been given. */
  lemma HandOutReachesAll(t: Turn, maxRequests: nat, callId: string)
    requires Inv(t) && maxRequests >= |t.state.undelivered| && callId in t.state.pending
    ensures t.state.pending[callId] in DoDrainRequests(t, maxRequests).log.handedOut
  {
    hide RequestInv, HandOutInv, OutputSide, StreamInv, StillPending;
    AllGivenOut(t.state.pending, t.state.undelivered, t.log.requested, t.log.handedOut, t.state.accepted.Keys, callId);
    assert t.state.undelivered[..|t.state.undelivered|] == t.state.undelivered;
  }

  // ---------- tool outputs ----------

  /** In a turn a run has reached, the host is awaited exactly while a call is pending, and no pending call
      has been answered. */
  lemma PendingCalls(t: Turn, callId: string)
    requires Inv(t)
    ensures t.state.phase.AwaitingHostTools? <==> t.state.pending != map[]
    ensures callId in t.state.pending ==> callId !in t.state.accepted && callId !in t.state.hostResults
    ensures callId in t.state.hostResults ==> callId in t.state.decisions
  {
  }

  lemma LastPending(pending: Pending, callId: string)
    requires callId in pending
    ensures pending - {callId} == map[] <==> pending.Keys == {callId}
  {
    assert (pending - {callId}).Keys == pending.Keys - {callId};
    if pending - {callId} == map[] {
      assert pending.Keys - {callId} == {};
    }
  }

  /** In a turn a run has reached, an output is accepted exactly when its call is pending, the text fits and
      there is room for one more result.  The turn goes on exactly when that was the last pending call. */
  lemma OutputIsAcceptedIff(t: Turn, callId: string, output: TP.ToolOutput)
    requires Inv(t)
    ensures var s := t.state;
            var (s', result) := SubmitOutput(s, callId, output);
            var fits := ByteLen(output.output) <= s.limits.maxToolOutputBytes;
            && (result == Ok(Accepted) <==>
                  callId in s.pending && fits && |s.submitted| < s.limits.maxToolResults)
            && (result == Ok(Duplicate) <==> callId in s.accepted && s.accepted[callId] == output)
            && (result != Ok(Accepted) ==> s' == s)
            && (result == Ok(Accepted) ==>
                  && s'.pending == s.pending - {callId} && s'.submitted == s.submitted[callId := output]
                  && s'.accepted == s.accepted[callId := output]
                  && s'.phase == (if s.pending.Keys == {callId} then Running else AwaitingHostTools)
                  && s' == s.(pending := s'.pending, submitted := s'.submitted, accepted := s'.accepted,
                              phase := s'.phase))
  {
    PendingCalls(t, callId);
    hide Inv;
    if callId in t.state.pending {
      LastPending(t.state.pending, callId);
    }
  }

  /** A refused output comes with the first thing wrong with it. */
  lemma OutputRefusalIsTrue(t: Turn, callId: string, output: TP.ToolOutput)
    requires Inv(t) && SubmitOutput(t.state, callId, output).1.Err?
    ensures var s := t.state;
            match SubmitOutput(s, callId, output).1.error
            case ConflictingToolResult(id) => id == callId && callId in s.accepted && s.accepted[callId] != output
            case InvalidTransition(phase, operation) =>
              phase == s.phase && operation == SubmitToolOutput && s.pending == map[] && callId !in s.accepted
            case UnknownToolRequest(id) =>
              id == callId && callId !in s.pending && callId !in s.accepted && s.pending != map[]
            case ToolOutputTooLarge(id, actual, limit) =>
              && id == callId && callId in s.pending
              && actual == ByteLen(output.output) > limit == s.limits.maxToolOutputBytes
            case BufferLimitExceeded(buffer, limit) =>
              && callId in s.pending && ByteLen(output.output) <= s.limits.maxToolOutputBytes
              && buffer == ToolResults && limit == s.limits.maxToolResults <= |s.submitted|
            case _ => false
  {
    PendingCalls(t, callId);
    hide Inv;
  }

  /** In a turn a run has reached, a new host result is accepted exactly when its call is pending and there
      is room for one more result, whatever its size; it is stored with a decision that passes it on. */
  lemma HostResultIsAcceptedIff(t: Turn, callId: string, result: TP.HostToolResult)
    requires Inv(t)
    ensures var s := t.state;
            var (s', outcome) := SubmitHostResult(s, callId, result);
            var hasRoom := |s.submitted| < s.limits.maxToolResults;
            && (outcome.Ok? && outcome.value.receipt == Accepted <==> callId in s.pending && hasRoom)
            && (outcome.Ok? && outcome.value.receipt == Duplicate <==>
                  callId in s.hostResults && s.hostResults[callId] == result)
            && (outcome.Ok? && outcome.value.receipt == Accepted ==>
                  && s'.hostResults == s.hostResults[callId := result]
                  && s'.submitted == s.submitted[callId := outcome.value.decision.providerOutput]
                  && s'.dispositions == s.dispositions[callId := result.turnDisposition])
  {
    var s := t.state;
    if callId in s.pending && callId !in s.hostResults {
      var failure := TP.FailureOf(s.pending[callId].name, result);
      HostSubmissionOutcome(s, callId, result, s.(policyHistory := s.policyHistory + [failure]),
                            PolicyDecision(s, s.pending[callId], result));
    }
  }

  /** An accepted result comes with guidance exactly when it is the second failure under its key or the third
      in a row of this turn's recorded results; the guidance shows the last five failures. */
  lemma GuidanceComesInTime(t: Turn, callId: string, result: TP.HostToolResult, decision: TP.PolicyDecision,
                            now: TP.History)
    requires Inv(t) && callId in t.state.pending
    requires SubmitHostResult(t.state, callId, result).1 == Ok(HostSubmission(Accepted, decision))
    requires now == t.state.policyHistory + [TP.FailureOf(t.state.pending[callId].name, result)]
    ensures SubmitHostResult(t.state, callId, result).0.policyHistory == now
    ensures decision.debugDetailId == result.debugDetailId
    ensures decision.failure == now[|now| - 1] && (decision.failure.None? <==> result.status.Succeeded?)
    ensures decision.recoveryGuidance.Some? <==>
            && decision.failure.Some?
            && (|TP.KeyPositions(now, TP.FailureKey(decision.failure.value))| >= 2 || TP.EndsWithFailures(now, 3))
    ensures decision.recoveryGuidance.Some? ==>
              && decision.recoveryGuidance.value.totalFailures == |TP.FailurePositions(now)|
              && decision.recoveryGuidance.value.recentFailures == TP.LastUpTo(TP.Failures(now), 5)
  {
    PendingCalls(t, callId);
    hide Inv, TP.GuidanceAfter;
    var s := t.state;
    var failure := TP.FailureOf(s.pending[callId].name, result);
    HostSubmissionOutcome(s, callId, result, s.(policyHistory := now), PolicyDecision(s, s.pending[callId], result));
    if failure.Some? {
      TP.GuidanceExactlyAtThresholds(TP.DEFAULT_CONFIG, s.policyHistory, failure.value);
    } else {
      NoGuidanceOnSuccess(s.policyHistory);
    }
  }

  lemma NoGuidanceOnSuccess(history: TP.History)
    ensures TP.GuidanceAfter(TP.DEFAULT_CONFIG, history + [None]) == None
  {
  }

  /** A refused host result comes with the first thing wrong with it; only one refused for lack of room leaves a
      trace, its record in the failure history. */
  lemma HostRefusalIsTrue(t: Turn, callId: string, result: TP.HostToolResult)
    requires Inv(t) && SubmitHostResult(t.state, callId, result).1.Err?
    ensures var s := t.state;
            var s' := SubmitHostResult(s, callId, result).0;
            match SubmitHostResult(s, callId, result).1.error
            case ConflictingToolResult(id) =>
              id == callId && callId in s.hostResults && s.hostResults[callId] != result && s' == s
            case InvalidTransition(phase, operation) =>
              && phase == s.phase && operation == SubmitHostToolResult && s.pending == map[] && s' == s
              && callId !in s.hostResults
            case UnknownToolRequest(id) =>
              && id == callId && callId !in s.pending && callId !in s.hostResults && s' == s
              && s.pending != map[]
            case BufferLimitExceeded(buffer, limit) =>
              && buffer == ToolResults && limit == s.limits.maxToolResults <= |s.submitted| && callId in s.pending
              && s' == s.(policyHistory := s.policyHistory + [TP.FailureOf(s.pending[callId].name, result)])
            case _ => false
  {
    PendingCalls(t, callId);
    hide Inv;
    var s := t.state;
    if callId in s.pending {
      var failure := TP.FailureOf(s.pending[callId].name, result);
      HostSubmissionOutcome(s, callId, result, s.(policyHistory := s.policyHistory + [failure]),
                            PolicyDecision(s, s.pending[callId], result));
    }
  }

  /** An output can be taken exactly when it was accepted, has not been taken and was not discarded by an
      ending; taking hands over what was accepted. */
  lemma OutputCanBeTakenIff(t: Turn, callId: string)
    requires Inv(t)
    ensures var taken := TakeOutput(t.state, callId).1;
            && (taken.Some? <==> callId in t.state.accepted && callId !in TakenIds(t.log.taken) && !t.log.discarded)
            && (taken.Some? ==> taken.value == t.state.accepted[callId])
            && (PollHostOutput(t.state, callId).1.Some? <==> taken.Some?)
  {
  }

  /** Over every run, whatever the provider is or could be given for a stored host result is an error
      exactly when the tool did not succeed, with the host's fingerprint and its text within the limits. */
  lemma ProviderGetsTheHostsResult(wakeId: string, sessionId: string, limits: Limits, ops: seq<Op>, callId: string)
    requires callId in Run(NewTurn(wakeId, sessionId, limits), ops).state.hostResults
    ensures var t := Run(NewTurn(wakeId, sessionId, limits), ops);
            var result := t.state.hostResults[callId];
            && (forall i :: 0 <= i < |t.log.taken| && t.log.taken[i].0 == callId ==>
                  && (t.log.taken[i].1.isError <==> !result.status.Succeeded?)
                  && TP.Tells(t.log.taken[i].1, result, 20_000, limits.maxToolOutputBytes))
            && (PollHostOutput(t.state, callId).1.Some? ==>
                  var output := PollHostOutput(t.state, callId).1.value.output;
                  && (output.isError <==> !result.status.Succeeded?)
                  && TP.Tells(output, result, 20_000, limits.maxToolOutputBytes))
  {
    RunKeepsInv(wakeId, sessionId, limits, ops);
    NewTurnInv(wakeId, sessionId, limits);
    RunFollows(NewTurn(wakeId, sessionId, limits), ops);
    var t := Run(NewTurn(wakeId, sessionId, limits), ops);
    assert ResultTold(t.state.hostResults[callId], t.state.decisions[callId], t.state.accepted[callId],
                      limits.maxToolOutputBytes);
  }
}
