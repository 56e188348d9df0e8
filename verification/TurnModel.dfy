/** A buffered brain turn as a state machine on values: the state the coordinator keeps, what each
    operation does to it and returns, and a log of everything that went in and came out. */
module TurnModel {
  import opened Wrappers
  import opened Text
  import opened TurnStream
  import TP = ToolPolicy

  const USIZE_MAX: nat := 0xFFFF_FFFF_FFFF_FFFF

  datatype Phase =
    | Created | Running | AwaitingHostTools
    | Yielded | AttentionRequired | Completed | Failed | Cancelled
  {
    predicate IsTerminal() {
      Yielded? || AttentionRequired? || Completed? || Failed? || Cancelled?
    }
  }

  datatype LimitName =
    | MaxStreamItems
    | MaxStreamDeltaBytes
    | MaxPendingToolRequests
    | MaxToolResults
    | MaxToolOutputBytes

  datatype Limits = Limits(
    maxStreamItems: nat,
    maxStreamDeltaBytes: nat,
    maxPendingToolRequests: nat,
    maxToolResults: nat,
    maxToolOutputBytes: nat)
  {
    predicate Valid() {
      && maxStreamItems > 0
      && maxStreamDeltaBytes > 0
      && maxPendingToolRequests > 0
      && maxToolResults > 0
      && maxToolOutputBytes > 0
    }

    /** The first limit that is zero, in the order in which they are checked. */
    function FirstZero(): (name: Option<LimitName>)
      ensures name.None? <==> Valid()
    {
      if maxStreamItems == 0 then Some(MaxStreamItems)
      else if maxStreamDeltaBytes == 0 then Some(MaxStreamDeltaBytes)
      else if maxPendingToolRequests == 0 then Some(MaxPendingToolRequests)
      else if maxToolResults == 0 then Some(MaxToolResults)
      else if maxToolOutputBytes == 0 then Some(MaxToolOutputBytes)
      else None
    }
  }

  /** The limits in the order in which they are checked. */
  const CHECKED: seq<LimitName> :=
    [MaxStreamItems, MaxStreamDeltaBytes, MaxPendingToolRequests, MaxToolResults, MaxToolOutputBytes]

  function LimitOf(limits: Limits, name: LimitName): nat {
    match name
    case MaxStreamItems => limits.maxStreamItems
    case MaxStreamDeltaBytes => limits.maxStreamDeltaBytes
    case MaxPendingToolRequests => limits.maxPendingToolRequests
    case MaxToolResults => limits.maxToolResults
    case MaxToolOutputBytes => limits.maxToolOutputBytes
  }

  /** The limit complained of is the first in that order that is zero. */
  lemma FirstZeroIsTheFirst(limits: Limits, i: nat)
    requires i < |CHECKED|
    ensures limits.FirstZero() == Some(CHECKED[i]) <==>
            LimitOf(limits, CHECKED[i]) == 0 && forall j :: 0 <= j < i ==> LimitOf(limits, CHECKED[j]) > 0
  {
    assert LimitOf(limits, CHECKED[0]) == limits.maxStreamItems;
    assert LimitOf(limits, CHECKED[1]) == limits.maxStreamDeltaBytes;
    assert LimitOf(limits, CHECKED[2]) == limits.maxPendingToolRequests;
    assert LimitOf(limits, CHECKED[3]) == limits.maxToolResults;
    assert LimitOf(limits, CHECKED[4]) == limits.maxToolOutputBytes;
  }

  datatype Operation =
    | StartTurn | EnqueueItem | QueueToolRequest | SubmitToolOutput | SubmitHostToolResult
    | SetProviderStateOutput | YieldEpoch | RequireOperatorAttention | FailTurn | CancelTurn

  datatype Buffer = StreamDeltaBytes | StreamItems | PendingToolRequests | ToolResults

  datatype TurnError =
    | InvalidLimit(name: LimitName)
    | InvalidTransition(phase: Phase, operation: Operation)
    | WakeIdentityMismatch(expected: string, found: string)
    | SessionIdentityMismatch(expected: string, found: string)
    | DuplicateToolRequest(callId: string)
    | UnknownToolRequest(callId: string)
    | ConflictingToolResult(callId: string)
    | BufferLimitExceeded(buffer: Buffer, limit: nat)
    | ToolOutputTooLarge(callId: string, actualBytes: nat, limitBytes: nat)
    | SequenceExhausted
    | MissingDecision(callId: string)  // where the runtime would panic; shown unreachable


  datatype ToolRequest = ToolRequest(
    callId: string, providerItemId: Option<string>, name: string, argumentsJson: string)

  /** Why a turn ended: one of the runtime's own reasons, each with a fixed code and text, or a
      code and summary supplied by the caller or the failing item. */
  datatype Reason =
    | TurnCompleted
    | WorkQuantumReached
    | ProviderStreamEnqueueFailed
    | Given(code: string, summary: string)

  datatype TerminalDetails = TerminalDetails(reason: Reason, occurredAt: nat)

  datatype Receipt = Accepted | Duplicate

  datatype HostSubmission = HostSubmission(receipt: Receipt, decision: TP.PolicyDecision)

  datatype HostOutput = HostOutput(output: TP.ToolOutput, disposition: Option<TP.TurnDisposition>)

  datatype Drain = Drain(wakeId: string, phase: Phase, items: Queue, remaining: nat, terminal: bool)

  /** Everything the coordinator remembers, except that the failure policy is represented by the
      full list of recorded results and the byte and item counters by what they count. */
  datatype State = State(
    wakeId: string,
    sessionId: string,
    limits: Limits,
    phase: Phase,
    terminal: Option<TerminalDetails>,
    queue: Queue,
    nextSequence: nat,
    pending: map<string, ToolRequest>,
    undelivered: seq<string>,
    submitted: map<string, TP.ToolOutput>,
    dispositions: map<string, Option<TP.TurnDisposition>>,
    accepted: map<string, TP.ToolOutput>,
    hostResults: map<string, TP.HostToolResult>,
    decisions: map<string, TP.PolicyDecision>,
    policyHistory: TP.History,
    providerState: Option<string>)

  function NewState(wakeId: string, sessionId: string, limits: Limits): State {
    State(wakeId, sessionId, limits, Created, None, [], 1, map[], [], map[], map[], map[], map[], map[], [], None)
  }

  // ---------- operations ----------

  function Refused(s: State, operation: Operation): TurnError {
    InvalidTransition(s.phase, operation)
  }

  function Start(s: State): (State, Result<(), TurnError>) {
    if !s.phase.Created? then (s, Err(Refused(s, StartTurn)))
    else (s.(phase := Running), Ok(()))
  }

  /** The terminal phase and details a terminal item brings about. */
  function TerminalPhase(item: StreamItem): Phase
    requires item.IsTerminal()
  {
    if item.Actions? then Completed else Failed
  }

  function TerminalOf(item: StreamItem, now: nat): TerminalDetails
    requires item.IsTerminal()
  {
    if item.Actions? then TerminalDetails(TurnCompleted, now)
    else TerminalDetails(Given(item.reasonCode.GetOr(item.kindReason), item.message), now)
  }

  function Push(s: State, item: StreamItem, now: nat): State {
    var pushed := s.(queue := s.queue + [SequencedItem(s.nextSequence, item)], nextSequence := s.nextSequence + 1);
    if item.IsTerminal()
    then pushed.(phase := TerminalPhase(item), terminal := Some(TerminalOf(item, now)))
    else pushed
  }

  function MergedLast(queue: Queue, merged: StreamItem): Queue
    requires queue != []
  {
    queue[..|queue| - 1] + [queue[|queue| - 1].(item := merged)]
  }

  predicate Mergeable(queue: Queue, item: StreamItem) {
    queue != [] && Coalesced(queue[|queue| - 1].item, item).Some?
  }

  /** A delta that would push the queued bytes over the limit waits for the host to drain the
      queue; an empty queue takes a delta of any size. */
  predicate DeltaMustWait(s: State, item: StreamItem) {
    var next := QueuedDeltaBytes(s.queue) + item.DeltaBytes();
    item.IsDelta() && (next > USIZE_MAX || (next > s.limits.maxStreamDeltaBytes && s.queue != []))
  }

  /** Why an item is turned away before the queue is looked at for a place to put it. */
  function AdmissionError(s: State, item: StreamItem): Option<TurnError> {
    if !s.phase.Running? then Some(Refused(s, EnqueueItem))
    else if item.wakeId != s.wakeId then Some(WakeIdentityMismatch(s.wakeId, item.wakeId))
    else if item.sessionId != s.sessionId then Some(SessionIdentityMismatch(s.sessionId, item.sessionId))
    else if DeltaMustWait(s, item) then Some(BufferLimitExceeded(StreamDeltaBytes, s.limits.maxStreamDeltaBytes))
    else None
  }

  /** Why an item that needs an entry of its own does not get one. A terminal item always has
      room. */
  function CapacityError(s: State, item: StreamItem): Option<TurnError> {
    if !item.IsTerminal() && |s.queue| >= s.limits.maxStreamItems then
      Some(BufferLimitExceeded(StreamItems, s.limits.maxStreamItems))
    else if s.nextSequence >= U64_MAX then Some(SequenceExhausted)
    else None
  }

  function Enqueue(s: State, item: StreamItem, now: nat): (State, Result<nat, TurnError>) {
    if AdmissionError(s, item).Some? then (s, Err(AdmissionError(s, item).value))
    else if Mergeable(s.queue, item) then
      var last := s.queue[|s.queue| - 1];
      (s.(queue := MergedLast(s.queue, Coalesced(last.item, item).value)), Ok(last.sequence))
    else if CapacityError(s, item).Some? then (s, Err(CapacityError(s, item).value))
    else (Push(s, item, now), Ok(s.nextSequence))
  }

  /** The provider path fails the turn on any refusal other than backpressure. */
  function EnqueueProvider(s: State, item: StreamItem, now: nat): (State, Result<nat, TurnError>) {
    var (s', result) := Enqueue(s, item, now);
    if result.Err? && !result.error.BufferLimitExceeded? && !s'.phase.IsTerminal() then
      (Fail(s', ProviderStreamEnqueueFailed, now).0, result)
    else (s', result)
  }

  function QueueRequest(s: State, request: ToolRequest): (State, Result<(), TurnError>) {
    if !(s.phase.Running? || s.phase.AwaitingHostTools?) then (s, Err(Refused(s, QueueToolRequest)))
    else if request.callId in s.pending || request.callId in s.accepted then
      (s, Err(DuplicateToolRequest(request.callId)))
    else if |s.pending| >= s.limits.maxPendingToolRequests then
      (s, Err(BufferLimitExceeded(PendingToolRequests, s.limits.maxPendingToolRequests)))
    else
      (s.(pending := s.pending[request.callId := request],
          undelivered := s.undelivered + [request.callId],
          phase := AwaitingHostTools), Ok(()))
  }

  /** The requests among `ids` that still wait for a result, in order. */
  function StillPending(ids: seq<string>, pending: map<string, ToolRequest>): seq<ToolRequest> {
    if ids == [] then []
    else
      var earlier := StillPending(ids[..|ids| - 1], pending);
      var id := ids[|ids| - 1];
      if id in pending then earlier + [pending[id]] else earlier
  }

  function DrainRequests(s: State, maxRequests: nat): (State, seq<ToolRequest>) {
    var n := Min(Max(maxRequests, 1), |s.undelivered|);
    (s.(undelivered := s.undelivered[n..]), StillPending(s.undelivered[..n], s.pending))
  }

  function SubmitOutput(s: State, callId: string, output: TP.ToolOutput): (State, Result<Receipt, TurnError>) {
    if callId in s.accepted then
      (s, if s.accepted[callId] == output then Ok(Duplicate) else Err(ConflictingToolResult(callId)))
    else if !s.phase.AwaitingHostTools? then (s, Err(Refused(s, SubmitToolOutput)))
    else if callId !in s.pending then (s, Err(UnknownToolRequest(callId)))
    else if ByteLen(output.output) > s.limits.maxToolOutputBytes then
      (s, Err(ToolOutputTooLarge(callId, ByteLen(output.output), s.limits.maxToolOutputBytes)))
    else if |s.submitted| >= s.limits.maxToolResults then
      (s, Err(BufferLimitExceeded(ToolResults, s.limits.maxToolResults)))
    else
      var rest := s.pending - {callId};
      (s.(pending := rest,
          submitted := s.submitted[callId := output],
          accepted := s.accepted[callId := output],
          phase := if rest == map[] then Running else AwaitingHostTools), Ok(Accepted))
  }

  /** The decision the failure policy takes on a result, given everything recorded before it. */
  function PolicyDecision(s: State, request: ToolRequest, result: TP.HostToolResult): TP.PolicyDecision {
    TP.DecisionAfter(TP.DEFAULT_CONFIG, s.policyHistory + [TP.FailureOf(request.name, result)],
                     request.name, result, s.limits.maxToolOutputBytes)
  }

  /** Submits the output the policy decided on and keeps the result beside it. */
  function SubmitDecided(s: State, callId: string, result: TP.HostToolResult, decision: TP.PolicyDecision)
    : (State, Result<HostSubmission, TurnError>)
  {
    var (s', receipt) := SubmitOutput(s, callId, decision.providerOutput);
    if receipt.Err? then (s', Err(receipt.error))
    else
      (s'.(dispositions := s'.dispositions[callId := result.turnDisposition],
           hostResults := s'.hostResults[callId := result],
           decisions := s'.decisions[callId := decision]),
       Ok(HostSubmission(Accepted, decision)))
  }

  /** A host result goes through the failure policy, which records it, before its output is
      submitted; a submission refused after that point leaves the record behind. */
  function SubmitHostResult(s: State, callId: string, result: TP.HostToolResult)
    : (State, Result<HostSubmission, TurnError>)
  {
    if callId in s.hostResults then
      (s, if s.hostResults[callId] != result then Err(ConflictingToolResult(callId))
          else if callId in s.decisions then Ok(HostSubmission(Duplicate, s.decisions[callId]))
          else Err(MissingDecision(callId)))
    else if !s.phase.AwaitingHostTools? then (s, Err(Refused(s, SubmitHostToolResult)))
    else if callId !in s.pending then (s, Err(UnknownToolRequest(callId)))
    else
      var recorded := s.(policyHistory := s.policyHistory + [TP.FailureOf(s.pending[callId].name, result)]);
      SubmitDecided(recorded, callId, result, PolicyDecision(s, s.pending[callId], result))
  }

  function TakeOutput(s: State, callId: string): (State, Option<TP.ToolOutput>) {
    if callId in s.submitted then (s.(submitted := s.submitted - {callId}), Some(s.submitted[callId]))
    else (s, None)
  }

  function PollHostOutput(s: State, callId: string): (State, Option<HostOutput>) {
    match TakeOutput(s, callId)
    case (_, None) => (s, None)
    case (s', Some(output)) =>
      var disposition := if callId in s'.dispositions then s'.dispositions[callId] else None;
      (s'.(dispositions := s'.dispositions - {callId}), Some(HostOutput(output, disposition)))
  }

  function SetProviderState(s: State, output: string): (State, Result<(), TurnError>) {
    if s.phase.Created? || s.phase.Cancelled? then (s, Err(Refused(s, SetProviderStateOutput)))
    else (s.(providerState := Some(output)), Ok(()))
  }

  function YieldTurn(s: State, now: nat): (State, Result<(), TurnError>) {
    if !s.phase.Running? then (s, Err(Refused(s, YieldEpoch)))
    else (s.(phase := Yielded, terminal := Some(TerminalDetails(WorkQuantumReached, now))), Ok(()))
  }

  function RequireAttention(s: State, reason: Reason, now: nat): (State, Result<(), TurnError>) {
    if !s.phase.Running? then (s, Err(Refused(s, RequireOperatorAttention)))
    else (s.(phase := AttentionRequired, terminal := Some(TerminalDetails(reason, now))), Ok(()))
  }

  function EndTurn(s: State, phase: Phase, reason: Reason, now: nat): State {
    s.(phase := phase, pending := map[], undelivered := [], submitted := map[], dispositions := map[],
       terminal := Some(TerminalDetails(reason, now)))
  }

  function Fail(s: State, reason: Reason, now: nat): (State, Result<(), TurnError>) {
    if s.phase.IsTerminal() then (s, Err(Refused(s, FailTurn)))
    else (EndTurn(s, Failed, reason, now), Ok(()))
  }

  function Cancel(s: State, reason: Reason, now: nat): (State, Result<(), TurnError>) {
    if s.phase.Cancelled? then (s, Ok(()))
    else if s.phase.IsTerminal() && !s.phase.AttentionRequired? then (s, Err(Refused(s, CancelTurn)))
    else (EndTurn(s, Cancelled, reason, now), Ok(()))
  }

  /** How many items a drain of at most `n` takes: it stops early after a terminal item. */
  function DrainCount(queue: Queue, n: nat): (count: nat)
    ensures count <= n && count <= |queue|
  {
    if n == 0 || queue == [] then 0
    else if queue[0].item.IsTerminal() then 1
    else 1 + DrainCount(queue[1..], n - 1)
  }

  function DrainStream(s: State, maxItems: nat): (State, Drain) {
    var n := DrainCount(s.queue, Max(maxItems, 1));
    var rest := s.queue[n..];
    (s.(queue := rest), Drain(s.wakeId, s.phase, s.queue[..n], |rest|, s.phase.IsTerminal() && rest == []))
  }

  // ---------- runs ----------

  /** What an observer of all calls has seen: the items whose enqueueing succeeded, the items
      drained, the tool requests queued and handed to the host, the outputs taken, whether a
      failure or cancellation discarded waiting work, and how many failing host results were
      refused for lack of room. */
  datatype Log = Log(
    enqueued: seq<StreamItem>,
    drained: Queue,
    requested: seq<ToolRequest>,
    handedOut: seq<ToolRequest>,
    taken: seq<(string, TP.ToolOutput)>,
    discarded: bool,
    refusedFailures: nat)

  datatype Turn = Turn(state: State, log: Log)

  datatype Op =
    | StartOp
    | EnqueueOp(item: StreamItem, now: nat)
    | EnqueueProviderOp(item: StreamItem, now: nat)
    | QueueRequestOp(request: ToolRequest)
    | DrainRequestsOp(maxRequests: nat)
    | SubmitOutputOp(callId: string, output: TP.ToolOutput)
    | SubmitHostResultOp(callId: string, result: TP.HostToolResult)
    | TakeOutputOp(callId: string)
    | PollHostOutputOp(callId: string)
    | SetProviderStateOp(providerState: string)
    | YieldOp(now: nat)
    | RequireAttentionOp(reason: Reason, now: nat)
    | FailOp(reason: Reason, now: nat)
    | CancelOp(reason: Reason, now: nat)
    | DrainStreamOp(maxItems: nat)

  ghost function NewTurn(wakeId: string, sessionId: string, limits: Limits): Turn {
    Turn(NewState(wakeId, sessionId, limits), Log([], [], [], [], [], false, 0))
  }

  ghost function DoStart(t: Turn): Turn {
    t.(state := Start(t.state).0)
  }

  ghost function DoEnqueue(t: Turn, item: StreamItem, now: nat): Turn {
    var (s', result) := Enqueue(t.state, item, now);
    Turn(s', if result.Ok? then t.log.(enqueued := t.log.enqueued + [item]) else t.log)
  }

  ghost function DoEnqueueProvider(t: Turn, item: StreamItem, now: nat): Turn {
    var (s', result) := EnqueueProvider(t.state, item, now);
    Turn(s', if result.Ok? then t.log.(enqueued := t.log.enqueued + [item])
             else t.log.(discarded := t.log.discarded || s'.phase != t.state.phase))
  }

  ghost function DoQueueRequest(t: Turn, request: ToolRequest): Turn {
    var (s', result) := QueueRequest(t.state, request);
    Turn(s', if result.Ok? then t.log.(requested := t.log.requested + [request]) else t.log)
  }

  ghost function DoDrainRequests(t: Turn, maxRequests: nat): Turn {
    var (s', requests) := DrainRequests(t.state, maxRequests);
    Turn(s', t.log.(handedOut := t.log.handedOut + requests))
  }

  ghost function DoSubmitOutput(t: Turn, callId: string, output: TP.ToolOutput): Turn {
    t.(state := SubmitOutput(t.state, callId, output).0)
  }

  ghost function DoSubmitHostResult(t: Turn, callId: string, result: TP.HostToolResult): Turn {
    var (s', outcome) := SubmitHostResult(t.state, callId, result);
    var refused := outcome.Err? && outcome.error.BufferLimitExceeded? && !result.status.Succeeded?;
    Turn(s', if refused then t.log.(refusedFailures := t.log.refusedFailures + 1) else t.log)
  }

  ghost function DoTakeOutput(t: Turn, callId: string): Turn {
    var (s', output) := TakeOutput(t.state, callId);
    Turn(s', if output.Some? then t.log.(taken := t.log.taken + [(callId, output.value)]) else t.log)
  }

  ghost function DoPollHostOutput(t: Turn, callId: string): Turn {
    var (s', output) := PollHostOutput(t.state, callId);
    Turn(s', if output.Some? then t.log.(taken := t.log.taken + [(callId, output.value.output)]) else t.log)
  }

  ghost function DoSetProviderState(t: Turn, providerState: string): Turn {
    t.(state := SetProviderState(t.state, providerState).0)
  }

  ghost function DoYield(t: Turn, now: nat): Turn {
    t.(state := YieldTurn(t.state, now).0)
  }

  ghost function DoRequireAttention(t: Turn, reason: Reason, now: nat): Turn {
    t.(state := RequireAttention(t.state, reason, now).0)
  }

  ghost function DoFail(t: Turn, reason: Reason, now: nat): Turn {
    var (s', result) := Fail(t.state, reason, now);
    Turn(s', t.log.(discarded := t.log.discarded || result.Ok?))
  }

  ghost function DoCancel(t: Turn, reason: Reason, now: nat): Turn {
    var (s', result) := Cancel(t.state, reason, now);
    Turn(s', t.log.(discarded := t.log.discarded || (result.Ok? && !t.state.phase.Cancelled?)))
  }

  ghost function DoDrainStream(t: Turn, maxItems: nat): Turn {
    var (s', drain) := DrainStream(t.state, maxItems);
    Turn(s', t.log.(drained := t.log.drained + drain.items))
  }

  ghost function Step(t: Turn, op: Op): Turn {
    match op
    case StartOp => DoStart(t)
    case EnqueueOp(item, now) => DoEnqueue(t, item, now)
    case EnqueueProviderOp(item, now) => DoEnqueueProvider(t, item, now)
    case QueueRequestOp(request) => DoQueueRequest(t, request)
    case DrainRequestsOp(maxRequests) => DoDrainRequests(t, maxRequests)
    case SubmitOutputOp(callId, output) => DoSubmitOutput(t, callId, output)
    case SubmitHostResultOp(callId, result) => DoSubmitHostResult(t, callId, result)
    case TakeOutputOp(callId) => DoTakeOutput(t, callId)
    case PollHostOutputOp(callId) => DoPollHostOutput(t, callId)
    case SetProviderStateOp(providerState) => DoSetProviderState(t, providerState)
    case YieldOp(now) => DoYield(t, now)
    case RequireAttentionOp(reason, now) => DoRequireAttention(t, reason, now)
    case FailOp(reason, now) => DoFail(t, reason, now)
    case CancelOp(reason, now) => DoCancel(t, reason, now)
    case DrainStreamOp(maxItems) => DoDrainStream(t, maxItems)
  }

  ghost function Run(t: Turn, ops: seq<Op>): Turn {
    if ops == [] then t else Step(Run(t, ops[..|ops| - 1]), ops[|ops| - 1])
  }
}
