/** The durable ledger of one logical turn's host-tool operations: the turn record, the stored
    operations, the wakes that work on the turn, and the transactions between them.  Transactions of
    different wakes (possibly of different service processes) interleave freely; a wake itself is
    inside at most one two-part operation at a time. */
module OperationLedger {
  import opened Wrappers
  import opened Text
  import opened OperationIds

  datatype TurnPhase =
    | Admitted | Runnable | Running | Yielded | AttentionRequired | CancelRequested
    | Completed | Cancelled | Failed
  {
    predicate IsTerminal() { Completed? || Cancelled? || Failed? }
    predicate IsRunnable() { Admitted? || Runnable? || Yielded? }
  }

  /** The source hashes these; the hash is taken to be injective. */
  datatype Epoch = Epoch(continuation: string, revision: nat, service: string)

  datatype Attention = Attention(toolOutcomeUnknown: bool, retryAllowed: bool, confirmAllowed: bool)

  datatype Turn = Turn(
    phase: TurnPhase,
    revision: nat,
    continuation: string,
    epoch: Option<Epoch>,
    claimGeneration: nat,
    cancellationGeneration: nat,
    attention: Option<Attention>)

  datatype OperationPhase = Leased | Done | OutcomeUnknown | Superseded | DoneAfterCancel

  datatype Body = FromHost(text: string) | ConfirmedByOperator(operationId: string)

  /** A result payload: the two members a replay overwrites, and the rest. */
  datatype Payload = Payload(wakeId: Option<string>, callId: Option<string>, body: Body)

  datatype Operation = Operation(
    continuation: string,
    epoch: Epoch,
    phase: OperationPhase,
    fingerprint: string,
    leaseGeneration: nat,
    payload: Option<Payload>,
    revision: nat,
    createdAt: nat)

  /** What a name is made from. */
  datatype Name = Name(continuation: string, slot: nat, attempt: nat)

  type Ledger = map<string, Operation>

  /** What a wake is between the two halves of. */
  datatype InFlight =
    | Idle
    | Leasing(callId: string, name: Name, operation: Operation)
    | Completing(callId: string, operationId: string, observed: Operation, payload: Payload)

  /** A wake's copy of the claim it was created with, and its own counters. */
  datatype Wake = Wake(
    continuation: string,
    epoch: Epoch,
    revision: nat,
    claimGeneration: nat,
    cancellationGeneration: nat,
    nextSlot: nat,
    callOperations: map<string, string>,
    // Leases granted to requests of the drain in progress; the host gets them when the drain returns.
    granted: seq<string>,
    inFlight: InFlight)

  /** A result handed to a provider run. */
  datatype Delivery = Delivery(operationId: string, payload: Payload)

  datatype World = World(
    turnId: string,
    turn: Turn,
    ops: Ledger,
    checkpoints: set<string>,
    wakes: map<string, Wake>,
    // What happened, for stating properties; no transaction reads these.
    names: map<string, Name>,
    dispatched: seq<string>,
    delivered: seq<Delivery>)

  function NewWorld(turnId: string, continuation: string, revision: nat): World {
    World(turnId, Turn(Admitted, revision, continuation, None, 0, 0, None), map[], {continuation}, map[], map[], [], [])
  }

  function IdOf(turnId: string, name: Name): string {
    AttemptId(SlotId(turnId, name.continuation, name.slot), name.attempt)
  }

  /** The running fence: the turn is still exactly as the claim left it. */
  predicate FenceHolds(turn: Turn, wake: Wake, epoch: Epoch) {
    && turn.revision == wake.revision
    && turn.phase == Running
    && turn.epoch == Some(epoch)
    && turn.claimGeneration == wake.claimGeneration
    && turn.cancellationGeneration == wake.cancellationGeneration
  }

  // Claiming and settling the turn

  function Claim(w: World, wakeId: string, service: string): World {
    var epoch := Epoch(w.turn.continuation, w.turn.revision, service);
    if wakeId in w.wakes then w
    else if w.turn.phase == Running && w.turn.epoch == Some(epoch) then
      w.(wakes := w.wakes[wakeId := NewWake(w.turn, epoch)])
    else if !w.turn.phase.IsRunnable() then w
    else
      var turn := w.turn.(phase := Running, epoch := Some(epoch), claimGeneration := w.turn.claimGeneration + 1,
                          revision := w.turn.revision + 1);
      w.(turn := turn, wakes := w.wakes[wakeId := NewWake(turn, epoch)])
  }

  function NewWake(turn: Turn, epoch: Epoch): Wake {
    Wake(turn.continuation, epoch, turn.revision, turn.claimGeneration, turn.cancellationGeneration, 0, map[], [], Idle)
  }

  datatype Settlement =
    | Yield(continuation: string)
    | Attend(continuation: string, attention: Attention)
    | Finish(failed: bool)

  function SettledTurn(turn: Turn, settlement: Settlement): Turn {
    var next := turn.(epoch := None, revision := turn.revision + 1);
    match settlement
    case Yield(continuation) => next.(phase := Yielded, continuation := continuation)
    case Attend(continuation, attention) =>
      next.(phase := AttentionRequired, continuation := continuation, attention := Some(attention))
    case Finish(failed) => next.(phase := if failed then Failed else Completed)
  }

  function Settle(w: World, wakeId: string, settlement: Settlement): World {
    if wakeId !in w.wakes then w
    else if w.turn.phase == Cancelled then w.(wakes := w.wakes - {wakeId})
    else if !settlement.Finish? && settlement.continuation in w.checkpoints then w
    else if !FenceHolds(w.turn, w.wakes[wakeId], w.wakes[wakeId].epoch) then w
    else
      w.(turn := SettledTurn(w.turn, settlement),
         checkpoints := if settlement.Finish? then w.checkpoints else w.checkpoints + {settlement.continuation},
         wakes := w.wakes - {wakeId})
  }

  /** Cancelling bumps the cancellation generation once; a finished turn is left alone. */
  function Cancel(w: World): World {
    if w.turn.phase.IsTerminal() then w
    else w.(turn := w.turn.(phase := Cancelled, cancellationGeneration := w.turn.cancellationGeneration + 1,
                            epoch := None, attention := None, revision := w.turn.revision + 1))
  }

  /** A process dies or drops a wake without settling it. */
  function Drop(w: World, wakeId: string): World {
    w.(wakes := w.wakes - {wakeId})
  }

  // Leasing a host-tool operation

  function AttemptsIn(ops: Ledger, slotId: string): set<nat> {
    set id | id in ops && AttemptOf(slotId, id).Some? :: AttemptOf(slotId, id).value
  }

  ghost function Largest(s: set<nat>): (m: nat)
    requires s != {}
    ensures m in s && forall x <- s :: x <= m
  {
    var x :| x in s;
    if s == {x} then x
    else
      var m := Largest(s - {x});
      assert s == (s - {x}) + {x};
      Max(x, m)
  }

  /** The stored operation with the highest attempt number of a slot. */
  ghost function Latest(ops: Ledger, slotId: string): (r: Option<(nat, string)>)
    ensures r.None? <==> AttemptsIn(ops, slotId) == {}
    ensures r.Some? ==> r.value.1 in ops && AttemptOf(slotId, r.value.1) == Some(r.value.0)
    ensures r.Some? ==> forall a <- AttemptsIn(ops, slotId) :: a <= r.value.0
  {
    var attempts := AttemptsIn(ops, slotId);
    if attempts == {} then None
    else
      var attempt := Largest(attempts);
      var id :| id in ops && AttemptOf(slotId, id) == Some(attempt);
      Some((attempt, id))
  }

  datatype Plan =
    | Lease(attempt: nat)
    | Replay(operationId: string, payload: Payload)
    | NothingToDo
    | Diverged
    | NotReplayable
    | NoPayload(operationId: string)

  /** What a wake does about the next host-tool request, from what the ledger says of its slot. */
  ghost function PlanFor(ops: Ledger, slotId: string, fingerprint: string): Plan {
    match Latest(ops, slotId)
    case None => Lease(0)
    case Some((attempt, id)) =>
      var operation := ops[id];
      if operation.fingerprint != fingerprint then Diverged
      else match operation.phase
        case Done => if operation.payload.Some? then Replay(id, operation.payload.value) else NoPayload(id)
        case DoneAfterCancel => NothingToDo
        case Superseded => Lease(Min(attempt + 1, U64_MAX))
        case _ => NotReplayable
  }

  function NewLease(wake: Wake, fingerprint: string, now: nat): Operation {
    Operation(wake.continuation, wake.epoch, Leased, fingerprint, wake.claimGeneration, None, 1, now)
  }

  /** A failed request fails its whole drain, which then hands nothing over. */
  predicate FailsTheDrain(plan: Plan, refused: bool) {
    plan.Diverged? || plan.NotReplayable? || plan.NoPayload? || (plan.Replay? && refused)
  }

  ghost function WakeAfterPlan(wake: Wake, plan: Plan, callId: string, fingerprint: string, now: nat, refused: bool)
    : Wake
  {
    var next := wake.(nextSlot := (wake.nextSlot + 1) % (U64_MAX + 1),
                      granted := if FailsTheDrain(plan, refused) then [] else wake.granted);
    match plan
    case Lease(attempt) =>
      var name := Name(wake.continuation, wake.nextSlot, attempt);
      next.(inFlight := Leasing(callId, name, NewLease(wake, fingerprint, now)))
    case Replay(id, _) => next.(callOperations := wake.callOperations[callId := id])
    case NoPayload(id) => next.(callOperations := wake.callOperations[callId := id])
    case _ => next
  }

  ghost function AfterPlan(w: World, wakeId: string, plan: Plan,
                           callId: string, fingerprint: string, now: nat, refused: bool)
    : World
    requires wakeId in w.wakes
  {
    var next := w.(wakes := w.wakes[wakeId := WakeAfterPlan(w.wakes[wakeId], plan, callId, fingerprint, now, refused)]);
    if plan.Replay? && !refused then
      var payload := plan.payload.(wakeId := Some(wakeId), callId := Some(callId));
      next.(delivered := w.delivered + [Delivery(plan.operationId, payload)])
    else next
  }

  /** The first half of preparing a request: take the next slot, read the ledger, decide.  `refused`
      says that the provider's run would not take a replayed result. */
  ghost function Prepare(w: World, wakeId: string, callId: string, fingerprint: string, now: nat, refused: bool)
    : World
  {
    if wakeId !in w.wakes || !w.wakes[wakeId].inFlight.Idle? then w
    else
      var wake := w.wakes[wakeId];
      var plan := PlanFor(w.ops, SlotId(w.turnId, wake.continuation, wake.nextSlot), fingerprint);
      AfterPlan(w, wakeId, plan, callId, fingerprint, now, refused)
  }

  predicate LeaseGranted(turn: Turn, ops: Ledger, wake: Wake, id: string, operation: Operation, takenElsewhere: bool) {
    FenceHolds(turn, wake, operation.epoch) && !takenElsewhere && (id in ops ==> ops[id] == operation)
  }

  /** The second half: the store grants or refuses the lease.  A refusal fails the whole drain.
      `takenElsewhere` says that another turn's operation has the name. */
  function CommitLease(w: World, wakeId: string, takenElsewhere: bool): World {
    if wakeId !in w.wakes || !w.wakes[wakeId].inFlight.Leasing? then w
    else
      var wake := w.wakes[wakeId];
      var lease := wake.inFlight;
      var id := IdOf(w.turnId, lease.name);
      if !LeaseGranted(w.turn, w.ops, wake, id, lease.operation, takenElsewhere) then
        w.(wakes := w.wakes[wakeId := wake.(inFlight := Idle, granted := [])])
      else
        w.(wakes := w.wakes[wakeId := LeasedWake(wake, lease.callId, id)],
           ops := w.ops[id := lease.operation],
           names := w.names[id := lease.name])
  }

  function LeasedWake(wake: Wake, callId: string, id: string): Wake {
    wake.(inFlight := Idle, callOperations := wake.callOperations[callId := id], granted := wake.granted + [id])
  }

  /** A drain fails before a request gets to the ledger, or because the ledger cannot be read: a
      malformed request takes no slot, an unreadable ledger does. */
  function AbortDrain(w: World, wakeId: string, slotTaken: bool): World {
    if wakeId !in w.wakes || !w.wakes[wakeId].inFlight.Idle? then w
    else
      var wake := w.wakes[wakeId];
      var nextSlot := if slotTaken then (wake.nextSlot + 1) % (U64_MAX + 1) else wake.nextSlot;
      w.(wakes := w.wakes[wakeId := wake.(nextSlot := nextSlot, granted := [])])
  }

  /** The drain returns: the requests whose leases it was granted reach the host. */
  function HandOver(w: World, wakeId: string): World {
    if wakeId !in w.wakes || !w.wakes[wakeId].inFlight.Idle? then w
    else
      var wake := w.wakes[wakeId];
      w.(wakes := w.wakes[wakeId := wake.(granted := [])], dispatched := w.dispatched + wake.granted)
  }

  // Completing a host-tool operation

  /** The first half of recording a host result: find the operation; a result that is already
      recorded is compared, not rewritten.  `refused` says that the provider's run would not take it. */
  function BeginComplete(w: World, wakeId: string, callId: string, text: string, refused: bool): World {
    if wakeId !in w.wakes || !w.wakes[wakeId].inFlight.Idle? then w
    else
      var wake := w.wakes[wakeId];
      if callId !in wake.callOperations || wake.callOperations[callId] !in w.ops then w
      else
        var id := wake.callOperations[callId];
        var operation := w.ops[id];
        var payload := Payload(Some(wakeId), Some(callId), FromHost(text));
        match operation.phase
        case Done =>
          if operation.payload == Some(payload) && !refused then
            w.(delivered := w.delivered + [Delivery(id, payload)])
          else w
        case Leased => w.(wakes := w.wakes[wakeId := wake.(inFlight := Completing(callId, id, operation, payload))])
        case _ => w
  }

  /** The phase a completion is stored with, if the store accepts it. */
  function CompletionPhase(turn: Turn, wake: Wake, epoch: Epoch): Option<OperationPhase> {
    if FenceHolds(turn, wake, epoch) then Some(Done)
    else if turn.cancellationGeneration != wake.cancellationGeneration then Some(DoneAfterCancel)
    else if turn.phase == CancelRequested || turn.phase == Cancelled then Some(DoneAfterCancel)
    else None
  }

  predicate Unchanged(ops: Ledger, id: string, observed: Operation) {
    && id in ops
    && ops[id].revision == observed.revision
    && ops[id].continuation == observed.continuation
    && ops[id].epoch == observed.epoch
    && ops[id].fingerprint == observed.fingerprint
  }

  function CommitComplete(w: World, wakeId: string, refused: bool): World {
    if wakeId !in w.wakes || !w.wakes[wakeId].inFlight.Completing? then w
    else
      var wake := w.wakes[wakeId];
      var c := wake.inFlight;
      var phase := CompletionPhase(w.turn, wake, c.observed.epoch);
      var next := w.(wakes := w.wakes[wakeId := wake.(inFlight := Idle)]);
      if phase.None? || !Unchanged(w.ops, c.operationId, c.observed) then next
      else
        var done := c.observed.(phase := phase.value, payload := Some(c.payload), revision := c.observed.revision + 1);
        var added := if phase.value == Done && !refused then [Delivery(c.operationId, c.payload)] else [];
        next.(ops := w.ops[c.operationId := done], delivered := w.delivered + added)
  }

  // Restart and operator resolution

  function OpsIn(ops: Ledger, phase: OperationPhase): set<string> {
    set id | id in ops && ops[id].phase == phase
  }

  function MarkUnknown(ops: Ledger): Ledger {
    map id | id in ops ::
      if ops[id].phase == Leased then ops[id].(phase := OutcomeUnknown, revision := ops[id].revision + 1) else ops[id]
  }

  /** Hydration at service start.  Wakes of other processes may still be alive. */
  function Hydrate(w: World): World {
    var next := w.turn.(epoch := None, revision := w.turn.revision + 1);
    if w.turn.phase.IsTerminal() || w.turn.phase == AttentionRequired then w
    else if w.turn.phase == CancelRequested then
      w.(turn := next.(phase := Cancelled, cancellationGeneration := w.turn.cancellationGeneration + 1))
    else if w.turn.phase == Running && OpsIn(w.ops, Leased) != {} then
      var one := |OpsIn(w.ops, Leased)| == 1;
      w.(turn := next.(phase := AttentionRequired, attention := Some(Attention(one, false, one))),
         ops := MarkUnknown(w.ops))
    else if w.turn.phase == Runnable then w
    else w.(turn := next.(phase := Runnable))
  }

  datatype Resolution = Retry | ConfirmCompleted | ConfirmNotCompleted

  function ResolvedOperation(operation: Operation, id: string, resolution: Resolution): Operation {
    if resolution == ConfirmCompleted then
      operation.(phase := Done, payload := Some(Payload(None, None, ConfirmedByOperator(id))),
                 revision := operation.revision + 1)
    else
      operation.(phase := Superseded, payload := None, revision := operation.revision + 1)
  }

  /** An operator resolves the attention the turn is waiting for. */
  ghost function Resolve(w: World, resolution: Resolution): World {
    var turn := w.turn.(phase := Runnable, attention := None, revision := w.turn.revision + 1);
    if w.turn.phase != AttentionRequired || w.turn.attention.None? then w
    else if resolution == Retry then
      if w.turn.attention.value.retryAllowed then w.(turn := turn) else w
    else if !w.turn.attention.value.toolOutcomeUnknown || !w.turn.attention.value.confirmAllowed then w
    else if |OpsIn(w.ops, OutcomeUnknown)| != 1 then w
    else
      var id :| id in OpsIn(w.ops, OutcomeUnknown);
      w.(turn := turn, ops := w.ops[id := ResolvedOperation(w.ops[id], id, resolution)])
  }

  // Runs

  datatype Step =
    | ClaimStep(wakeId: string, service: string)
    | PrepareStep(wakeId: string, callId: string, fingerprint: string, now: nat, refused: bool)
    | CommitLeaseStep(wakeId: string, takenElsewhere: bool)
    | AbortDrainStep(wakeId: string, slotTaken: bool)
    | HandOverStep(wakeId: string)
    | BeginCompleteStep(wakeId: string, callId: string, text: string, refused: bool)
    | CommitCompleteStep(wakeId: string, refused: bool)
    | SettleStep(wakeId: string, settlement: Settlement)
    | CancelStep
    | DropStep(wakeId: string)
    | HydrateStep
    | ResolveStep(resolution: Resolution)

  ghost function Take(w: World, step: Step): World {
    match step
    case ClaimStep(wakeId, service) => Claim(w, wakeId, service)
    case PrepareStep(wakeId, callId, fingerprint, now, refused) => Prepare(w, wakeId, callId, fingerprint, now, refused)
    case CommitLeaseStep(wakeId, takenElsewhere) => CommitLease(w, wakeId, takenElsewhere)
    case AbortDrainStep(wakeId, slotTaken) => AbortDrain(w, wakeId, slotTaken)
    case HandOverStep(wakeId) => HandOver(w, wakeId)
    case BeginCompleteStep(wakeId, callId, text, refused) => BeginComplete(w, wakeId, callId, text, refused)
    case CommitCompleteStep(wakeId, refused) => CommitComplete(w, wakeId, refused)
    case SettleStep(wakeId, settlement) => Settle(w, wakeId, settlement)
    case CancelStep => Cancel(w)
    case DropStep(wakeId) => Drop(w, wakeId)
    case HydrateStep => Hydrate(w)
    case ResolveStep(resolution) => Resolve(w, resolution)
  }

  ghost function Run(w: World, steps: seq<Step>): World {
    if steps == [] then w else Take(Run(w, steps[..|steps| - 1]), steps[|steps| - 1])
  }
}
