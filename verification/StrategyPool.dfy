/** The fixed worker pool that runs compaction strategies: a bounded queue, a fixed number of
    workers, and one single-slot result channel per call.  Steps of callers and workers interleave
    freely; a strategy may answer anything, late or never. */
module StrategyPool {
  import opened Wrappers
  import opened CompactionDecision

  const WORKER_COUNT: nat := 4
  const QUEUE_CAPACITY: nat := 32

  datatype Strategy = Strategy(id: string, revision: string)

  /** What a strategy makes of its input; a panic counts as a refusal. */
  datatype Answer = Answered(decision: Decision) | Refused

  datatype Failure =
    | InvalidInput(inputError: InputError)
    | NotSelected
    | CapacityExhausted
    | TimedOut
    | StrategyFailed
    | InvalidDecision(decisionError: DecisionError)

  datatype Status = Waiting | Returned(outcome: Result<Decision, Failure>)

  datatype Call = Call(strategy: Strategy, input: Input, status: Status)

  datatype Pool = Pool(
    workers: nat,
    capacity: nat,
    queue: seq<nat>,
    running: map<nat, nat>,
    channels: map<nat, Option<Answer>>,
    calls: map<nat, Call>,
    // What happened: accepted calls, calls a worker is done with, and what was answered.
    accepted: nat,
    finished: seq<nat>,
    answers: map<nat, Answer>)

  function NewPool(workers: nat, capacity: nat): Pool {
    Pool(workers, capacity, [], map[], map[], map[], 0, [], map[])
  }

  // Steps

  function SubmitOutcome(p: Pool, strategy: Strategy, input: Input): Option<Failure> {
    if ErrorInInput(input).Some? then Some(InvalidInput(ErrorInInput(input).value))
    else if strategy.id != input.policy.strategyId then Some(NotSelected)
    else if |p.queue| >= p.capacity then Some(CapacityExhausted)
    else None
  }

  /** A caller validates its input and offers the job; `id` names the call. */
  function Submit(p: Pool, id: nat, strategy: Strategy, input: Input): Pool {
    if id in p.calls then p
    else
      var failure := SubmitOutcome(p, strategy, input);
      if failure.Some? then p.(calls := p.calls[id := Call(strategy, input, Returned(Err(failure.value)))])
      else p.(calls := p.calls[id := Call(strategy, input, Waiting)], queue := p.queue + [id],
              channels := p.channels[id := None], accepted := p.accepted + 1)
  }

  /** An idle worker takes the oldest job. */
  function Take(p: Pool, worker: nat): Pool {
    if worker >= p.workers || worker in p.running || p.queue == [] then p
    else p.(queue := p.queue[1..], running := p.running[worker := p.queue[0]])
  }

  /** The worker's send would have to wait: someone still listens and the slot is full. */
  predicate SendBlocks(p: Pool, id: nat) {
    && id in p.calls && p.calls[id].status == Waiting
    && id in p.channels && p.channels[id].Some?
  }

  /** A worker's strategy answers; the answer is sent, or dropped when nobody listens any more. */
  function Finish(p: Pool, worker: nat, answer: Answer): Pool {
    if worker !in p.running || SendBlocks(p, p.running[worker]) then p
    else
      var id := p.running[worker];
      p.(running := p.running - {worker},
         finished := p.finished + [id],
         answers := p.answers[id := answer],
         channels := if id in p.calls && p.calls[id].status == Waiting then p.channels[id := Some(answer)]
                     else p.channels)
  }

  ghost function Received(call: Call, answer: Answer): Result<Decision, Failure> {
    match answer
    case Refused => Err(StrategyFailed)
    case Answered(d) =>
      var error := ErrorInDecision(call.input, call.strategy.id, call.strategy.revision, d);
      if error.Some? then Err(InvalidDecision(error.value)) else Ok(d)
  }

  predicate Listening(p: Pool, id: nat) {
    id in p.calls && p.calls[id].status == Waiting && id in p.channels
  }

  /** A waiting caller receives its answer and validates it. */
  ghost function Receive(p: Pool, id: nat): Pool {
    if !Listening(p, id) || p.channels[id].None? then p
    else p.(calls := p.calls[id := p.calls[id].(status := Returned(Received(p.calls[id], p.channels[id].value)))],
            channels := p.channels - {id})
  }

  /** A waiting caller gives up; the channel is gone. */
  function Timeout(p: Pool, id: nat): Pool {
    if !Listening(p, id) || p.channels[id].Some? then p
    else p.(calls := p.calls[id := p.calls[id].(status := Returned(Err(TimedOut)))], channels := p.channels - {id})
  }

  datatype Step =
    | SubmitStep(id: nat, strategy: Strategy, input: Input)
    | TakeStep(worker: nat)
    | FinishStep(worker: nat, answer: Answer)
    | ReceiveStep(id: nat)
    | TimeoutStep(id: nat)

  ghost function Do(p: Pool, step: Step): Pool {
    match step
    case SubmitStep(id, strategy, input) => Submit(p, id, strategy, input)
    case TakeStep(worker) => Take(p, worker)
    case FinishStep(worker, answer) => Finish(p, worker, answer)
    case ReceiveStep(id) => Receive(p, id)
    case TimeoutStep(id) => Timeout(p, id)
  }

  ghost function Run(p: Pool, steps: seq<Step>): Pool {
    if steps == [] then p else Do(Run(p, steps[..|steps| - 1]), steps[|steps| - 1])
  }

  // Invariants

  ghost predicate Bounded(p: Pool) {
    && |p.queue| <= p.capacity
    && (forall worker <- p.running :: worker < p.workers)
    && p.accepted == |p.queue| + |p.running| + |p.finished|
  }

  predicate DistinctCalls(s: seq<nat>) {
    forall i, j :: 0 <= i < j < |s| ==> s[i] != s[j]
  }

  /** Every accepted call is in one place only: queued, with one worker, or done. */
  ghost predicate OnePlace(queue: seq<nat>, running: map<nat, nat>, finished: seq<nat>) {
    && DistinctCalls(queue) && DistinctCalls(finished)
    && (forall v <- running, w <- running :: v != w ==> running[v] != running[w])
    && (forall id <- queue :: id !in finished)
    && (forall w <- running :: running[w] !in queue && running[w] !in finished)
  }

  ghost predicate PlacesAreCalls(p: Pool) {
    && (forall id <- p.queue :: id in p.calls)
    && (forall w <- p.running :: p.running[w] in p.calls)
    && (forall id <- p.finished :: id in p.calls)
    && (forall id :: id in p.answers <==> id in p.finished)
  }

  /** What a failure tells its caller is so. */
  ghost predicate FailureOk(call: Call, id: nat, failure: Failure, answers: map<nat, Answer>) {
    match failure
    case InvalidInput(error) => ErrorInInput(call.input) == Some(error)
    case NotSelected => ErrorInInput(call.input).None? && call.strategy.id != call.input.policy.strategyId
    case CapacityExhausted => ErrorInInput(call.input).None? && call.strategy.id == call.input.policy.strategyId
    case TimedOut => ErrorInInput(call.input).None?
    case StrategyFailed => id in answers && answers[id] == Refused
    case InvalidDecision(error) =>
      && id in answers && answers[id].Answered?
      && ErrorInDecision(call.input, call.strategy.id, call.strategy.revision, answers[id].decision) == Some(error)
  }

  ghost predicate CallOk(call: Call, id: nat, channels: map<nat, Option<Answer>>, answers: map<nat, Answer>) {
    match call.status
    case Waiting =>
      && ErrorInInput(call.input).None?
      && id in channels
      && channels[id] == (if id in answers then Some(answers[id]) else None)
    case Returned(Ok(d)) =>
      && id in answers && answers[id] == Answered(d)
      && Accepted(call.input, call.strategy.id, call.strategy.revision, d)
    case Returned(Err(failure)) => FailureOk(call, id, failure, answers)
  }

  ghost predicate CallsOk(p: Pool) {
    forall id <- p.calls :: CallOk(p.calls[id], id, p.channels, p.answers)
  }

  ghost predicate Inv(p: Pool) {
    Bounded(p) && OnePlace(p.queue, p.running, p.finished) && PlacesAreCalls(p) && CallsOk(p)
  }

  // Every step keeps them

  lemma SubmitKeepsCalls(p: Pool, id: nat, strategy: Strategy, input: Input)
    requires CallsOk(p) && (id !in p.calls ==> id !in p.answers)
    ensures CallsOk(Submit(p, id, strategy, input))
  {
    var next := Submit(p, id, strategy, input);
    forall k <- next.calls ensures CallOk(next.calls[k], k, next.channels, next.answers) {
      if k in p.calls {
        assert CallOk(p.calls[k], k, p.channels, p.answers);
      }
    }
  }

  lemma QueueingKeepsOnePlace(queue: seq<nat>, running: map<nat, nat>, finished: seq<nat>, id: nat)
    requires OnePlace(queue, running, finished) && id !in queue && id !in finished
    requires forall w <- running :: running[w] != id
    ensures OnePlace(queue + [id], running, finished)
  {
  }

  lemma SubmitKeeps(p: Pool, id: nat, strategy: Strategy, input: Input)
    requires Inv(p)
    ensures Inv(Submit(p, id, strategy, input))
  {
    if id !in p.calls {
      assert id !in p.queue && id !in p.finished && id !in p.answers;
      QueueingKeepsOnePlace(p.queue, p.running, p.finished, id);
    }
    SubmitKeepsCalls(p, id, strategy, input);
  }

  lemma TakeKeeps(p: Pool, worker: nat)
    requires Inv(p)
    ensures Inv(Take(p, worker))
  {
    var next := Take(p, worker);
    if next != p {
      var id := p.queue[0];
      assert p.queue == [id] + next.queue;
      assert |next.running| == |p.running| + 1;
      forall i | 0 <= i < |next.queue| ensures next.queue[i] != id {
        assert p.queue[0] != p.queue[i + 1];
      }
      assert OnePlace(next.queue, next.running, next.finished);
    }
  }

  lemma SendNeverBlocks(p: Pool, worker: nat)
    requires Inv(p) && worker in p.running
    ensures !SendBlocks(p, p.running[worker])
  {
    var id := p.running[worker];
    assert CallOk(p.calls[id], id, p.channels, p.answers);
  }

  lemma FinishingKeepsOnePlace(queue: seq<nat>, running: map<nat, nat>, finished: seq<nat>, worker: nat)
    requires OnePlace(queue, running, finished) && worker in running
    ensures OnePlace(queue, running - {worker}, finished + [running[worker]])
    ensures |running - {worker}| == |running| - 1
  {
    assert running.Keys == (running - {worker}).Keys + {worker};
  }

  lemma FinishKeepsCalls(p: Pool, worker: nat, answer: Answer)
    requires CallsOk(p) && worker in p.running && p.running[worker] !in p.answers
    ensures CallsOk(Finish(p, worker, answer))
  {
    var next := Finish(p, worker, answer);
    forall k <- next.calls ensures CallOk(next.calls[k], k, next.channels, next.answers) {
      assert CallOk(p.calls[k], k, p.channels, p.answers);
    }
  }

  lemma FinishKeeps(p: Pool, worker: nat, answer: Answer)
    requires Inv(p)
    ensures Inv(Finish(p, worker, answer))
  {
    if worker in p.running {
      SendNeverBlocks(p, worker);
      FinishKeepsCalls(p, worker, answer);
      FinishingKeepsOnePlace(p.queue, p.running, p.finished, worker);
    }
  }

  lemma ReceiveKeeps(p: Pool, id: nat)
    requires Inv(p)
    ensures Inv(Receive(p, id))
  {
    var next := Receive(p, id);
    if Listening(p, id) && p.channels[id].Some? {
      forall k <- next.calls ensures CallOk(next.calls[k], k, next.channels, next.answers) {
        assert CallOk(p.calls[k], k, p.channels, p.answers);
      }
    }
  }

  lemma TimeoutKeeps(p: Pool, id: nat)
    requires Inv(p)
    ensures Inv(Timeout(p, id))
  {
    var next := Timeout(p, id);
    if Listening(p, id) && p.channels[id].None? {
      forall k <- next.calls ensures CallOk(next.calls[k], k, next.channels, next.answers) {
        assert CallOk(p.calls[k], k, p.channels, p.answers);
      }
    }
  }

  lemma {:induction false} RunKeeps(p: Pool, steps: seq<Step>)
    requires Inv(p)
    ensures Inv(Run(p, steps)) && Run(p, steps).workers == p.workers && Run(p, steps).capacity == p.capacity
  {
    if steps != [] {
      RunKeeps(p, steps[..|steps| - 1]);
      StepKeeps(Run(p, steps[..|steps| - 1]), steps[|steps| - 1]);
    }
  }

  lemma StepKeeps(p: Pool, step: Step)
    requires Inv(p)
    ensures Inv(Do(p, step)) && Do(p, step).workers == p.workers && Do(p, step).capacity == p.capacity
  {
    match step
    case SubmitStep(id, strategy, input) => SubmitKeeps(p, id, strategy, input);
    case TakeStep(worker) => TakeKeeps(p, worker);
    case FinishStep(worker, answer) => FinishKeeps(p, worker, answer);
    case ReceiveStep(id) => ReceiveKeeps(p, id);
    case TimeoutStep(id) => TimeoutKeeps(p, id);
  }

  // Main results

  lemma {:induction false} KeysBelow(m: map<nat, nat>, n: nat)
    requires forall k <- m :: k < n
    ensures |m| <= n
  {
    SetBelow(m.Keys, n);
  }

  lemma {:induction false} SetBelow(s: set<nat>, n: nat)
    requires forall k <- s :: k < n
    ensures |s| <= n
    decreases n
  {
    if n == 0 {
      assert s == {};
    } else {
      SetBelow(s - {n - 1}, n - 1);
    }
  }

  /** In every interleaving the pool stays within its size: running jobs within the workers, queued
      ones within the capacity, and every accepted job accounted for in one place. */
  lemma PoolStaysBounded(workers: nat, capacity: nat, steps: seq<Step>)
    ensures var p := Run(NewPool(workers, capacity), steps);
            && |p.running| <= workers && |p.queue| <= capacity
            && p.accepted == |p.queue| + |p.running| + |p.finished|
            && OnePlace(p.queue, p.running, p.finished)
            && p.accepted - |p.finished| <= workers + capacity
  {
    RunKeeps(NewPool(workers, capacity), steps);
    KeysBelow(Run(NewPool(workers, capacity), steps).running, workers);
  }

  /** The pool the service runs: at most 36 accepted calls are ever unfinished, and a valid call beyond
      the queue is turned away rather than kept waiting. */
  lemma ExecutorStaysBounded(steps: seq<Step>, strategy: Strategy, input: Input)
    ensures var p := Run(NewPool(WORKER_COUNT, QUEUE_CAPACITY), steps);
            && p.workers == 4 && p.capacity == 32 && p.accepted - |p.finished| <= 36
            && (SubmitOutcome(p, strategy, input) == Some(CapacityExhausted) <==>
                  ErrorInInput(input).None? && strategy.id == input.policy.strategyId && |p.queue| == QUEUE_CAPACITY)
  {
    PoolStaysBounded(WORKER_COUNT, QUEUE_CAPACITY, steps);
    RunKeeps(NewPool(WORKER_COUNT, QUEUE_CAPACITY), steps);
  }

  /** No worker is ever held up by a caller, whether it listens or has given up. */
  lemma NoWorkerBlocks(workers: nat, capacity: nat, steps: seq<Step>, worker: nat, answer: Answer)
    requires worker in Run(NewPool(workers, capacity), steps).running
    ensures var p := Run(NewPool(workers, capacity), steps);
            Finish(p, worker, answer).running == p.running - {worker}
  {
    RunKeeps(NewPool(workers, capacity), steps);
    SendNeverBlocks(Run(NewPool(workers, capacity), steps), worker);
  }

  /** A decision a caller gets is one its own strategy gave for that very call, and it passed both
      validators against the caller's own input. */
  lemma ReturnedDecisionsAreValidated(workers: nat, capacity: nat, steps: seq<Step>, id: nat, d: Decision)
    requires var p := Run(NewPool(workers, capacity), steps);
             id in p.calls && p.calls[id].status == Returned(Ok(d))
    ensures var p := Run(NewPool(workers, capacity), steps);
            && id in p.answers && p.answers[id] == Answered(d)
            && Accepted(p.calls[id].input, p.calls[id].strategy.id, p.calls[id].strategy.revision, d)
  {
    RunKeeps(NewPool(workers, capacity), steps);
    var p := Run(NewPool(workers, capacity), steps);
    assert CallOk(p.calls[id], id, p.channels, p.answers);
  }

  /** A call never fails or succeeds twice: what a caller was told stays. */
  lemma {:induction false} ReturnsAreFinal(p: Pool, steps: seq<Step>, id: nat)
    requires id in p.calls && p.calls[id].status.Returned?
    ensures id in Run(p, steps).calls && Run(p, steps).calls[id] == p.calls[id]
  {
    if steps != [] {
      ReturnsAreFinal(p, steps[..|steps| - 1], id);
    }
  }

  /** A failure a caller was told of is true: the input or the strategy was wrong, the strategy refused, or
      its answer did not pass. */
  lemma ReportedFailuresAreTrue(workers: nat, capacity: nat, steps: seq<Step>, id: nat, failure: Failure)
    requires var p := Run(NewPool(workers, capacity), steps);
             id in p.calls && p.calls[id].status == Returned(Err(failure))
    ensures var p := Run(NewPool(workers, capacity), steps);
            FailureOk(p.calls[id], id, failure, p.answers)
  {
    RunKeeps(NewPool(workers, capacity), steps);
    var p := Run(NewPool(workers, capacity), steps);
    assert CallOk(p.calls[id], id, p.channels, p.answers);
  }

  /** A call is made to wait exactly when its input is valid, its strategy is the selected one and the queue
      has room; it is then the last in line. */
  lemma CallWaitsIff(p: Pool, id: nat, strategy: Strategy, input: Input)
    requires Inv(p) && id !in p.calls
    ensures var next := Submit(p, id, strategy, input);
            && id in next.calls && next.calls[id].strategy == strategy && next.calls[id].input == input
            && (next.calls[id].status == Waiting <==>
                  ValidInput(input) && strategy.id == input.policy.strategyId && |p.queue| < p.capacity)
            && next.queue == p.queue + (if next.calls[id].status == Waiting then [id] else [])
            && next.running == p.running && next.finished == p.finished
  {
    InputPassesIff(input);
  }

  /** A waiting caller is answered exactly when its strategy has answered, and can give up exactly until
      then.  It gets the decision exactly when that passes both validators. */
  lemma WaitingEndsWithTheAnswer(p: Pool, id: nat)
    requires Inv(p) && id in p.calls && p.calls[id].status == Waiting
    ensures Receive(p, id) != p <==> id in p.answers
    ensures Timeout(p, id) != p <==> id !in p.answers
    ensures id !in p.answers ==> Timeout(p, id).calls == p.calls[id := p.calls[id].(status := Returned(Err(TimedOut)))]
    ensures id in p.answers ==>
              var call, told := p.calls[id], Receive(p, id).calls[id].status;
              && Receive(p, id).calls == p.calls[id := call.(status := told)]
              && (match p.answers[id]
                  case Refused => told == Returned(Err(StrategyFailed))
                  case Answered(d) =>
                    && (told == Returned(Ok(d)) <==> Accepted(call.input, call.strategy.id, call.strategy.revision, d))
                    && (told != Returned(Ok(d)) ==> told.outcome.Err? && told.outcome.error.InvalidDecision?))
  {
    assert CallOk(p.calls[id], id, p.channels, p.answers);
    assert id in Receive(p, id).calls && id in Timeout(p, id).calls;
  }

  /** An idle worker takes a job off a queue that has one. */
  lemma IdleWorkerTakesAJob(p: Pool, worker: nat)
    requires worker < p.workers && worker !in p.running && p.queue != []
    ensures var next := Take(p, worker);
            && worker in next.running && next.running == p.running[worker := next.running[worker]]
            && p.queue == [next.running[worker]] + next.queue && next.calls == p.calls && next.finished == p.finished
  {
  }

  predicate InFrontOf(queue: seq<nat>, x: nat, y: nat) {
    forall i, j :: 0 <= i < |queue| && 0 <= j < |queue| && queue[i] == x && queue[j] == y ==> i < j
  }

  /** As long as an earlier job waits, no later one has been started, and all later ones are behind it. */
  ghost predicate NotOvertaken(earlier: map<nat, Call>, p: Pool, x: nat) {
    x in p.queue ==>
      && (forall w <- p.running :: p.running[w] in earlier)
      && (forall id <- p.finished :: id in earlier)
      && (forall y <- p.queue | y !in earlier :: InFrontOf(p.queue, x, y))
  }

  lemma SubmittingOvertakesNothing(earlier: map<nat, Call>, p: Pool, id: nat, strategy: Strategy, input: Input, x: nat)
    requires Inv(p) && NotOvertaken(earlier, p, x) && x in p.calls
    ensures NotOvertaken(earlier, Submit(p, id, strategy, input), x)
  {
    if id !in p.calls {
      var next := Submit(p, id, strategy, input);
      CallWaitsIff(p, id, strategy, input);
      hide Submit, Inv;
      forall y <- next.queue | y !in earlier && x in next.queue ensures InFrontOf(next.queue, x, y) {
        assert y != id ==> InFrontOf(p.queue, x, y);
      }
    }
  }

  lemma StepOvertakesNothing(earlier: map<nat, Call>, p: Pool, step: Step, x: nat)
    requires Inv(p) && NotOvertaken(earlier, p, x) && x in earlier && earlier.Keys <= p.calls.Keys
    ensures NotOvertaken(earlier, Do(p, step), x) && earlier.Keys <= Do(p, step).calls.Keys
  {
    hide Inv, InFrontOf;
    match step
    case SubmitStep(id, strategy, input) => SubmittingOvertakesNothing(earlier, p, id, strategy, input, x);
    case TakeStep(worker) => TakingOvertakesNothing(earlier, p, worker, x);
    case _ =>
  }

  lemma TakingOvertakesNothing(earlier: map<nat, Call>, p: Pool, worker: nat, x: nat)
    requires Inv(p) && NotOvertaken(earlier, p, x)
    ensures NotOvertaken(earlier, Take(p, worker), x)
  {
    var next := Take(p, worker);
    if next != p && x in next.queue {
      IdleWorkerTakesAJob(p, worker);
      var k :| 0 <= k < |next.queue| && next.queue[k] == x;
      assert p.queue[k + 1] == x;
      assert p.queue[0] !in earlier ==> InFrontOf(p.queue, x, p.queue[0]);
      forall y <- next.queue | y !in earlier ensures InFrontOf(next.queue, x, y) {
        assert y in p.queue && InFrontOf(p.queue, x, y);
        assert forall i :: 0 <= i < |next.queue| ==> next.queue[i] == p.queue[i + 1];
      }
    }
  }

  lemma {:induction false} RunOvertakesNothing(earlier: map<nat, Call>, p: Pool, steps: seq<Step>, x: nat)
    requires Inv(p) && NotOvertaken(earlier, p, x) && x in earlier && earlier.Keys <= p.calls.Keys
    ensures NotOvertaken(earlier, Run(p, steps), x) && earlier.Keys <= Run(p, steps).calls.Keys
  {
    if steps != [] {
      var mid := Run(p, steps[..|steps| - 1]);
      RunOvertakesNothing(earlier, p, steps[..|steps| - 1], x);
      RunKeeps(p, steps[..|steps| - 1]);
      StepOvertakesNothing(earlier, mid, steps[|steps| - 1], x);
    }
  }

  /** Jobs are started oldest first: in every continuation, when a call made later has been taken by a
      worker, a job that was waiting before it no longer is. */
  lemma OldestJobFirst(p: Pool, steps: seq<Step>, x: nat, y: nat, worker: nat)
    requires Inv(p) && x in p.queue && y !in p.calls
    requires var q := Run(p, steps);
             y in q.finished || (worker in q.running && q.running[worker] == y)
    ensures x !in Run(p, steps).queue
  {
    assert x in p.calls;
    RunOvertakesNothing(p.calls, p, steps, x);
  }
}
