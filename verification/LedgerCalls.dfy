/** A wake that completes its calls one after the other, its death, and the replay of all of them. */
module LedgerCalls {
  import opened Wrappers
  import opened Text
  import opened OperationIds
  import opened OperationLedger
  import opened LedgerSafety
  import opened LedgerRuns
  import opened LedgerReplay
  import opened LedgerOutcomes

  /** A call from request to recorded result. */
  datatype Call = Call(request: Request, text: string)

  function Ask(k: string, call: Call, now: nat): seq<Step> {
    [PrepareOne(k, call.request, now), CommitLeaseStep(k, false), HandOverStep(k)]
  }

  function Answer(k: string, call: Call): seq<Step> {
    [BeginCompleteStep(k, call.request.callId, call.text, false), CommitCompleteStep(k, false)]
  }

  function CallAll(k: string, calls: seq<Call>, now: nat): seq<Step> {
    if calls == [] then []
    else
      CallAll(k, calls[..|calls| - 1], now) + (Ask(k, calls[|calls| - 1], now) + Answer(k, calls[|calls| - 1]))
  }

  function RequestsOf(calls: seq<Call>): (requests: seq<Request>)
    ensures |requests| == |calls|
  {
    if calls == [] then [] else RequestsOf(calls[..|calls| - 1]) + [calls[|calls| - 1].request]
  }

  function FirstAttempts(n: nat): (attempts: seq<nat>)
    ensures |attempts| == n
  {
    seq(n, _ => 0)
  }

  /** One wake has completed its first `n` calls, each at the first attempt, and nothing else is stored. */
  ghost predicate Completed(w: World, k: string, c: string, n: nat) {
    && AtSlot(w, k, c, n) && FenceHolds(w.turn, w.wakes[k], w.wakes[k].epoch) && w.turn.continuation == c
    && (forall id <- w.names :: w.names[id].slot < n)
    && OpsIn(w.ops, Leased) == {}
  }

  lemma SlotIsFree(w: World, c: string, n: nat, fingerprint: string)
    requires NamesInv(w.turnId, w.ops, w.names) && forall id <- w.names :: w.names[id].slot < n
    ensures PlanFor(w.ops, SlotId(w.turnId, c, n), fingerprint) == Lease(0)
    ensures IdOf(w.turnId, Name(c, n, 0)) !in w.ops
  {
    var slotId := SlotId(w.turnId, c, n);
    forall id <- w.ops ensures AttemptOf(slotId, id) == None {
      var name := w.names[id];
      assert Named(w.turnId, id, name, w.ops[id].continuation);
      AttemptsAreReadBackExactly(w.turnId, c, n, name.continuation, name.slot, name.attempt);
    }
    AttemptOfAttemptId(slotId, 0);
    assert AttemptsIn(w.ops, slotId) == {};
  }

  /** The call has been leased and handed over, and its result is awaited. */
  ghost predicate Awaiting(w: World, k: string, c: string, n: nat, request: Request, id: string) {
    && AtSlot(w, k, c, n + 1) && FenceHolds(w.turn, w.wakes[k], w.wakes[k].epoch) && w.turn.continuation == c
    && id == IdOf(w.turnId, Name(c, n, 0)) && id in w.ops
    && w.ops[id].phase == Leased && w.ops[id].epoch == w.wakes[k].epoch && w.ops[id].fingerprint == request.fingerprint
    && request.callId in w.wakes[k].callOperations && w.wakes[k].callOperations[request.callId] == id
    && (forall x <- w.names :: w.names[x].slot < n + 1)
    && OpsIn(w.ops, Leased) == {id}
  }

  function AfterAsking(wake: Wake, n: nat, callId: string, id: string): Wake {
    wake.(nextSlot := n + 1, callOperations := wake.callOperations[callId := id], granted := [], inFlight := Idle)
  }

  lemma Prepared(w: World, k: string, c: string, n: nat, request: Request, now: nat)
    requires AtSlot(w, k, c, n) && n < U64_MAX
    requires PlanFor(w.ops, SlotId(w.turnId, c, n), request.fingerprint) == Lease(0)
    ensures var lease := NewLease(w.wakes[k], request.fingerprint, now);
            var inFlight := Leasing(request.callId, Name(c, n, 0), lease);
            Prepare(w, k, request.callId, request.fingerprint, now, false) ==
            w.(wakes := w.wakes[k := w.wakes[k].(nextSlot := n + 1, inFlight := inFlight)])
  {
    hide PlanFor, SlotId;
    NextSlot(n);
  }

  lemma LeasedAndHandedOver(w: World, k: string, callId: string, name: Name, o: Operation, id: string)
    requires k in w.wakes && w.wakes[k].inFlight == Leasing(callId, name, o) && w.wakes[k].granted == []
    requires id == IdOf(w.turnId, name) && id !in w.ops && FenceHolds(w.turn, w.wakes[k], o.epoch)
    ensures HandOver(CommitLease(w, k, false), k) ==
            w.(wakes := w.wakes[k := w.wakes[k].(callOperations := w.wakes[k].callOperations[callId := id],
                                                 inFlight := Idle)],
               ops := w.ops[id := o], names := w.names[id := name], dispatched := w.dispatched + [id])
  {
    hide IdOf;
    var wake := w.wakes[k];
    var wake' := wake.(callOperations := wake.callOperations[callId := id], granted := [id], inFlight := Idle);
    assert LeasedWake(wake, callId, id) == wake' by {
      assert [] + [id] == [id];
    }
    assert CommitLease(w, k, false) ==
           w.(wakes := w.wakes[k := wake'], ops := w.ops[id := o], names := w.names[id := name]);
    assert wake'.(granted := []) == wake.(callOperations := wake.callOperations[callId := id], inFlight := Idle);
  }

  lemma LeaseIsCurrent(w: World, k: string, fingerprint: string, now: nat)
    requires k in w.wakes
    ensures NewLease(w.wakes[k], fingerprint, now).epoch == w.wakes[k].epoch
  {
  }

  lemma NextSlotIsFree(w: World, k: string, c: string, n: nat, fingerprint: string, id: string)
    requires Inv(w) && Completed(w, k, c, n) && id == IdOf(w.turnId, Name(c, n, 0))
    ensures PlanFor(w.ops, SlotId(w.turnId, c, n), fingerprint) == Lease(0) && id !in w.ops
    ensures AtSlot(w, k, c, n) && FenceHolds(w.turn, w.wakes[k], w.wakes[k].epoch)
  {
    SlotIsFree(w, c, n, fingerprint);
  }

  lemma AskedShape(w: World, k: string, c: string, n: nat, request: Request, now: nat, id: string, next: World)
    requires Inv(w) && Completed(w, k, c, n) && n < U64_MAX && id == IdOf(w.turnId, Name(c, n, 0))
    requires next == HandOver(CommitLease(Prepare(w, k, request.callId, request.fingerprint, now, false), k, false), k)
    ensures id !in w.ops
    ensures next ==
            w.(wakes := w.wakes[k := AfterAsking(w.wakes[k], n, request.callId, id)],
               ops := w.ops[id := NewLease(w.wakes[k], request.fingerprint, now)],
               names := w.names[id := Name(c, n, 0)], dispatched := w.dispatched + [id])
  {
    hide IdOf, SlotId, PlanFor, Prepare, CommitLease, HandOver, Inv, Completed, NewLease;
    NextSlotIsFree(w, k, c, n, request.fingerprint, id);
    Prepared(w, k, c, n, request, now);
    var prepared := Prepare(w, k, request.callId, request.fingerprint, now, false);
    var lease := NewLease(w.wakes[k], request.fingerprint, now);
    LeaseIsCurrent(w, k, request.fingerprint, now);
    LeasedAndHandedOver(prepared, k, request.callId, Name(c, n, 0), lease, id);
  }

  lemma Asked(w: World, k: string, c: string, n: nat, request: Request, now: nat, id: string, next: World)
    requires Inv(w) && Completed(w, k, c, n) && n < U64_MAX && id == IdOf(w.turnId, Name(c, n, 0))
    requires next == HandOver(CommitLease(Prepare(w, k, request.callId, request.fingerprint, now, false), k, false), k)
    ensures Awaiting(next, k, c, n, request, id) && next.turnId == w.turnId
    ensures forall x <- w.ops :: x in next.ops && next.ops[x] == w.ops[x]
    ensures next.dispatched == w.dispatched + [id]
  {
    AskedShape(w, k, c, n, request, now, id, next);
    ShapeAwaits(w, k, c, n, request, now, id, next);
  }

  lemma ShapeAwaits(w: World, k: string, c: string, n: nat, request: Request, now: nat, id: string, next: World)
    requires Completed(w, k, c, n) && id == IdOf(w.turnId, Name(c, n, 0)) && id !in w.ops
    requires next ==
             w.(wakes := w.wakes[k := AfterAsking(w.wakes[k], n, request.callId, id)],
                ops := w.ops[id := NewLease(w.wakes[k], request.fingerprint, now)],
                names := w.names[id := Name(c, n, 0)], dispatched := w.dispatched + [id])
    ensures Awaiting(next, k, c, n, request, id)
  {
    hide IdOf;
    assert OpsIn(next.ops, Leased) == {id} by {
      forall x | x in w.ops ensures w.ops[x].phase != Leased {
        assert x !in OpsIn(w.ops, Leased);
      }
    }
  }

  function Done(o: Operation, k: string, call: Call): Operation {
    o.(phase := OperationPhase.Done,
       payload := Some(Payload(Some(k), Some(call.request.callId), FromHost(call.text))),
       revision := o.revision + 1)
  }

  lemma AnsweredShape(w: World, k: string, c: string, n: nat, call: Call, id: string, next: World)
    requires Awaiting(w, k, c, n, call.request, id)
    requires next == CommitComplete(BeginComplete(w, k, call.request.callId, call.text, false), k, false)
    ensures next == w.(ops := w.ops[id := Done(w.ops[id], k, call)], wakes := next.wakes, delivered := next.delivered)
    ensures next.wakes == w.wakes[k := w.wakes[k]]
  {
    hide IdOf;
    var payload := Payload(Some(k), Some(call.request.callId), FromHost(call.text));
    var begun := BeginComplete(w, k, call.request.callId, call.text, false);
    var wake := w.wakes[k].(inFlight := Completing(call.request.callId, id, w.ops[id], payload));
    assert begun == w.(wakes := w.wakes[k := wake]);
  }

  lemma Answered(w: World, k: string, c: string, n: nat, call: Call, id: string, next: World)
    requires Awaiting(w, k, c, n, call.request, id)
    requires next == CommitComplete(BeginComplete(w, k, call.request.callId, call.text, false), k, false)
    ensures Completed(next, k, c, n + 1) && next.turnId == w.turnId && next.dispatched == w.dispatched
    ensures Recorded(next.turnId, next.ops, c, n, 0, call.request.fingerprint)
    ensures forall x <- w.ops | x != id :: x in next.ops && next.ops[x] == w.ops[x]
  {
    AnsweredShape(w, k, c, n, call, id, next);
    hide IdOf, BeginComplete, CommitComplete;
    forall x | x in next.ops ensures next.ops[x].phase != Leased {
      assert x in w.ops && x != id ==> x !in OpsIn(w.ops, Leased);
    }
  }

  /** Earlier results stay when only other names are written. */
  lemma RecordsStay(turnId: string, ops: Ledger, ops': Ledger, c: string, requests: seq<Request>, attempts: seq<nat>)
    requires AllRecorded(turnId, ops, c, requests, attempts) && forall x <- ops :: x in ops' && ops'[x] == ops[x]
    ensures AllRecorded(turnId, ops', c, requests, attempts)
  {
    hide IdOf;
    forall i | 0 <= i < |requests| ensures Recorded(turnId, ops', c, i, attempts[i], requests[i].fingerprint) {
      assert Recorded(turnId, ops, c, i, attempts[i], requests[i].fingerprint);
    }
  }

  lemma {:induction false} OneMoreRecord(turnId: string, ops: Ledger, c: string, calls: seq<Call>)
    requires calls != []
    requires var n := |calls| - 1;
             AllRecorded(turnId, ops, c, RequestsOf(calls[..n]), FirstAttempts(n)) &&
             Recorded(turnId, ops, c, n, 0, calls[n].request.fingerprint)
    ensures AllRecorded(turnId, ops, c, RequestsOf(calls), FirstAttempts(|calls|))
  {
    hide IdOf, Recorded;
    var n := |calls| - 1;
    var requests, attempts := RequestsOf(calls), FirstAttempts(|calls|);
    forall i | 0 <= i < |calls| ensures Recorded(turnId, ops, c, i, attempts[i], requests[i].fingerprint) {
      if i < n {
        assert Recorded(turnId, ops, c, i, FirstAttempts(n)[i], RequestsOf(calls[..n])[i].fingerprint);
      }
    }
  }

  lemma FiveSteps(w: World, steps: seq<Step>, k: string, call: Call, now: nat)
    ensures var mid := Run(w, steps);
            var asked := HandOver(CommitLease(Take(mid, PrepareOne(k, call.request, now)), k, false), k);
            Run(w, steps + (Ask(k, call, now) + Answer(k, call))) ==
            CommitComplete(BeginComplete(asked, k, call.request.callId, call.text, false), k, false)
  {
    hide Prepare, CommitLease, HandOver, BeginComplete, CommitComplete;
    var ask, answer := Ask(k, call, now), Answer(k, call);
    var mid := Run(w, steps);
    RunConcat(w, steps, ask + answer);
    RunConcat(mid, ask, answer);
    ThreeSteps(mid, ask[0], ask[1], ask[2]);
    assert ask == [ask[0], ask[1], ask[2]];
    var asked := Run(mid, ask);
    TwoSteps(asked, answer[0], answer[1]);
    assert answer == [answer[0], answer[1]];
  }

  /** The wake completes its calls one after the other: each is handed over once, and its result is
      recorded in its slot. */
  lemma {:induction false} CallsAreRecorded(w: World, k: string, c: string, calls: seq<Call>, now: nat)
    requires Inv(w) && Completed(w, k, c, 0) && |calls| <= U64_MAX
    ensures var end := Run(w, CallAll(k, calls, now));
            && Completed(end, k, c, |calls|) && end.turnId == w.turnId
            && AllRecorded(end.turnId, end.ops, c, RequestsOf(calls), FirstAttempts(|calls|))
            && |end.dispatched| == |w.dispatched| + |calls|
  {
    if calls != [] {
      var n := |calls| - 1;
      var steps := CallAll(k, calls[..n], now);
      CallsAreRecorded(w, k, c, calls[..n], now);
      RunKeeps(w, steps);
      OneMoreCall(w, k, c, calls, now, steps);
    }
  }

  /** One call more: asked, handed over and answered. */
  lemma {:induction false} OneCall(mid: World, k: string, c: string, n: nat, call: Call, now: nat, end: World)
    requires Inv(mid) && Completed(mid, k, c, n) && n < U64_MAX
    requires var prepared := Prepare(mid, k, call.request.callId, call.request.fingerprint, now, false);
             var asked := HandOver(CommitLease(prepared, k, false), k);
             end == CommitComplete(BeginComplete(asked, k, call.request.callId, call.text, false), k, false)
    ensures Completed(end, k, c, n + 1) && end.turnId == mid.turnId && |end.dispatched| == |mid.dispatched| + 1
    ensures Recorded(end.turnId, end.ops, c, n, 0, call.request.fingerprint)
    ensures forall x <- mid.ops :: x in end.ops && end.ops[x] == mid.ops[x]
  {
    hide Prepare, CommitLease, HandOver, BeginComplete, CommitComplete, Inv, Completed, Awaiting, Recorded;
    hide IdOf, SlotId, PlanFor;
    var id := IdOf(mid.turnId, Name(c, n, 0));
    var prepared := Prepare(mid, k, call.request.callId, call.request.fingerprint, now, false);
    var asked := HandOver(CommitLease(prepared, k, false), k);
    Asked(mid, k, c, n, call.request, now, id, asked);
    Answered(asked, k, c, n, call, id, end);
    NextSlotIsFree(mid, k, c, n, call.request.fingerprint, id);
  }

  lemma {:induction false} OneMoreCall(w: World, k: string, c: string, calls: seq<Call>, now: nat, steps: seq<Step>)
    requires calls != [] && |calls| <= U64_MAX && steps == CallAll(k, calls[..|calls| - 1], now)
    requires Inv(Run(w, steps)) && Completed(Run(w, steps), k, c, |calls| - 1)
    requires var mid := Run(w, steps);
             AllRecorded(mid.turnId, mid.ops, c, RequestsOf(calls[..|calls| - 1]), FirstAttempts(|calls| - 1))
    ensures var mid, end := Run(w, steps), Run(w, CallAll(k, calls, now));
            && Completed(end, k, c, |calls|) && end.turnId == mid.turnId
            && AllRecorded(end.turnId, end.ops, c, RequestsOf(calls), FirstAttempts(|calls|))
            && |end.dispatched| == |mid.dispatched| + 1
  {
    hide Prepare, CommitLease, HandOver, BeginComplete, CommitComplete, Inv, Completed, AllRecorded, Recorded, Run;
    var n: nat := |calls| - 1;
    var mid, end := Run(w, steps), Run(w, CallAll(k, calls, now));
    FiveSteps(w, steps, k, calls[n], now);
    OneCall(mid, k, c, n, calls[n], now, end);
    RecordsStay(mid.turnId, mid.ops, end.ops, c, RequestsOf(calls[..n]), FirstAttempts(n));
    OneMoreRecord(end.turnId, end.ops, c, calls);
  }

  lemma JustClaimed(turnId: string, c: string, revision: nat, k: string, service: string)
    ensures var w := Claim(NewWorld(turnId, c, revision), k, service);
            Run(NewWorld(turnId, c, revision), [ClaimStep(k, service)]) == w && Completed(w, k, c, 0)
  {
    var w0 := NewWorld(turnId, c, revision);
    OneStep(w0, ClaimStep(k, service));
  }

  /** A call whose turn is cancelled before the host answers, from a new turn: the host was asked once, its
      answer is kept in the ledger, and the provider is not given it. */
  lemma CancelledCallKeepsItsResult(turnId: string, c: string, revision: nat, k: string, service: string,
                                    call: Call, now: nat)
    ensures var steps := [ClaimStep(k, service)] + Ask(k, call, now) + ([CancelStep] + Answer(k, call));
            var end := Run(NewWorld(turnId, c, revision), steps);
            var id := IdOf(turnId, Name(c, 0, 0));
            && end.ops.Keys == {id} && end.ops[id].phase == DoneAfterCancel
            && end.ops[id].payload == Some(Payload(Some(k), Some(call.request.callId), FromHost(call.text)))
            && end.dispatched == [id] && end.delivered == []
  {
    hide Prepare, CommitLease, HandOver, BeginComplete, CommitComplete, Cancel, Inv, IdOf, SlotId, PlanFor, Run;
    var w0, claimed := NewWorld(turnId, c, revision), [ClaimStep(k, service)];
    var w1 := Claim(w0, k, service);
    JustClaimed(turnId, c, revision, k, service);
    EveryRunIsSafe(turnId, c, revision, claimed);
    AskThenCancel(w0, w1, claimed, k, call, now);
    var id := IdOf(turnId, Name(c, 0, 0));
    var prepared := Prepare(w1, k, call.request.callId, call.request.fingerprint, now, false);
    var asked := HandOver(CommitLease(prepared, k, false), k);
    AskedShape(w1, k, c, 0, call.request, now, id, asked);
    Asked(w1, k, c, 0, call.request, now, id, asked);
    assert asked.delivered == [] && asked.ops.Keys == {id};
    EveryRunIsSafe(turnId, c, revision, claimed + Ask(k, call, now));
    LateResultIsKept(asked, k, call.request.callId, call.text, false);
  }

  lemma AskThenCancel(w0: World, w1: World, claimed: seq<Step>, k: string, call: Call, now: nat)
    requires Run(w0, claimed) == w1
    ensures var asked := Run(w0, claimed + Ask(k, call, now));
            && asked == HandOver(CommitLease(Take(w1, PrepareOne(k, call.request, now)), k, false), k)
            && Run(w0, claimed + Ask(k, call, now) + ([CancelStep] + Answer(k, call))) ==
               CommitComplete(BeginComplete(Cancel(asked), k, call.request.callId, call.text, false), k, false)
  {
    hide Prepare, CommitLease, HandOver, BeginComplete, CommitComplete, Cancel;
    var ask, answer := Ask(k, call, now), Answer(k, call);
    RunConcat(w0, claimed, ask);
    ThreeSteps(w1, ask[0], ask[1], ask[2]);
    assert ask == [ask[0], ask[1], ask[2]];
    var asked := Run(w0, claimed + ask);
    RunConcat(w0, claimed + ask, [CancelStep] + answer);
    ThreeSteps(asked, CancelStep, answer[0], answer[1]);
    assert [CancelStep] + answer == [CancelStep, answer[0], answer[1]];
  }

  /** A first wake completes its calls and dies, the service restarts, and a second wake asks again. */
  function WholeStory(k: string, k': string, service: string, service': string,
                      calls: seq<Call>, again: seq<Request>, now: nat)
    : seq<Step>
  {
    [ClaimStep(k, service)] + CallAll(k, calls, now) + (Restart(k, k', service') + PrepareAll(k', again, now))
  }

  /** End to end from a new turn: whatever was called and answered, the second wake gets exactly the
      recorded results, in order, and the host is asked once per call and never again. */
  lemma CompletedCallsAreReplayed(turnId: string, c: string, revision: nat, k: string, k': string, service: string,
                                  service': string, calls: seq<Call>, now: nat)
    requires |calls| <= U64_MAX
    ensures var before := Run(NewWorld(turnId, c, revision), [ClaimStep(k, service)] + CallAll(k, calls, now));
            var end := Run(NewWorld(turnId, c, revision),
                           WholeStory(k, k', service, service', calls, RequestsOf(calls), now));
            && AllRecorded(turnId, before.ops, c, RequestsOf(calls), FirstAttempts(|calls|))
            && |before.dispatched| == |calls| && end.dispatched == before.dispatched && end.ops == before.ops
            && end.delivered ==
               before.delivered + Replays(turnId, before.ops, c, k', RequestsOf(calls), FirstAttempts(|calls|))
  {
    hide Take, Recorded;
    var w0 := NewWorld(turnId, c, revision);
    var claimed := [ClaimStep(k, service)];
    var w1 := Claim(w0, k, service);
    JustClaimed(turnId, c, revision, k, service);
    EveryRunIsSafe(turnId, c, revision, claimed);
    CallsAreRecorded(w1, k, c, calls, now);
    RunConcat(w0, claimed, CallAll(k, calls, now));
    var before := Run(w1, CallAll(k, calls, now));
    RunKeeps(w1, CallAll(k, calls, now));
    OnlyOneWake(w1, k, calls, now, k');
    RestartedWakeIsReplayed(before, k, k', service', c, RequestsOf(calls), FirstAttempts(|calls|), now);
    RunConcat(w0, claimed + CallAll(k, calls, now), Restart(k, k', service') + PrepareAll(k', RequestsOf(calls), now));
  }

  predicate NoClaims(steps: seq<Step>) {
    forall i :: 0 <= i < |steps| ==> !steps[i].ClaimStep?
  }

  lemma StepAddsNoWake(w: World, step: Step, l: string)
    requires !step.ClaimStep? && l !in w.wakes
    ensures l !in Take(w, step).wakes
  {
    hide IdOf, SlotId, PlanFor, WakeAfterPlan;
  }

  lemma {:induction false} RunAddsNoWake(w: World, steps: seq<Step>, l: string)
    requires NoClaims(steps) && l !in w.wakes
    ensures l !in Run(w, steps).wakes
  {
    hide Take;
    if steps != [] {
      RunAddsNoWake(w, steps[..|steps| - 1], l);
      StepAddsNoWake(Run(w, steps[..|steps| - 1]), steps[|steps| - 1], l);
    }
  }

  lemma {:induction false} CallsMakeNoClaim(k: string, calls: seq<Call>, now: nat)
    ensures NoClaims(CallAll(k, calls, now))
  {
    if calls != [] {
      CallsMakeNoClaim(k, calls[..|calls| - 1], now);
    }
  }

  /** The calls of a wake bring in no other. */
  lemma OnlyOneWake(w: World, k: string, calls: seq<Call>, now: nat, l: string)
    requires l != k ==> l !in w.wakes
    ensures l != k ==> l !in Run(w, CallAll(k, calls, now)).wakes
  {
    if l != k {
      CallsMakeNoClaim(k, calls, now);
      RunAddsNoWake(w, CallAll(k, calls, now), l);
    }
  }
}
