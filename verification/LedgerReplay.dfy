/** A restarted wake and the recorded results of the one before it. */
module LedgerReplay {
  import opened Wrappers
  import opened Text
  import opened OperationIds
  import opened OperationLedger
  import opened LedgerSafety
  import opened LedgerRuns

  lemma LatestCovers(turnId: string, ops: Ledger, names: map<string, Name>, c: string, slot: nat, a: nat)
    requires NamesInv(turnId, ops, names) && a <= U64_MAX && IdOf(turnId, Name(c, slot, a)) in ops
    ensures var latest := Latest(ops, SlotId(turnId, c, slot));
            && latest.Some? && a <= latest.value.0 <= U64_MAX
            && latest.value.1 == IdOf(turnId, Name(c, slot, latest.value.0))
  {
    LatestIsTheLatest(turnId, ops, names, c, slot);
  }

  lemma LatestIsTheStandingAttempt(w: World, c: string, slot: nat, a: nat)
    requires Inv(w) && a <= U64_MAX && IdOf(w.turnId, Name(c, slot, a)) in w.ops
    requires w.ops[IdOf(w.turnId, Name(c, slot, a))].phase != Superseded
    ensures Latest(w.ops, SlotId(w.turnId, c, slot)) == Some((a, IdOf(w.turnId, Name(c, slot, a))))
  {
    LatestCovers(w.turnId, w.ops, w.names, c, slot, a);
    var latest := Latest(w.ops, SlotId(w.turnId, c, slot));
    StandingAttemptIsLast(w, c, slot, a, latest.value.0);
  }

  lemma StandingAttemptIsLast(w: World, c: string, slot: nat, a: nat, top: nat)
    requires Inv(w) && a <= top <= U64_MAX && IdOf(w.turnId, Name(c, slot, top)) in w.ops
    requires IdOf(w.turnId, Name(c, slot, a)) in w.ops && w.ops[IdOf(w.turnId, Name(c, slot, a))].phase != Superseded
    ensures a == top
  {
    if a < top {
      SlotIsAChain(w, c, slot, a, top);
    }
  }

  /** A recorded result, readdressed. */
  function Replayed(ops: Ledger, id: string, wakeId: string, callId: string): Delivery
    requires id in ops && ops[id].payload.Some?
  {
    Delivery(id, ops[id].payload.value.(wakeId := Some(wakeId), callId := Some(callId)))
  }

  lemma CompletedSlotPlan(w: World, wake: Wake, fingerprint: string, a: nat, id: string)
    requires Inv(w) && a <= U64_MAX && id == IdOf(w.turnId, Name(wake.continuation, wake.nextSlot, a))
    requires id in w.ops && w.ops[id].phase == Done
    ensures w.ops[id].payload.Some?
    ensures PlanFor(w.ops, SlotId(w.turnId, wake.continuation, wake.nextSlot), fingerprint) ==
            if fingerprint != w.ops[id].fingerprint then Diverged else Replay(id, w.ops[id].payload.value)
  {
    LatestIsTheStandingAttempt(w, wake.continuation, wake.nextSlot, a);
    assert RecordOk(w.ops[id]);
  }

  /** What a request on a completed slot leaves behind. */
  ghost predicate AfterReplay(w: World, next: World, wakeId: string, callId: string, id: string, replayed: bool)
    requires wakeId in w.wakes && id in w.ops && w.ops[id].payload.Some?
  {
    && next.turnId == w.turnId && next.ops == w.ops && next.dispatched == w.dispatched
    && next.delivered == w.delivered + (if replayed then [Replayed(w.ops, id, wakeId, callId)] else [])
    && wakeId in next.wakes
    && next.wakes[wakeId].inFlight == Idle && next.wakes[wakeId].continuation == w.wakes[wakeId].continuation
    && next.wakes[wakeId].nextSlot == (w.wakes[wakeId].nextSlot + 1) % (U64_MAX + 1)
    && next.wakes[wakeId].granted == (if replayed then w.wakes[wakeId].granted else [])
    && (replayed ==> next.wakes[wakeId].callOperations == w.wakes[wakeId].callOperations[callId := id])
  }

  /** The same request on a slot that has a result gets that result, addressed to the new call, if the
      provider's run takes it; a different request on it gets nothing.  Neither touches the ledger or
      leases anything, and only a success lets the drain go on. */
  lemma CompletedSlotReplays(w: World, wakeId: string, callId: string, fingerprint: string, now: nat, refused: bool,
                             a: nat, id: string)
    requires Inv(w) && wakeId in w.wakes && w.wakes[wakeId].inFlight == Idle && a <= U64_MAX
    requires id == IdOf(w.turnId, Name(w.wakes[wakeId].continuation, w.wakes[wakeId].nextSlot, a))
    requires id in w.ops && w.ops[id].phase == Done
    ensures w.ops[id].payload.Some?
    ensures AfterReplay(w, Prepare(w, wakeId, callId, fingerprint, now, refused), wakeId, callId, id,
                        fingerprint == w.ops[id].fingerprint && !refused)
  {
    CompletedSlotPlan(w, w.wakes[wakeId], fingerprint, a, id);
    if fingerprint == w.ops[id].fingerprint {
      AfterReplayPlan(w, wakeId, callId, fingerprint, now, refused, id);
    } else {
      AfterDivergence(w, wakeId, callId, fingerprint, now, refused, id);
    }
  }

  lemma AfterReplayPlan(w: World, wakeId: string, callId: string, fingerprint: string, now: nat, refused: bool,
                        id: string)
    requires wakeId in w.wakes && w.wakes[wakeId].inFlight == Idle && id in w.ops && w.ops[id].payload.Some?
    ensures AfterReplay(w, AfterPlan(w, wakeId, Replay(id, w.ops[id].payload.value), callId, fingerprint, now, refused),
                        wakeId, callId, id, !refused)
  {
  }

  lemma AfterDivergence(w: World, wakeId: string, callId: string, fingerprint: string, now: nat, refused: bool,
                        id: string)
    requires wakeId in w.wakes && w.wakes[wakeId].inFlight == Idle && id in w.ops && w.ops[id].payload.Some?
    ensures AfterReplay(w, AfterPlan(w, wakeId, Diverged, callId, fingerprint, now, refused), wakeId, callId, id, false)
  {
  }

  datatype Request = Request(callId: string, fingerprint: string)

  function PrepareOne(wakeId: string, request: Request, now: nat): Step {
    PrepareStep(wakeId, request.callId, request.fingerprint, now, false)
  }

  function PrepareAll(wakeId: string, requests: seq<Request>, now: nat): seq<Step> {
    if requests == [] then []
    else PrepareAll(wakeId, requests[..|requests| - 1], now) + [PrepareOne(wakeId, requests[|requests| - 1], now)]
  }

  /** The slot has a result for the request, under the given attempt. */
  ghost predicate Recorded(turnId: string, ops: Ledger, c: string, slot: nat, attempt: nat, fingerprint: string) {
    var id := IdOf(turnId, Name(c, slot, attempt));
    && attempt <= U64_MAX && id in ops && ops[id].phase == Done && ops[id].payload.Some?
    && ops[id].fingerprint == fingerprint
  }

  ghost predicate AllRecorded(turnId: string, ops: Ledger, c: string, requests: seq<Request>, attempts: seq<nat>) {
    && |attempts| == |requests|
    && forall i :: 0 <= i < |requests| ==> Recorded(turnId, ops, c, i, attempts[i], requests[i].fingerprint)
  }

  lemma AllButLastRecorded(turnId: string, ops: Ledger, c: string, requests: seq<Request>, attempts: seq<nat>)
    requires AllRecorded(turnId, ops, c, requests, attempts) && requests != []
    ensures AllRecorded(turnId, ops, c, requests[..|requests| - 1], attempts[..|requests| - 1])
    ensures Recorded(turnId, ops, c, |requests| - 1, attempts[|requests| - 1], requests[|requests| - 1].fingerprint)
  {
  }

  /** The recorded results in slot order, readdressed. */
  ghost function Replays(turnId: string, ops: Ledger, c: string, wakeId: string, requests: seq<Request>,
                         attempts: seq<nat>)
    : seq<Delivery>
    requires AllRecorded(turnId, ops, c, requests, attempts)
  {
    if requests == [] then []
    else
      var n := |requests| - 1;
      AllButLastRecorded(turnId, ops, c, requests, attempts);
      Replays(turnId, ops, c, wakeId, requests[..n], attempts[..n]) +
      [Replayed(ops, IdOf(turnId, Name(c, n, attempts[n])), wakeId, requests[n].callId)]
  }

  /** What a wake looks like after `n` replayed requests. */
  predicate AtSlot(w: World, wakeId: string, c: string, n: nat) {
    && wakeId in w.wakes && w.wakes[wakeId].inFlight == Idle && w.wakes[wakeId].granted == []
    && w.wakes[wakeId].continuation == c && w.wakes[wakeId].nextSlot == n
  }

  lemma NextSlot(n: nat)
    requires n < U64_MAX
    ensures (n + 1) % (U64_MAX + 1) == n + 1
  {
  }

  lemma ReplayedAtSlot(w: World, next: World, wakeId: string, callId: string, c: string, n: nat, id: string)
    requires AtSlot(w, wakeId, c, n) && n < U64_MAX && id in w.ops && w.ops[id].payload.Some?
    requires AfterReplay(w, next, wakeId, callId, id, true)
    ensures AtSlot(next, wakeId, c, n + 1)
  {
    NextSlot(n);
  }

  lemma OneMoreReplay(w: World, next: World, wakeId: string, request: Request, now: nat, c: string, n: nat,
                      attempt: nat, id: string)
    requires Inv(w) && AtSlot(w, wakeId, c, n) && n < U64_MAX && id == IdOf(w.turnId, Name(c, n, attempt))
    requires Recorded(w.turnId, w.ops, c, n, attempt, request.fingerprint)
    requires next == Prepare(w, wakeId, request.callId, request.fingerprint, now, false)
    ensures AtSlot(next, wakeId, c, n + 1)
    ensures next.turnId == w.turnId && next.ops == w.ops && next.dispatched == w.dispatched
    ensures next.delivered == w.delivered + [Replayed(w.ops, id, wakeId, request.callId)]
  {
    CompletedSlotReplays(w, wakeId, request.callId, request.fingerprint, now, false, attempt, id);
    ReplayedAtSlot(w, next, wakeId, request.callId, c, n, id);
  }

  lemma AppendDelivery(a: seq<Delivery>, b: seq<Delivery>, d: Delivery)
    ensures a + b + [d] == a + (b + [d])
  {
  }

  /** A new wake that asks again for what an earlier one had completed gets all recorded results, in slot
      order and addressed to its own calls; nothing is leased, and nothing is left to hand over. */
  lemma {:induction false} CrashedWakeIsReplayed(w: World, wakeId: string, c: string, requests: seq<Request>,
                                                 attempts: seq<nat>, now: nat)
    requires Inv(w) && AtSlot(w, wakeId, c, 0) && |requests| <= U64_MAX
             && AllRecorded(w.turnId, w.ops, c, requests, attempts)
    ensures var end := Run(w, PrepareAll(wakeId, requests, now));
            && AtSlot(end, wakeId, c, |requests|)
            && end.turnId == w.turnId && end.ops == w.ops && end.dispatched == w.dispatched
            && end.delivered == w.delivered + Replays(w.turnId, w.ops, c, wakeId, requests, attempts)
  {
    hide Inv, Prepare, IdOf, Recorded;
    if requests != [] {
      var n := |requests| - 1;
      var steps := PrepareAll(wakeId, requests[..n], now);
      AllButLastRecorded(w.turnId, w.ops, c, requests, attempts);
      CrashedWakeIsReplayed(w, wakeId, c, requests[..n], attempts[..n], now);
      RunKeeps(w, steps);
      RunAppend(w, steps, PrepareOne(wakeId, requests[n], now));
      var id := IdOf(w.turnId, Name(c, n, attempts[n]));
      OneMoreReplay(Run(w, steps), Run(w, PrepareAll(wakeId, requests, now)), wakeId, requests[n], now, c, n,
                    attempts[n], id);
      AppendDelivery(w.delivered, Replays(w.turnId, w.ops, c, wakeId, requests[..n], attempts[..n]),
                     Replayed(w.ops, id, wakeId, requests[n].callId));
    }
  }

  // From the calls of one wake to their replay by the next

  /** The wake is gone, the service restarts, and a new wake claims the turn. */
  function Restart(wakeId: string, wakeId': string, service: string): seq<Step> {
    [DropStep(wakeId), HydrateStep, ClaimStep(wakeId', service)]
  }

  lemma RestartedAtSlotZero(w: World, wakeId: string, wakeId': string, service: string, c: string)
    requires w.turn.phase == Running && w.turn.continuation == c && OpsIn(w.ops, Leased) == {}
    requires wakeId' !in w.wakes || wakeId' == wakeId
    ensures var next := Run(w, Restart(wakeId, wakeId', service));
            && AtSlot(next, wakeId', c, 0)
            && next.turnId == w.turnId && next.ops == w.ops
            && next.dispatched == w.dispatched && next.delivered == w.delivered
  {
    ThreeSteps(w, DropStep(wakeId), HydrateStep, ClaimStep(wakeId', service));
    var hydrated := Hydrate(Drop(w, wakeId));
    assert hydrated.turn.phase == Runnable && hydrated.ops == w.ops && wakeId' !in hydrated.wakes;
  }

  /** End to end from any reachable world: a wake dies with its calls recorded and none open, the service
      restarts, and the next wake, asking again, is given every recorded result in order; nothing is
      handed to the host again. */
  lemma RestartedWakeIsReplayed(w: World, wakeId: string, wakeId': string, service: string, c: string,
                                requests: seq<Request>, attempts: seq<nat>, now: nat)
    requires Inv(w) && w.turn.phase == Running && w.turn.continuation == c && OpsIn(w.ops, Leased) == {}
    requires wakeId' !in w.wakes || wakeId' == wakeId
    requires |requests| <= U64_MAX && AllRecorded(w.turnId, w.ops, c, requests, attempts)
    ensures var end := Run(w, Restart(wakeId, wakeId', service) + PrepareAll(wakeId', requests, now));
            && end.ops == w.ops && end.dispatched == w.dispatched && AtSlot(end, wakeId', c, |requests|)
            && end.delivered == w.delivered + Replays(w.turnId, w.ops, c, wakeId', requests, attempts)
  {
    var restart := Restart(wakeId, wakeId', service);
    RestartedAtSlotZero(w, wakeId, wakeId', service, c);
    RunKeeps(w, restart);
    CrashedWakeIsReplayed(Run(w, restart), wakeId', c, requests, attempts, now);
    RunConcat(w, restart, PrepareAll(wakeId', requests, now));
  }
}
