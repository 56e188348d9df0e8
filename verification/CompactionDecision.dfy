/** Validation of what a compaction strategy is given and of what it answers.  Strategies are not
    trusted: only a decision that passes here is applied. */
module CompactionDecision {
  import opened Wrappers
  import opened Text
  import Policies = CompactionPolicy

  datatype Item = Item(
    sourceRef: string,
    role: string,
    content: string,
    exchangeId: Option<string>,
    exchangeCompleted: bool)

  /** The frozen input: the snapshot, the policy, and the boundary before which items may be
      compacted. */
  datatype Input = Input(
    fingerprint: string,
    items: seq<Item>,
    policy: Policies.Policy,
    boundaryId: string,
    compactBefore: nat,
    activeExchangeId: Option<string>,
    parentArtifactId: Option<string>)

  datatype Lineage = Lineage(fingerprint: string, boundaryId: string, parentArtifactId: Option<string>)

  datatype Decision = Decision(
    strategyId: string,
    strategyRevision: string,
    summary: string,
    compacted: seq<string>,
    retained: seq<string>,
    lineage: Lineage)

  datatype InputError =
    | BadPolicy(error: Policies.PolicyError)
    | EmptyFingerprint
    | EmptyBoundaryId
    | BoundaryOutside
    | BoundaryRetainsNothing
    | BadSourceRef
    | CrossesActiveExchange
    | IncludesActiveExchange

  datatype DecisionError =
    | WrongStrategy
    | WrongRevision
    | EmptySummaryOrNothingCompacted
    | WrongLineage
    | RefsNotUniqueOrDisjoint
    | NotAPartition
    | CrossesBoundary
    | CompactsActiveExchange

  // Validating the input

  function ItemError(input: Input, i: nat): Option<InputError>
    requires i < |input.items|
  {
    var item := input.items[i];
    if IsBlank(item.sourceRef) || exists j :: 0 <= j < i && input.items[j].sourceRef == item.sourceRef then
      Some(BadSourceRef)
    else if i < input.compactBefore && !item.exchangeCompleted then Some(CrossesActiveExchange)
    else if i < input.compactBefore && input.activeExchangeId == item.exchangeId && item.exchangeId.Some? then
      Some(IncludesActiveExchange)
    else None
  }

  function FirstItemError(input: Input, i: nat): (error: Option<InputError>)
    requires i <= |input.items|
    ensures error.None? <==> forall k :: i <= k < |input.items| ==> ItemError(input, k).None?
    decreases |input.items| - i
  {
    if i == |input.items| then None
    else if ItemError(input, i).Some? then ItemError(input, i)
    else FirstItemError(input, i + 1)
  }

  function HeaderError(input: Input): Option<InputError> {
    if Policies.Validate(input.policy).Some? then Some(BadPolicy(Policies.Validate(input.policy).value))
    else if IsBlank(input.fingerprint) then Some(EmptyFingerprint)
    else if IsBlank(input.boundaryId) then Some(EmptyBoundaryId)
    else if input.compactBefore > |input.items| then Some(BoundaryOutside)
    else if input.compactBefore == |input.items| then Some(BoundaryRetainsNothing)
    else None
  }

  function ErrorInInput(input: Input): Option<InputError> {
    if HeaderError(input).Some? then HeaderError(input) else FirstItemError(input, 0)
  }

  method ValidateInput(input: Input) returns (error: Option<InputError>)
    ensures error == ErrorInInput(input)
  {
    error := HeaderError(input);
    if error.Some? {
      return;
    }
    var refs: set<string> := {};
    for index := 0 to |input.items|
      invariant forall r :: r in refs <==> exists j :: 0 <= j < index && input.items[j].sourceRef == r
      invariant FirstItemError(input, 0) == FirstItemError(input, index)
    {
      var item := input.items[index];
      if IsBlank(item.sourceRef) || item.sourceRef in refs {
        return Some(BadSourceRef);
      }
      refs := refs + {item.sourceRef};
      if index < input.compactBefore && !item.exchangeCompleted {
        return Some(CrossesActiveExchange);
      }
      if index < input.compactBefore && input.activeExchangeId == item.exchangeId && item.exchangeId.Some? {
        return Some(IncludesActiveExchange);
      }
    }
  }

  predicate Distinct(refs: seq<string>) {
    forall i, j :: 0 <= i < j < |refs| ==> refs[i] != refs[j]
  }

  function RefsOf(items: seq<Item>): seq<string> {
    seq(|items|, i requires 0 <= i < |items| => items[i].sourceRef)
  }

  /** What passing means, without the order of the checks. */
  ghost predicate ValidInput(input: Input) {
    && Policies.Validate(input.policy).None?
    && !IsBlank(input.fingerprint)
    && !IsBlank(input.boundaryId)
    && input.compactBefore < |input.items|
    && Distinct(RefsOf(input.items))
    && (forall i :: 0 <= i < |input.items| ==> !IsBlank(input.items[i].sourceRef))
    && (forall i :: 0 <= i < input.compactBefore ==>
          input.items[i].exchangeCompleted
          && (input.items[i].exchangeId.Some? ==> input.items[i].exchangeId != input.activeExchangeId))
  }

  lemma InputPassesIff(input: Input)
    ensures ErrorInInput(input).None? <==> ValidInput(input)
  {
    if ErrorInInput(input).None? {
      var refs := RefsOf(input.items);
      forall i, j | 0 <= i < j < |refs| ensures refs[i] != refs[j] {
        assert ItemError(input, j).None?;
      }
      forall i | 0 <= i < |input.items|
        ensures !IsBlank(input.items[i].sourceRef)
        ensures i < input.compactBefore ==> input.items[i].exchangeCompleted
        ensures i < input.compactBefore && input.items[i].exchangeId.Some?
                ==> input.items[i].exchangeId != input.activeExchangeId
      {
        assert ItemError(input, i).None?;
      }
    }
    if ValidInput(input) {
      forall k | 0 <= k < |input.items| ensures ItemError(input, k).None? {
        ValidItem(input, k);
      }
    }
  }

  lemma ValidItem(input: Input, k: nat)
    requires ValidInput(input) && k < |input.items|
    ensures ItemError(input, k).None?
  {
    var refs := RefsOf(input.items);
    forall j | 0 <= j < k ensures input.items[j].sourceRef != input.items[k].sourceRef {
      assert refs[j] != refs[k];
    }
  }

  lemma {:induction false} FirstItemErrorIsAnItems(input: Input, i: nat) returns (k: nat)
    requires i <= |input.items| && FirstItemError(input, i).Some?
    ensures i <= k < |input.items| && FirstItemError(input, i) == ItemError(input, k)
    ensures forall j :: i <= j < k ==> ItemError(input, j).None?
    decreases |input.items| - i
  {
    if ItemError(input, i).Some? {
      k := i;
    } else {
      k := FirstItemErrorIsAnItems(input, i + 1);
    }
  }

  predicate InActiveExchange(input: Input, item: Item) {
    item.exchangeId.Some? && item.exchangeId == input.activeExchangeId
  }

  /** The item has a reference of its own. */
  predicate WellReferenced(input: Input, k: nat)
    requires k < |input.items|
  {
    && !IsBlank(input.items[k].sourceRef)
    && forall j :: 0 <= j < k ==> input.items[j].sourceRef != input.items[k].sourceRef
  }

  /** The item may stand where it stands. */
  predicate WellPlaced(input: Input, k: nat)
    requires k < |input.items|
  {
    && WellReferenced(input, k)
    && (k < input.compactBefore ==> input.items[k].exchangeCompleted && !InActiveExchange(input, input.items[k]))
  }

  /** Everything before the items is in order. */
  predicate WellHeaded(input: Input) {
    && Policies.Validate(input.policy).None? && !IsBlank(input.fingerprint) && !IsBlank(input.boundaryId)
    && input.compactBefore < |input.items|
  }

  /** What an error says of the item it was found at. */
  predicate ItemFault(input: Input, k: nat, error: InputError)
    requires k < |input.items|
  {
    match error
    case BadSourceRef => !WellReferenced(input, k)
    case CrossesActiveExchange =>
      WellReferenced(input, k) && k < input.compactBefore && !input.items[k].exchangeCompleted
    case IncludesActiveExchange =>
      && WellReferenced(input, k) && k < input.compactBefore && input.items[k].exchangeCompleted
      && InActiveExchange(input, input.items[k])
    case _ => false
  }

  lemma ItemErrorSays(input: Input, k: nat)
    requires k < |input.items|
    ensures ItemError(input, k).None? <==> WellPlaced(input, k)
    ensures ItemError(input, k).Some? ==> ItemFault(input, k, ItemError(input, k).value)
  {
  }

  /** A reported input error is the first there is: the policy, the fingerprint, the boundary's id, its place,
      and then the items in order. */
  lemma InputErrorIsTheFirst(input: Input, error: InputError)
    requires ErrorInInput(input) == Some(error)
    ensures match error
            case BadPolicy(e) => Policies.Validate(input.policy) == Some(e)
            case EmptyFingerprint => Policies.Validate(input.policy).None? && IsBlank(input.fingerprint)
            case EmptyBoundaryId =>
              Policies.Validate(input.policy).None? && !IsBlank(input.fingerprint) && IsBlank(input.boundaryId)
            case BoundaryOutside =>
              && Policies.Validate(input.policy).None? && !IsBlank(input.fingerprint) && !IsBlank(input.boundaryId)
              && input.compactBefore > |input.items|
            case BoundaryRetainsNothing =>
              && Policies.Validate(input.policy).None? && !IsBlank(input.fingerprint) && !IsBlank(input.boundaryId)
              && input.compactBefore == |input.items|
            case _ =>
              && WellHeaded(input)
              && exists k :: 0 <= k < |input.items| && ItemFault(input, k, error)
                             && forall j :: 0 <= j < k ==> WellPlaced(input, j)
  {
    if HeaderError(input).None? {
      var k := FirstItemErrorIsAnItems(input, 0);
      ItemErrorSays(input, k);
      forall j | 0 <= j < k ensures WellPlaced(input, j) {
        ItemErrorSays(input, j);
      }
    }
  }

  // Validating the decision

  function ElementsOf(refs: seq<string>): set<string> {
    set r | r in refs
  }

  lemma {:induction false} CardinalityIffDistinct(refs: seq<string>)
    ensures |ElementsOf(refs)| <= |refs|
    ensures |ElementsOf(refs)| == |refs| <==> Distinct(refs)
  {
    if refs != [] {
      var init, last := refs[..|refs| - 1], refs[|refs| - 1];
      CardinalityIffDistinct(init);
      assert refs == init + [last];
      assert ElementsOf(refs) == ElementsOf(init) + {last};
      if last in init {
        assert ElementsOf(refs) == ElementsOf(init);
        var i :| 0 <= i < |init| && init[i] == last;
        assert refs[i] == refs[|refs| - 1];
      } else {
        assert Distinct(init) ==> Distinct(refs);
      }
    }
  }

  /** Collecting references into a set loses nothing exactly when they are distinct. */
  method Collect(refs: seq<string>) returns (s: set<string>)
    ensures s == ElementsOf(refs)
    ensures |s| == |refs| <==> Distinct(refs)
  {
    s := {};
    for i := 0 to |refs|
      invariant s == ElementsOf(refs[..i])
    {
      assert refs[..i + 1] == refs[..i] + [refs[i]];
      s := s + {refs[i]};
    }
    assert refs[..|refs|] == refs;
    CardinalityIffDistinct(refs);
  }

  function PartitionError(input: Input, d: Decision, i: nat): Option<DecisionError>
    requires i < |input.items|
  {
    var item := input.items[i];
    var isCompacted := item.sourceRef in d.compacted;
    var isRetained := item.sourceRef in d.retained;
    if isCompacted == isRetained then Some(NotAPartition)
    else if isCompacted && i >= input.compactBefore then Some(CrossesBoundary)
    else if isCompacted && !item.exchangeCompleted then Some(CompactsActiveExchange)
    else None
  }

  function FirstPartitionError(input: Input, d: Decision, i: nat): (error: Option<DecisionError>)
    requires i <= |input.items|
    ensures error.None? <==> forall k :: i <= k < |input.items| ==> PartitionError(input, d, k).None?
    decreases |input.items| - i
  {
    if i == |input.items| then None
    else if PartitionError(input, d, i).Some? then PartitionError(input, d, i)
    else FirstPartitionError(input, d, i + 1)
  }

  function IdentityError(input: Input, strategyId: string, revision: string, d: Decision): Option<DecisionError> {
    if d.strategyId != strategyId || d.strategyId != input.policy.strategyId then Some(WrongStrategy)
    else if IsBlank(d.strategyRevision) || d.strategyRevision != revision then Some(WrongRevision)
    else if IsBlank(d.summary) || d.compacted == [] then Some(EmptySummaryOrNothingCompacted)
    else if d.lineage != Lineage(input.fingerprint, input.boundaryId, input.parentArtifactId) then Some(WrongLineage)
    else None
  }

  ghost predicate UniqueAndDisjoint(d: Decision) {
    Distinct(d.compacted) && Distinct(d.retained) && forall r <- d.compacted :: r !in d.retained
  }

  ghost function ErrorInDecision(input: Input, strategyId: string, revision: string, d: Decision)
    : Option<DecisionError>
  {
    if IdentityError(input, strategyId, revision, d).Some? then IdentityError(input, strategyId, revision, d)
    else if !UniqueAndDisjoint(d) then Some(RefsNotUniqueOrDisjoint)
    else FirstPartitionError(input, d, 0)
  }

  method ValidateDecision(input: Input, strategyId: string, revision: string, d: Decision)
    returns (error: Option<DecisionError>)
    ensures error == ErrorInDecision(input, strategyId, revision, d)
  {
    error := IdentityError(input, strategyId, revision, d);
    if error.Some? {
      return;
    }
    var compacted := Collect(d.compacted);
    var retained := Collect(d.retained);
    if |compacted| != |d.compacted| || |retained| != |d.retained| || compacted * retained != {} {
      assert compacted * retained != {} ==> !UniqueAndDisjoint(d) by {
        if compacted * retained != {} {
          var r :| r in compacted * retained;
          assert r in d.compacted && r in d.retained;
        }
      }
      return Some(RefsNotUniqueOrDisjoint);
    }
    assert UniqueAndDisjoint(d) by {
      forall r <- d.compacted ensures r !in d.retained {
        assert r in compacted && r !in compacted * retained;
      }
    }
    error := CheckPartition(input, d, compacted, retained);
  }

  method CheckPartition(input: Input, d: Decision, compacted: set<string>, retained: set<string>)
    returns (error: Option<DecisionError>)
    requires compacted == ElementsOf(d.compacted) && retained == ElementsOf(d.retained)
    ensures error == FirstPartitionError(input, d, 0)
  {
    for index := 0 to |input.items|
      invariant FirstPartitionError(input, d, 0) == FirstPartitionError(input, d, index)
    {
      var item := input.items[index];
      var isCompacted := item.sourceRef in compacted;
      var isRetained := item.sourceRef in retained;
      if isCompacted == isRetained {
        return Some(NotAPartition);
      }
      if isCompacted && index >= input.compactBefore {
        return Some(CrossesBoundary);
      }
      if isCompacted && !item.exchangeCompleted {
        return Some(CompactsActiveExchange);
      }
    }
    error := None;
  }

  ghost predicate Accepted(input: Input, strategyId: string, revision: string, d: Decision) {
    ErrorInInput(input).None? && ErrorInDecision(input, strategyId, revision, d).None?
  }

  /** What acceptance guarantees of every item. */
  ghost predicate SafeFor(input: Input, d: Decision, i: nat)
    requires i < |input.items|
  {
    var item := input.items[i];
    && (item.sourceRef in d.compacted <==> item.sourceRef !in d.retained)
    && (i >= input.compactBefore ==> item.sourceRef in d.retained)
    && (item.sourceRef in d.compacted ==>
          item.exchangeCompleted && (item.exchangeId.Some? ==> item.exchangeId != input.activeExchangeId))
  }

  /** Acceptance says exactly: the decision is the selected strategy's answer to this very input, and
      it splits the snapshot without crossing the boundary or touching an open tool exchange. */
  lemma AcceptedIff(input: Input, strategyId: string, revision: string, d: Decision)
    ensures Accepted(input, strategyId, revision, d) <==>
            && ValidInput(input)
            && d.strategyId == strategyId == input.policy.strategyId
            && d.strategyRevision == revision && !IsBlank(revision) && !IsBlank(d.summary) && d.compacted != []
            && d.lineage == Lineage(input.fingerprint, input.boundaryId, input.parentArtifactId)
            && UniqueAndDisjoint(d)
            && forall i :: 0 <= i < |input.items| ==> SafeFor(input, d, i)
  {
    InputPassesIff(input);
    if ValidInput(input) {
      forall i | 0 <= i < |input.items| ensures PartitionError(input, d, i).None? <==> SafeFor(input, d, i) {
        PartitionOkIff(input, d, i);
      }
    }
  }

  lemma PartitionOkIff(input: Input, d: Decision, i: nat)
    requires ValidInput(input) && i < |input.items|
    ensures PartitionError(input, d, i).None? <==> SafeFor(input, d, i)
  {
  }

  lemma {:induction false} FirstPartitionErrorIsAnItems(input: Input, d: Decision, i: nat) returns (k: nat)
    requires i <= |input.items| && FirstPartitionError(input, d, i).Some?
    ensures i <= k < |input.items| && FirstPartitionError(input, d, i) == PartitionError(input, d, k)
    ensures forall j :: i <= j < k ==> PartitionError(input, d, j).None?
    decreases |input.items| - i
  {
    if PartitionError(input, d, i).Some? {
      k := i;
    } else {
      k := FirstPartitionErrorIsAnItems(input, d, i + 1);
    }
  }

  /** The item is on one side only, and may be on that side. */
  predicate WellSplit(input: Input, d: Decision, k: nat)
    requires k < |input.items|
  {
    var ref := input.items[k].sourceRef;
    || (ref in d.retained && ref !in d.compacted)
    || (ref in d.compacted && ref !in d.retained && k < input.compactBefore && input.items[k].exchangeCompleted)
  }

  /** What an error says of the item it was found at. */
  predicate SplitFault(input: Input, d: Decision, k: nat, error: DecisionError)
    requires k < |input.items|
  {
    var ref := input.items[k].sourceRef;
    match error
    case NotAPartition => ref in d.compacted <==> ref in d.retained
    case CrossesBoundary => ref in d.compacted && ref !in d.retained && k >= input.compactBefore
    case CompactsActiveExchange =>
      ref in d.compacted && ref !in d.retained && k < input.compactBefore && !input.items[k].exchangeCompleted
    case _ => false
  }

  lemma PartitionErrorSays(input: Input, d: Decision, k: nat)
    requires k < |input.items|
    ensures PartitionError(input, d, k).None? <==> WellSplit(input, d, k)
    ensures PartitionError(input, d, k).Some? ==> SplitFault(input, d, k, PartitionError(input, d, k).value)
  {
  }

  predicate RightStrategy(input: Input, strategyId: string, d: Decision) {
    d.strategyId == strategyId == input.policy.strategyId
  }

  predicate RightRevision(revision: string, d: Decision) {
    d.strategyRevision == revision && !IsBlank(revision)
  }

  predicate SaysSomething(d: Decision) {
    !IsBlank(d.summary) && d.compacted != []
  }

  predicate RightLineage(input: Input, d: Decision) {
    && d.lineage.fingerprint == input.fingerprint && d.lineage.boundaryId == input.boundaryId
    && d.lineage.parentArtifactId == input.parentArtifactId
  }

  /** A reported decision error is the first there is: the strategy, its revision, the contents, the lineage,
      the references, and then the items in order. */
  lemma DecisionErrorIsTheFirst(input: Input, strategyId: string, revision: string, d: Decision, error: DecisionError)
    requires ErrorInDecision(input, strategyId, revision, d) == Some(error)
    ensures var strategy, contents := RightStrategy(input, strategyId, d), SaysSomething(d);
            match error
            case WrongStrategy => !strategy
            case WrongRevision => strategy && !RightRevision(revision, d)
            case EmptySummaryOrNothingCompacted => strategy && RightRevision(revision, d) && !contents
            case WrongLineage => strategy && RightRevision(revision, d) && contents && !RightLineage(input, d)
            case RefsNotUniqueOrDisjoint =>
              strategy && RightRevision(revision, d) && contents && RightLineage(input, d) && !UniqueAndDisjoint(d)
            case _ =>
              && strategy && RightRevision(revision, d) && contents && RightLineage(input, d) && UniqueAndDisjoint(d)
              && exists k :: 0 <= k < |input.items| && SplitFault(input, d, k, error)
                             && forall j :: 0 <= j < k ==> WellSplit(input, d, j)
  {
    if IdentityError(input, strategyId, revision, d).None? && UniqueAndDisjoint(d) {
      var k := FirstPartitionErrorIsAnItems(input, d, 0);
      PartitionErrorSays(input, d, k);
      forall j | 0 <= j < k ensures WellSplit(input, d, j) {
        PartitionErrorSays(input, d, j);
      }
    }
  }

  /** Every accepted decision keeps the current item, so something is always retained. */
  lemma SomethingIsRetained(input: Input, strategyId: string, revision: string, d: Decision)
    requires Accepted(input, strategyId, revision, d)
    ensures input.compactBefore < |input.items| && input.items[input.compactBefore].sourceRef in d.retained
            && d.retained != []
  {
    AcceptedIff(input, strategyId, revision, d);
    assert SafeFor(input, d, input.compactBefore);
  }

  // References outside the snapshot

  ghost predicate OnlySnapshotRefs(input: Input, d: Decision) {
    && (forall r <- d.compacted :: r in RefsOf(input.items))
    && (forall r <- d.retained :: r in RefsOf(input.items))
  }

  lemma CardinalityOfSubset(a: set<string>, b: set<string>)
    requires a <= b
    ensures |a| <= |b| && (|a| == |b| <==> a == b)
  {
    assert b == a + (b - a);
    assert |b| == |a| + |b - a|;
  }

  /** The validator does not look for references outside the snapshot: an accepted decision has none
      exactly when the two lists together are as long as the snapshot. */
  lemma OnlySnapshotRefsIff(input: Input, strategyId: string, revision: string, d: Decision)
    requires Accepted(input, strategyId, revision, d)
    ensures OnlySnapshotRefs(input, d) <==> |d.compacted| + |d.retained| == |input.items|
  {
    AcceptedIff(input, strategyId, revision, d);
    var refs := RefsOf(input.items);
    var compacted, retained, known := ElementsOf(d.compacted), ElementsOf(d.retained), ElementsOf(refs);
    CardinalityIffDistinct(d.compacted);
    CardinalityIffDistinct(d.retained);
    CardinalityIffDistinct(refs);
    CoversSnapshot(input, d);
    assert compacted !! retained;
    assert |compacted + retained| == |compacted| + |retained|;
    CardinalityOfSubset(known, compacted + retained);
    OnlySnapshotRefsAsSets(input, d);
  }

  lemma CoversSnapshot(input: Input, d: Decision)
    requires forall i :: 0 <= i < |input.items| ==> SafeFor(input, d, i)
    ensures ElementsOf(RefsOf(input.items)) <= ElementsOf(d.compacted) + ElementsOf(d.retained)
  {
    var refs := RefsOf(input.items);
    forall r | r in refs ensures r in d.compacted || r in d.retained {
      var i :| 0 <= i < |refs| && refs[i] == r;
      assert SafeFor(input, d, i);
    }
  }

  lemma OnlySnapshotRefsAsSets(input: Input, d: Decision)
    ensures OnlySnapshotRefs(input, d) <==>
            ElementsOf(d.compacted) + ElementsOf(d.retained) <= ElementsOf(RefsOf(input.items))
  {
    var known := ElementsOf(RefsOf(input.items));
    if ElementsOf(d.compacted) + ElementsOf(d.retained) <= known {
      forall r <- d.compacted ensures r in RefsOf(input.items) {
        assert r in ElementsOf(d.compacted) && r in known;
      }
      forall r <- d.retained ensures r in RefsOf(input.items) {
        assert r in ElementsOf(d.retained) && r in known;
      }
    }
  }

  /** Any valid input can be answered by compacting one made-up reference and retaining the whole
      snapshot: accepted, although nothing is compacted. */
  lemma ForeignRefIsAccepted(input: Input, revision: string, summary: string, foreign: string)
    requires ValidInput(input) && !IsBlank(revision) && !IsBlank(summary) && foreign !in RefsOf(input.items)
    ensures Accepted(input, input.policy.strategyId, revision, ForeignDecision(input, revision, summary, foreign))
  {
    var d := ForeignDecision(input, revision, summary, foreign);
    var refs := RefsOf(input.items);
    forall i | 0 <= i < |input.items| ensures SafeFor(input, d, i) {
      assert refs[i] == input.items[i].sourceRef && refs[i] in refs;
    }
    AcceptedIff(input, input.policy.strategyId, revision, d);
  }

  ghost function ForeignDecision(input: Input, revision: string, summary: string, foreign: string): Decision {
    Decision(input.policy.strategyId, revision, summary, [foreign], RefsOf(input.items),
             Lineage(input.fingerprint, input.boundaryId, input.parentArtifactId))
  }

  lemma OneLetterIsNotBlank(c: char)
    requires 'a' <= c <= 'z'
    ensures !IsBlank([c])
  {
    assert [c][0] == c;
  }

  lemma SomeInputIsValid(input: Input)
    requires input == Input("f", [Item("a", "", "", None, true)], Policies.Policy(true, true, "s", 1, 1, 0),
                            "b", 0, None, None)
    ensures ValidInput(input) && "z" !in RefsOf(input.items)
  {
    OneLetterIsNotBlank('f');
    OneLetterIsNotBlank('a');
    OneLetterIsNotBlank('s');
    OneLetterIsNotBlank('b');
    assert RefsOf(input.items) == ["a"];
  }
}
