/** What the runtime does with the result of a host tool: it bounds the text handed back to the
    provider and keeps running failure counters that decide when to add recovery guidance. */
module ToolPolicy {
  import opened Wrappers
  import opened Text

  datatype HostToolStatus = Succeeded | Denied | Failed

  datatype TurnDisposition = CompleteTurn | SuspendExternal

  datatype HostToolResult = HostToolResult(
    status: HostToolStatus,
    outputText: string,
    reasonCode: Option<string>,
    retryable: bool,
    action: Option<string>,
    summary: Option<string>,
    debugDetailId: Option<string>,
    stateFingerprint: Option<string>,
    turnDisposition: Option<TurnDisposition>)

  datatype ToolFailure = ToolFailure(
    toolName: string,
    reasonCode: string,
    retryable: bool,
    action: Option<string>,
    summary: Option<string>)

  datatype RecoveryGuidance = RecoveryGuidance(
    reasonCode: string,
    totalFailures: nat,
    recentFailures: seq<ToolFailure>)

  datatype Truncation = Truncation(originalChars: nat, originalBytes: nat, outputChars: nat, outputBytes: nat)

  datatype ToolOutput = ToolOutput(output: string, isError: bool, stateFingerprint: string)

  datatype PolicyDecision = PolicyDecision(
    providerOutput: ToolOutput,
    failure: Option<ToolFailure>,
    recoveryGuidance: Option<RecoveryGuidance>,
    truncation: Option<Truncation>,
    debugDetailId: Option<string>)

  datatype PolicyConfig = PolicyConfig(
    repeatedFailureThreshold: nat,
    consecutiveFailureThreshold: nat,
    recentFailureLimit: nat,
    maxOutputChars: nat)
  {
    predicate Valid() {
      && repeatedFailureThreshold > 0
      && consecutiveFailureThreshold > 0
      && recentFailureLimit > 0
      && maxOutputChars > 0
    }
  }

  const DEFAULT_CONFIG := PolicyConfig(2, 3, 5, 20_000)

  // ---------- bounding the output ----------

  function TruncationMarker(omitted: nat): string {
    "\n[truncated " + Decimal(omitted) + " chars]"
  }

  /** The prefix that survives both limits before room is made for the marker. */
  function KeptPrefix(input: string, maxChars: nat, maxBytes: nat): (kept: string)
    ensures kept <= input && |kept| <= maxChars && ByteLen(kept) <= maxBytes
    ensures |kept| < Min(maxChars, |input|) ==> ByteLen(input[..|kept| + 1]) > maxBytes
  {
    var head := input[..Min(maxChars, |input|)];
    var k := LongestFit(head, maxBytes);
    assert head[..k] == input[..k];
    assert k < |head| ==> head[..k + 1] == input[..k + 1];
    head[..k]
  }

  /** The marker counts the characters dropped before room was made for the marker itself. */
  function MarkerFor(input: string, maxChars: nat, maxBytes: nat): string {
    TruncationMarker(|input| - |KeptPrefix(input, maxChars, maxBytes)|)
  }

  /** The longest prefix of `kept` that leaves room for `marker`, followed by the marker; nothing
      at all when the marker alone does not fit. */
  function WithMarker(kept: string, marker: string, maxBytes: nat): (output: string)
  {
    if ByteLen(marker) <= maxBytes then kept[..LongestFit(kept, maxBytes - ByteLen(marker))] + marker else ""
  }

  function BoundOutput(input: string, maxChars: nat, maxBytes: nat): (string, Option<Truncation>) {
    if |input| <= maxChars && ByteLen(input) <= maxBytes then (input, None)
    else
      var output := WithMarker(KeptPrefix(input, maxChars, maxBytes), MarkerFor(input, maxChars, maxBytes), maxBytes);
      (output, Some(Truncation(|input|, ByteLen(input), |output|, ByteLen(output))))
  }

  method KeepPrefix(input: string, maxChars: nat, maxBytes: nat) returns (kept: string, keptChars: nat)
    ensures kept == KeptPrefix(input, maxChars, maxBytes) && keptChars == |kept|
  {
    kept, keptChars := "", 0;
    var keptBytes := 0;
    while keptChars < |input|
      invariant keptChars <= |input| && keptChars <= maxChars
      invariant kept == input[..keptChars] && keptBytes == ByteLen(kept) <= maxBytes
    {
      ByteLenNext(input, keptChars);
      if keptChars >= maxChars || keptBytes + CharBytes(input[keptChars]) > maxBytes {
        break;
      }
      kept := kept + [input[keptChars]];
      keptBytes := keptBytes + CharBytes(input[keptChars]);
      keptChars := keptChars + 1;
    }
    ghost var head := input[..Min(maxChars, |input|)];
    assert head[..keptChars] == input[..keptChars];
    assert keptChars < |head| ==> head[..keptChars + 1] == input[..keptChars + 1];
    LongestFitUnique(head, maxBytes, keptChars);
  }

  method MakeRoom(kept: string, marker: string, maxBytes: nat) returns (output: string)
    ensures output == WithMarker(kept, marker, maxBytes)
  {
    hide LongestFit;
    output := kept;
    while output != "" && ByteLen(output) + ByteLen(marker) > maxBytes
      invariant output == kept[..|output|]
      invariant |output| < |kept| ==> ByteLen(kept[..|output| + 1]) + ByteLen(marker) > maxBytes
      decreases |output|
    {
      output := output[..|output| - 1];
    }
    if ByteLen(marker) <= maxBytes {
      LongestFitUnique(kept, maxBytes - ByteLen(marker), |output|);
      output := output + marker;
    }
  }

  method BoundToolOutput(input: string, maxChars: nat, maxBytes: nat)
    returns (output: string, truncation: Option<Truncation>)
    ensures (output, truncation) == BoundOutput(input, maxChars, maxBytes)
  {
    hide TruncationMarker, WithMarker, KeptPrefix, ByteLen;
    var originalChars, originalBytes := |input|, ByteLen(input);
    if originalChars <= maxChars && originalBytes <= maxBytes {
      return input, None;
    }
    var kept, keptChars := KeepPrefix(input, maxChars, maxBytes);
    output := MakeRoom(kept, TruncationMarker(originalChars - keptChars), maxBytes);
    truncation := Some(Truncation(originalChars, originalBytes, |output|, ByteLen(output)));
  }

  lemma WithMarkerFits(kept: string, marker: string, maxBytes: nat)
    ensures ByteLen(WithMarker(kept, marker, maxBytes)) <= maxBytes
  {
    if ByteLen(marker) <= maxBytes {
      ByteLenConcat(kept[..LongestFit(kept, maxBytes - ByteLen(marker))], marker);
    }
  }

  /** The bounded text always fits the byte limit, whatever the input and the limits. */
  lemma BoundedOutputFits(input: string, maxChars: nat, maxBytes: nat)
    ensures ByteLen(BoundOutput(input, maxChars, maxBytes).0) <= maxBytes
    ensures BoundOutput(input, maxChars, maxBytes).1 == None
      <==> |input| <= maxChars && ByteLen(input) <= maxBytes
    ensures BoundOutput(input, maxChars, maxBytes).1 == None ==> BoundOutput(input, maxChars, maxBytes).0 == input
    ensures var (output, truncation) := BoundOutput(input, maxChars, maxBytes);
            truncation.Some? ==>
              && truncation.value.originalChars == |input| && truncation.value.originalBytes == ByteLen(input)
              && truncation.value.outputChars == |output| && truncation.value.outputBytes == ByteLen(output)
  {
    WithMarkerFits(KeptPrefix(input, maxChars, maxBytes), MarkerFor(input, maxChars, maxBytes), maxBytes);
  }

  lemma WithMarkerIsLongest(input: string, maxChars: nat, maxBytes: nat, marker: string) returns (k: nat)
    requires ByteLen(marker) <= maxBytes
    ensures k <= |KeptPrefix(input, maxChars, maxBytes)| <= Min(maxChars, |input|)
    ensures WithMarker(KeptPrefix(input, maxChars, maxBytes), marker, maxBytes) == input[..k] + marker
    ensures forall j :: k < j <= Min(maxChars, |input|) ==> ByteLen(input[..j]) + ByteLen(marker) > maxBytes
  {
    var kept := KeptPrefix(input, maxChars, maxBytes);
    k := LongestFit(kept, maxBytes - ByteLen(marker));
    assert kept[..k] == input[..k];
    assert k < |kept| ==> kept[..k + 1] == input[..k + 1];
    forall j | k < j <= Min(maxChars, |input|)
      ensures ByteLen(input[..j]) + ByteLen(marker) > maxBytes
    {
      ByteLenMonotone(input, k + 1, j);
    }
  }

  /** A truncated output is a prefix of the input followed by a marker, and no longer prefix within the
      character limit would have left room for the marker.  The marker counts what is missing from the
      longest prefix within both limits.  When the marker alone does not fit, the provider gets the
      empty text. */
  lemma TruncatedOutputIsLongest(input: string, maxChars: nat, maxBytes: nat) returns (k: nat, m: nat)
    requires |input| > maxChars || ByteLen(input) > maxBytes
    ensures k <= m <= Min(maxChars, |input|) && ByteLen(input[..m]) <= maxBytes
    ensures m < Min(maxChars, |input|) ==> ByteLen(input[..m + 1]) > maxBytes
    ensures var marker := "\n[truncated " + Decimal(|input| - m) + " chars]";
            && BoundOutput(input, maxChars, maxBytes).0 ==
               (if ByteLen(marker) <= maxBytes then input[..k] + marker else "")
            && (ByteLen(marker) <= maxBytes ==>
                  forall j :: k < j <= Min(maxChars, |input|) ==> ByteLen(input[..j]) + ByteLen(marker) > maxBytes)
  {
    hide WithMarker, KeptPrefix, ByteLen, Decimal;
    var kept, marker := KeptPrefix(input, maxChars, maxBytes), MarkerFor(input, maxChars, maxBytes);
    k, m := 0, |kept|;
    assert kept == input[..m];
    if ByteLen(marker) <= maxBytes {
      k := WithMarkerIsLongest(input, maxChars, maxBytes, marker);
    } else {
      NoRoomForMarker(kept, marker, maxBytes);
    }
  }

  lemma NoRoomForMarker(kept: string, marker: string, maxBytes: nat)
    requires ByteLen(marker) > maxBytes
    ensures WithMarker(kept, marker, maxBytes) == ""
  {
  }

  /** The advertised number of omitted characters never exceeds the true number, and equals it
      exactly when the kept prefix and the marker fit together without trimming. */
  lemma MarkerCountIsExactIffNothingWasTrimmed(input: string, maxChars: nat, maxBytes: nat, marker: string)
    requires |input| > maxChars || ByteLen(input) > maxBytes
    requires marker == MarkerFor(input, maxChars, maxBytes) && ByteLen(marker) <= maxBytes
    ensures
      var kept := KeptPrefix(input, maxChars, maxBytes);
      var shown := |BoundOutput(input, maxChars, maxBytes).0| - |marker|;
      && |input| - |kept| <= |input| - shown
      && (|input| - |kept| == |input| - shown <==> ByteLen(kept) + ByteLen(marker) <= maxBytes)
  {
    var kept := KeptPrefix(input, maxChars, maxBytes);
    assert kept[..|kept|] == kept;
  }

  /** Thirty-one one-byte characters against thirty bytes: the marker says one character was
      dropped, while twenty more went to make room for the marker. */
  lemma MarkerCountCanUnderstate()
    ensures
      var input := seq(31, _ => 'x');
      var marker := MarkerFor(input, 100, 30);
      && marker == TruncationMarker(1)
      && |input| - (|BoundOutput(input, 100, 30).0| - |marker|) > 1
  {
    var input := seq(31, _ => 'x');
    var kept := KeptPrefix(input, 100, 30);
    AsciiByteLen(input);
    AsciiByteLen(kept);
    if |kept| < 30 {
      AsciiByteLen(input[..|kept| + 1]);
    }
    assert |kept| == 30;
    var marker := MarkerFor(input, 100, 30);
    assert Decimal(1) == "1";
    assert marker == "\n[truncated 1 chars]";
    AsciiByteLen(marker);
    MarkerCountIsExactIffNothingWasTrimmed(input, 100, 30, marker);
  }

  // ---------- failures ----------

  /** The failure a result stands for, with the default reason of its status. */
  function FailureOf(tool: string, result: HostToolResult): (failure: Option<ToolFailure>)
    ensures failure.None? <==> result.status.Succeeded?
  {
    if result.status.Succeeded? then None
    else
      var reason := result.reasonCode.GetOr(
        if result.status.Denied? then "tool_denied" else "tool_reported_unsuccessful_result");
      Some(ToolFailure(tool, reason, result.retryable, result.action, result.summary))
  }

  /** One entry per recorded result: the failure it reported, if any. */
  type History = seq<Option<ToolFailure>>

  function FailureKey(failure: ToolFailure): string {
    failure.toolName + ":" + failure.reasonCode
  }

  /** All failures of a history, oldest first. */
  function Failures(history: History): seq<ToolFailure> {
    if history == [] then []
    else
      var earlier := Failures(history[..|history| - 1]);
      match history[|history| - 1]
      case None => earlier
      case Some(failure) => earlier + [failure]
  }

  /** How many results at the end of a history failed without a success between them. */
  function TrailingFailures(history: History): nat {
    if history == [] || history[|history| - 1].None? then 0
    else 1 + TrailingFailures(history[..|history| - 1])
  }

  function KeyCount(history: History, key: string): nat {
    if history == [] then 0
    else
      KeyCount(history[..|history| - 1], key) +
      match history[|history| - 1]
      case None => 0
      case Some(failure) => if FailureKey(failure) == key then 1 else 0
  }

  function LastUpTo<T>(s: seq<T>, n: nat): seq<T> {
    s[|s| - Min(n, |s|)..]
  }

  /** The guidance owed after a history whose last entry is the result being recorded. */
  function GuidanceAfter(config: PolicyConfig, history: History): Option<RecoveryGuidance> {
    if history == [] || history[|history| - 1].None? then None
    else
      var recent := LastUpTo(Failures(history), config.recentFailureLimit);
      if KeyCount(history, FailureKey(history[|history| - 1].value)) >= config.repeatedFailureThreshold then
        Some(RecoveryGuidance("repeated_tool_failure_guidance", |Failures(history)|, recent))
      else if TrailingFailures(history) >= config.consecutiveFailureThreshold then
        Some(RecoveryGuidance("consecutive_tool_failure_guidance", |Failures(history)|, recent))
      else None
  }

  /** The decision owed to the result just recorded as the last entry of `history`. */
  function DecisionAfter(config: PolicyConfig, history: History, tool: string, result: HostToolResult,
                         maxOutputBytes: nat)
    : PolicyDecision
  {
    var failure := FailureOf(tool, result);
    var (output, truncation) := BoundOutput(result.outputText, config.maxOutputChars, maxOutputBytes);
    PolicyDecision(
      ToolOutput(output, failure.Some?, result.stateFingerprint.GetOr("")),
      failure, GuidanceAfter(config, history), truncation, result.debugDetailId)
  }

  /** What the provider gets for a result: an error exactly when the tool did not succeed, the host's
      fingerprint, and the host's text within the limits. */
  ghost predicate Tells(output: ToolOutput, result: HostToolResult, maxChars: nat, maxBytes: nat) {
    && (output.isError <==> !result.status.Succeeded?)
    && (if result.stateFingerprint.Some? then output.stateFingerprint == result.stateFingerprint.value
        else output.stateFingerprint == "")
    && output.output == BoundOutput(result.outputText, maxChars, maxBytes).0
  }

  /** A failure keeps what the host said of it; a denied or failed tool without a reason gets its own. */
  ghost predicate FailureTells(failure: ToolFailure, tool: string, result: HostToolResult) {
    && failure.toolName == tool && failure.retryable == result.retryable
    && failure.action == result.action && failure.summary == result.summary
    && (result.reasonCode.Some? ==> failure.reasonCode == result.reasonCode.value)
    && (result.reasonCode.None? && result.status.Denied? ==> failure.reasonCode == "tool_denied")
    && (result.reasonCode.None? && result.status.Failed? ==>
          failure.reasonCode == "tool_reported_unsuccessful_result")
  }

  /** A decision passes a result on: its output, its failure exactly when there is one, its debug id,
      and guidance as the history demands. */
  ghost predicate DecisionTells(decision: PolicyDecision, config: PolicyConfig, history: History, tool: string,
                                result: HostToolResult, maxBytes: nat) {
    && Tells(decision.providerOutput, result, config.maxOutputChars, maxBytes)
    && (decision.failure.None? <==> result.status.Succeeded?)
    && (decision.failure.Some? ==> FailureTells(decision.failure.value, tool, result))
    && decision.recoveryGuidance == GuidanceAfter(config, history)
    && decision.truncation == BoundOutput(result.outputText, config.maxOutputChars, maxBytes).1
    && decision.debugDetailId == result.debugDetailId
  }

  lemma DecisionTellsTheResult(config: PolicyConfig, history: History, tool: string, result: HostToolResult,
                               maxBytes: nat)
    ensures var decision := DecisionAfter(config, history, tool, result, maxBytes);
            DecisionTells(decision, config, history, tool, result, maxBytes)
  {
  }

  /** The incremental policy. `Valid` says that every counter agrees with the full history. */
  class ToolFailurePolicy {
    const config: PolicyConfig
    var totalFailures: nat
    var consecutiveFailures: nat
    var failuresByKey: map<string, nat>
    var recentFailures: seq<ToolFailure>
    ghost var history: History

    ghost predicate Valid()
      reads this
    {
      && config.Valid()
      && totalFailures == |Failures(history)|
      && consecutiveFailures == TrailingFailures(history)
      && recentFailures == LastUpTo(Failures(history), config.recentFailureLimit)
      && (forall key :: key in failuresByKey <==> KeyCount(history, key) > 0)
      && (forall key :: key in failuresByKey ==> failuresByKey[key] == KeyCount(history, key))
    }

    constructor (config: PolicyConfig)
      requires config.Valid()
      ensures Valid() && history == [] && this.config == config
    {
      this.config := config;
      totalFailures, consecutiveFailures := 0, 0;
      failuresByKey, recentFailures := map[], [];
      history := [];
    }

    method RecordFailure(failure: Option<ToolFailure>) returns (guidance: Option<RecoveryGuidance>)
      requires Valid()
      modifies this
      ensures Valid() && history == old(history) + [failure]
      ensures guidance == GuidanceAfter(config, history)
    {
      ghost var earlier := history;
      history := history + [failure];
      assert history[..|history| - 1] == earlier;
      if failure.None? {
        consecutiveFailures := 0;
        return None;
      }
      totalFailures := totalFailures + 1;
      consecutiveFailures := consecutiveFailures + 1;
      var recent := recentFailures + [failure.value];
      ghost var all := Failures(history);
      while |recent| > config.recentFailureLimit
        invariant |recent| <= |all| && recent == all[|all| - |recent|..]
        invariant |recent| >= Min(config.recentFailureLimit, |all|)
      {
        recent := recent[1..];
      }
      recentFailures := recent;
      var key := FailureKey(failure.value);
      var keyCount := (if key in failuresByKey then failuresByKey[key] else 0) + 1;
      failuresByKey := failuresByKey[key := keyCount];
      if keyCount >= config.repeatedFailureThreshold {
        return Some(RecoveryGuidance("repeated_tool_failure_guidance", totalFailures, recentFailures));
      }
      if consecutiveFailures >= config.consecutiveFailureThreshold {
        return Some(RecoveryGuidance("consecutive_tool_failure_guidance", totalFailures, recentFailures));
      }
      return None;
    }

    method RecordResult(tool: string, result: HostToolResult, maxOutputBytes: nat) returns (decision: PolicyDecision)
      requires Valid()
      modifies this
      ensures Valid() && history == old(history) + [FailureOf(tool, result)]
      ensures decision == DecisionAfter(config, history, tool, result, maxOutputBytes)
      ensures DecisionTells(decision, config, history, tool, result, maxOutputBytes)
    {
      var failure := FailureOf(tool, result);
      var guidance := RecordFailure(failure);
      var output, truncation := BoundToolOutput(result.outputText, config.maxOutputChars, maxOutputBytes);
      decision := PolicyDecision(
        ToolOutput(output, failure.Some?, result.stateFingerprint.GetOr("")),
        failure, guidance, truncation, result.debugDetailId);
    }
  }

  /** The results that failed under a given key. */
  ghost function KeyPositions(history: History, key: string): set<int> {
    set i | 0 <= i < |history| && history[i].Some? && FailureKey(history[i].value) == key
  }

  /** The results that failed at all. */
  ghost function FailurePositions(history: History): set<int> {
    set i | 0 <= i < |history| && history[i].Some?
  }

  ghost predicate EndsWithFailures(history: History, n: nat) {
    n <= |history| && forall i :: |history| - n <= i < |history| ==> history[i].Some?
  }

  /** The recursive counts are the sizes of the sets of results they are meant to count. */
  lemma {:induction false} KeyCountIsCardinality(history: History, key: string)
    ensures KeyCount(history, key) == |KeyPositions(history, key)|
  {
    if history != [] {
      var n := |history| - 1;
      var earlier, last := KeyPositions(history[..n], key), history[n];
      KeyCountIsCardinality(history[..n], key);
      if last.Some? && FailureKey(last.value) == key {
        assert KeyPositions(history, key) == earlier + {n};
      } else {
        assert KeyPositions(history, key) == earlier;
      }
    }
  }

  lemma {:induction false} FailureCountIsCardinality(history: History)
    ensures |Failures(history)| == |FailurePositions(history)|
  {
    if history != [] {
      var n := |history| - 1;
      var earlier := FailurePositions(history[..n]);
      FailureCountIsCardinality(history[..n]);
      assert FailurePositions(history) == if history[n].Some? then earlier + {n} else earlier;
    }
  }

  lemma {:induction false} TrailingRunIsMaximal(history: History, n: nat)
    ensures TrailingFailures(history) >= n <==> EndsWithFailures(history, n)
  {
    if history != [] && n > 0 {
      var init := history[..|history| - 1];
      TrailingRunIsMaximal(init, n - 1);
      if history[|history| - 1].Some? {
        assert EndsWithFailures(init, n - 1) <==> EndsWithFailures(history, n);
      }
    }
  }

  /** Guidance comes exactly on a failure whose key has now failed often enough or that ends a
      long enough unbroken run of failures; repetition takes priority, and the guidance reports
      the number of failures so far and the most recent of them. */
  lemma GuidanceExactlyAtThresholds(config: PolicyConfig, history: History, failure: ToolFailure)
    ensures
      var now := history + [Some(failure)];
      var repeated := |KeyPositions(now, FailureKey(failure))| >= config.repeatedFailureThreshold;
      var consecutive := EndsWithFailures(now, config.consecutiveFailureThreshold);
      var recent := LastUpTo(Failures(now), config.recentFailureLimit);
      GuidanceAfter(config, now) ==
        if repeated then Some(RecoveryGuidance("repeated_tool_failure_guidance", |FailurePositions(now)|, recent))
        else if consecutive then
          Some(RecoveryGuidance("consecutive_tool_failure_guidance", |FailurePositions(now)|, recent))
        else None
    ensures GuidanceAfter(config, history + [None]) == None
  {
    var now := history + [Some(failure)];
    KeyCountIsCardinality(now, FailureKey(failure));
    FailureCountIsCardinality(now);
    TrailingRunIsMaximal(now, config.consecutiveFailureThreshold);
  }

  /** The key joins tool and reason with a colon: two failures share it exactly when tool and reason
      agree, or when one tool name continues the other after a colon with the start of its reason. */
  lemma KeysAgreeIff(f: ToolFailure, g: ToolFailure)
    ensures FailureKey(f) == FailureKey(g) <==>
            || (f.toolName == g.toolName && f.reasonCode == g.reasonCode)
            || ColonMoved(f.toolName, f.reasonCode, g.toolName, g.reasonCode)
            || ColonMoved(g.toolName, g.reasonCode, f.toolName, f.reasonCode)
  {
    JoinedEqualIff(f.toolName, f.reasonCode, g.toolName, g.reasonCode);
  }

  /** Two tools can be confused, for some reasons, exactly when one name starts with the other and a
      colon; names free of colons never are. */
  lemma ToolsCanBeConfusedIff(tool: string, other: string)
    requires tool != other
    ensures (exists f: ToolFailure, g: ToolFailure ::
               f.toolName == tool && g.toolName == other && FailureKey(f) == FailureKey(g)) <==>
            tool + ":" <= other || other + ":" <= tool
  {
    LeftPartsMeetIff(tool, other);
    if f: ToolFailure, g: ToolFailure :| f.toolName == tool && g.toolName == other && FailureKey(f) == FailureKey(g) {
      assert tool + ":" + f.reasonCode == other + ":" + g.reasonCode;
    }
    if reason: string, reason': string :| tool + ":" + reason == other + ":" + reason' {
      var f := ToolFailure(tool, reason, false, None, None);
      var g := ToolFailure(other, reason', false, None, None);
      assert FailureKey(f) == FailureKey(g);
    }
  }

  /** A concrete pair of failures with one key. */
  lemma KeysWithColonsCanCollide()
    ensures
      var f := ToolFailure("fs:read", "denied", false, None, None);
      var g := ToolFailure("fs", "read:denied", false, None, None);
      && (f.toolName, f.reasonCode) != (g.toolName, g.reasonCode)
      && FailureKey(f) == FailureKey(g)
  {
  }
}
