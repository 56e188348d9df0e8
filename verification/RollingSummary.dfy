/** The built-in strategy: everything before the boundary becomes one bounded text. */
module RollingSummary {
  import opened Wrappers
  import opened Text
  import opened CompactionDecision
  import Policies = CompactionPolicy

  const STRATEGY_ID := "rolling_summary_compaction"
  const STRATEGY_REVISION := "rolling_summary_v1"

  // The fixed opening of every summary, in pieces.
  const OPENING := "[Rusty Crew context summary]\n"
  const EARLIER := "Earlier completed provider items "
  const WERE := "were compacted from the model-facing "
  const ONLY := "projection only. Canonical transcript "
  const REMAIN := "and tool telemetry remain authoritative.\n"

  function Header(): string {
    OPENING + EARLIER + WERE + ONLY + REMAIN
  }

  lemma HeaderIsShort()
    ensures ByteLen(Header()) == 178
  {
    PieceIsAscii1();
    PieceIsAscii2();
    PieceIsAscii3();
    PieceIsAscii4();
    PieceIsAscii5();
    ByteLenConcat(OPENING, EARLIER);
    ByteLenConcat(OPENING + EARLIER, WERE);
    ByteLenConcat(OPENING + EARLIER + WERE, ONLY);
    ByteLenConcat(OPENING + EARLIER + WERE + ONLY, REMAIN);
  }

  lemma PieceIsAscii1()
    ensures ByteLen(OPENING) == 29
  {
    AsciiByteLen(OPENING);
  }

  lemma PieceIsAscii2()
    ensures ByteLen(EARLIER) == 33
  {
    AsciiByteLen(EARLIER);
  }

  lemma PieceIsAscii3()
    ensures ByteLen(WERE) == 37
  {
    AsciiByteLen(WERE);
  }

  lemma PieceIsAscii4()
    ensures ByteLen(ONLY) == 38
  {
    AsciiByteLen(ONLY);
  }

  lemma PieceIsAscii5()
    ensures ByteLen(REMAIN) == 41
  {
    AsciiByteLen(REMAIN);
  }

  // Cutting at a character boundary

  predicate IsCharBoundary(value: string, b: nat) {
    exists k :: 0 <= k <= |value| && ByteLen(value[..k]) == b
  }

  function Truncated(value: string, maxBytes: nat): string {
    value[..LongestFit(value, maxBytes)]
  }

  /** Steps back from the byte limit to the nearest character boundary: the longest prefix of whole
      characters that fits. */
  method TruncateUtf8(value: string, maxBytes: nat) returns (prefix: string)
    ensures prefix == Truncated(value, maxBytes)
  {
    if ByteLen(value) <= maxBytes {
      assert value[..|value|] == value;
      LongestFitUnique(value, maxBytes, |value|);
      return value;
    }
    var boundary: nat := maxBytes;
    while boundary > 0 && !IsCharBoundary(value, boundary)
      invariant boundary <= maxBytes
      invariant forall b: nat :: boundary < b <= maxBytes ==> !IsCharBoundary(value, b)
    {
      boundary := boundary - 1;
    }
    assert IsCharBoundary(value, boundary) by {
      assert ByteLen(value[..0]) == 0;
    }
    var k :| 0 <= k <= |value| && ByteLen(value[..k]) == boundary;
    if k < |value| {
      ByteLenNext(value, k);
      assert IsCharBoundary(value, ByteLen(value[..k + 1]));
    }
    LongestFitUnique(value, maxBytes, k);
    prefix := value[..k];
  }

  // The summary

  function Budget(p: Policies.Policy): nat {
    Min(Max(p.TargetTokens(), 256), 4096)
  }

  function Line(item: Item): string {
    item.role + ": " + item.content + "\n"
  }

  /** One truncated line per item, until at most 32 bytes of the budget are left. */
  function Rolled(summary: string, items: seq<Item>, budget: nat): string
    decreases |items|
  {
    if items == [] || budget - ByteLen(summary) <= 32 then summary
    else Rolled(summary + Truncated(Line(items[0]), Min(budget - ByteLen(summary), 320)), items[1..], budget)
  }

  lemma {:induction false} RolledIsBounded(summary: string, items: seq<Item>, budget: nat)
    ensures ByteLen(Rolled(summary, items, budget)) <= Max(budget, ByteLen(summary))
    ensures summary <= Rolled(summary, items, budget)
    decreases |items|
  {
    if items != [] && budget - ByteLen(summary) > 32 {
      var line := Truncated(Line(items[0]), Min(budget - ByteLen(summary), 320));
      ByteLenConcat(summary, line);
      RolledIsBounded(summary + line, items[1..], budget);
    }
  }

  // What the summary says

  /** The longest front of `text`, in whole characters, that takes at most `room` bytes. */
  ghost predicate LongestFront(piece: string, text: string, room: nat) {
    && piece <= text && ByteLen(piece) <= room
    && forall k :: |piece| < k <= |text| ==> ByteLen(text[..k]) > room
  }

  ghost function Joined(pieces: seq<string>): string {
    if pieces == [] then "" else Joined(pieces[..|pieces| - 1]) + pieces[|pieces| - 1]
  }

  /** What is left of the budget after the header and some pieces. */
  ghost function Left(header: string, pieces: seq<string>, budget: nat): int {
    budget - ByteLen(header + Joined(pieces))
  }

  /** One piece per item from the first on: as much as fits of "role: content" and a line break, at most
      320 bytes, and only while more than 32 bytes are left. */
  ghost predicate PieceOk(header: string, items: seq<Item>, pieces: seq<string>, budget: nat, i: nat)
    requires i < |pieces| <= |items|
  {
    var left := Left(header, pieces[..i], budget);
    left > 32 && LongestFront(pieces[i], items[i].role + ": " + items[i].content + "\n", Min(left, 320))
  }

  ghost predicate PiecesOk(header: string, items: seq<Item>, pieces: seq<string>, budget: nat) {
    |pieces| <= |items| && forall i :: 0 <= i < |pieces| ==> PieceOk(header, items, pieces, budget, i)
  }

  /** The pieces end with the items or with the room for them. */
  ghost predicate Pieces(header: string, items: seq<Item>, pieces: seq<string>, budget: nat) {
    PiecesOk(header, items, pieces, budget) && (|pieces| == |items| || Left(header, pieces, budget) <= 32)
  }

  lemma TruncatedIsLongestFront(text: string, room: nat)
    ensures LongestFront(Truncated(text, room), text, room)
  {
    var n := LongestFit(text, room);
    forall k | n < k <= |text| ensures ByteLen(text[..k]) > room {
      ByteLenMonotone(text, n + 1, k);
    }
  }

  lemma OnePieceMore(header: string, items: seq<Item>, pieces: seq<string>, piece: string, budget: nat)
    requires |pieces| < |items| && PiecesOk(header, items, pieces, budget)
    requires var left := Left(header, pieces, budget);
             left > 32 && piece == Truncated(Line(items[|pieces|]), Min(left, 320))
    ensures PiecesOk(header, items, pieces + [piece], budget)
  {
    hide LongestFront, Truncated, Left;
    var more := pieces + [piece];
    TruncatedIsLongestFront(Line(items[|pieces|]), Min(Left(header, pieces, budget), 320));
    forall i | 0 <= i < |more| ensures PieceOk(header, items, more, budget, i) {
      assert more[..i] == pieces[..i];
      if i < |pieces| {
        assert PieceOk(header, items, pieces, budget, i);
      } else {
        assert pieces[..i] == pieces;
      }
    }
  }

  lemma RollsOnce(header: string, items: seq<Item>, budget: nat, before: seq<string>, piece: string)
    requires |before| < |items|
    requires var left := Left(header, before, budget);
             left > 32 && piece == Truncated(Line(items[|before|]), Min(left, 320))
    ensures Rolled(header + Joined(before), items[|before|..], budget) ==
            Rolled(header + Joined(before + [piece]), items[|before| + 1..], budget)
  {
    hide Truncated, Line, ByteLen;
    assert (before + [piece])[..|before|] == before;
    assert items[|before|..][1..] == items[|before| + 1..];
    assert header + Joined(before) + piece == header + (Joined(before) + piece);
  }

  /** Rolling on from some pieces adds the remaining ones. */
  lemma {:induction false} RollsOn(header: string, items: seq<Item>, budget: nat, before: seq<string>)
    returns (pieces: seq<string>)
    requires PiecesOk(header, items, before, budget)
    ensures Pieces(header, items, pieces, budget)
    ensures Rolled(header + Joined(before), items[|before|..], budget) == header + Joined(pieces)
    decreases |items| - |before|
  {
    hide Truncated, Line, ByteLen, Joined, PieceOk;
    pieces := before;
    var n, left := |before|, Left(header, before, budget);
    if n < |items| && left > 32 {
      var piece := Truncated(Line(items[n]), Min(left, 320));
      OnePieceMore(header, items, before, piece, budget);
      RollsOnce(header, items, budget, before, piece);
      pieces := RollsOn(header, items, budget, before + [piece]);
    }
  }

  lemma LongestFrontIsUnique(a: string, b: string, text: string, room: nat)
    requires LongestFront(a, text, room) && LongestFront(b, text, room)
    ensures a == b
  {
    assert a == text[..|a|] && b == text[..|b|];
  }

  lemma {:induction false} SameFront(header: string, items: seq<Item>, p: seq<string>, q: seq<string>,
                                     budget: nat, n: nat)
    requires Pieces(header, items, p, budget) && Pieces(header, items, q, budget) && n <= |p| && n <= |q|
    ensures p[..n] == q[..n]
  {
    if n > 0 {
      SameFront(header, items, p, q, budget, n - 1);
      assert PieceOk(header, items, p, budget, n - 1) && PieceOk(header, items, q, budget, n - 1);
      var left := Left(header, p[..n - 1], budget);
      var text := items[n - 1].role + ": " + items[n - 1].content + "\n";
      LongestFrontIsUnique(p[n - 1], q[n - 1], text, Min(left, 320));
      assert p[..n] == p[..n - 1] + [p[n - 1]] && q[..n] == q[..n - 1] + [q[n - 1]];
    }
  }

  lemma PiecesAreUnique(header: string, items: seq<Item>, p: seq<string>, q: seq<string>, budget: nat)
    requires Pieces(header, items, p, budget) && Pieces(header, items, q, budget) && |p| <= |q|
    ensures p == q
  {
    SameFront(header, items, p, q, budget, |p|);
    assert p[..|p|] == p;
    assert |p| < |q| ==> PieceOk(header, items, q, budget, |p|);
  }

  /** The summary is the header followed by the pieces, and nothing else is. */
  lemma SummaryIsPieces(header: string, items: seq<Item>, budget: nat, summary: string)
    ensures summary == Rolled(header, items, budget) <==>
            exists pieces :: Pieces(header, items, pieces, budget) && summary == header + Joined(pieces)
  {
    var rolled := RollsOn(header, items, budget, []);
    assert items[0..] == items && header + "" == header;
    if pieces :| Pieces(header, items, pieces, budget) && summary == header + Joined(pieces) {
      if |pieces| <= |rolled| {
        PiecesAreUnique(header, items, pieces, rolled, budget);
      } else {
        PiecesAreUnique(header, items, rolled, pieces, budget);
      }
    }
  }

  method Summarize(header: string, items: seq<Item>, budget: nat) returns (summary: string)
    ensures summary == Rolled(header, items, budget)
    ensures exists pieces :: Pieces(header, items, pieces, budget) && summary == header + Joined(pieces)
  {
    SummaryIsPieces(header, items, budget, Rolled(header, items, budget));
    summary := header;
    var i := 0;
    while i < |items|
      invariant 0 <= i <= |items|
      invariant Rolled(header, items, budget) == Rolled(summary, items[i..], budget)
    {
      var remaining := Max(budget - ByteLen(summary), 0);
      if remaining <= 32 {
        break;
      }
      var line := TruncateUtf8(Line(items[i]), Min(remaining, 320));
      assert items[i..][1..] == items[i + 1..];
      summary := summary + line;
      i := i + 1;
    }
  }

  ghost function DecisionFor(input: Input): Decision
    requires input.compactBefore <= |input.items|
  {
    var before, after := input.items[..input.compactBefore], input.items[input.compactBefore..];
    Decision(STRATEGY_ID, STRATEGY_REVISION, Rolled(Header(), before, Budget(input.policy)),
             RefsOf(before), RefsOf(after), Lineage(input.fingerprint, input.boundaryId, input.parentArtifactId))
  }

  datatype PreserveError = NothingToCompact

  method Preserve(input: Input) returns (r: Result<Decision, PreserveError>)
    requires input.compactBefore <= |input.items|
    ensures r == if input.compactBefore == 0 then Err(NothingToCompact) else Ok(DecisionFor(input))
  {
    var boundary := input.compactBefore;
    if boundary == 0 {
      return Err(NothingToCompact);
    }
    var summary := Summarize(Header(), input.items[..boundary], Budget(input.policy));
    r := Ok(Decision(STRATEGY_ID, STRATEGY_REVISION, summary,
                     RefsOf(input.items[..boundary]), RefsOf(input.items[boundary..]),
                     Lineage(input.fingerprint, input.boundaryId, input.parentArtifactId)));
  }

  /** What the decision says: the items before the boundary are compacted and the others retained, in
      order, and the summary is the header and the pieces of the compacted items, in a budget of the
      target tokens taken as bytes, but at least 256 and at most 4096. */
  lemma BaselineSays(input: Input, budget: nat)
    requires input.compactBefore <= |input.items| && 256 <= budget <= 4096
    requires var target := input.policy.TargetTokens();
             target == budget || (target < 256 && budget == 256) || (target > 4096 && budget == 4096)
    ensures var d := DecisionFor(input);
            && |d.compacted| == input.compactBefore && d.compacted + d.retained == RefsOf(input.items)
            && exists pieces :: Pieces(Header(), input.items[..input.compactBefore], pieces, budget)
                                && d.summary == Header() + Joined(pieces)
  {
    RefsOfParts(input.items, input.compactBefore);
    var d := DecisionFor(input);
    SummaryIsPieces(Header(), input.items[..input.compactBefore], budget, d.summary);
  }

  lemma RefsOfParts(items: seq<Item>, b: nat)
    requires b <= |items|
    ensures RefsOf(items) == RefsOf(items[..b]) + RefsOf(items[b..])
  {
  }

  lemma NamesAreNotBlank(summary: string)
    requires Header() <= summary
    ensures !IsBlank(STRATEGY_REVISION) && !IsBlank(summary)
  {
    assert STRATEGY_REVISION[0] == 'r';
    assert Header()[0] == OPENING[0] == '[';
    assert summary[0] == '[';
  }

  lemma SplitIsSafe(input: Input, d: Decision, refs: seq<string>)
    requires ValidInput(input) && refs == RefsOf(input.items) && refs == d.compacted + d.retained
    requires |d.compacted| == input.compactBefore
    ensures UniqueAndDisjoint(d)
    ensures forall i :: 0 <= i < |input.items| ==> SafeFor(input, d, i)
  {
    var b := input.compactBefore;
    forall i, k | 0 <= i < |d.compacted| && 0 <= k < |d.retained| ensures d.compacted[i] != d.retained[k] {
      assert refs[i] == d.compacted[i] && refs[b + k] == d.retained[k];
    }
    forall i, j | 0 <= i < j < |d.retained| ensures d.retained[i] != d.retained[j] {
      assert refs[b + i] == d.retained[i] && refs[b + j] == d.retained[j];
    }
    forall i, j | 0 <= i < j < |d.compacted| ensures d.compacted[i] != d.compacted[j] {
      assert refs[i] == d.compacted[i] && refs[j] == d.compacted[j];
    }
    forall i | 0 <= i < |input.items| ensures SafeFor(input, d, i) {
      assert input.items[i].sourceRef == refs[i];
      if i < b {
        assert d.compacted[i] == refs[i];
      } else {
        assert d.retained[i - b] == refs[i];
      }
    }
  }

  /** For every valid input with something to compact whose policy selects it, the built-in strategy's
      decision is accepted, names only snapshot items and keeps its summary within the budget. */
  lemma BaselineIsAccepted(input: Input)
    requires ValidInput(input) && input.compactBefore > 0 && input.policy.strategyId == STRATEGY_ID
    ensures var d := DecisionFor(input);
            && Accepted(input, STRATEGY_ID, STRATEGY_REVISION, d)
            && OnlySnapshotRefs(input, d)
            && ByteLen(d.summary) <= Budget(input.policy)
            && Header() <= d.summary
  {
    var d := DecisionFor(input);
    var before := input.items[..input.compactBefore];
    RolledIsBounded(Header(), before, Budget(input.policy));
    HeaderIsShort();
    NamesAreNotBlank(d.summary);
    RefsOfParts(input.items, input.compactBefore);
    SplitIsSafe(input, d, RefsOf(input.items));
    assert d.compacted[0] == before[0].sourceRef;
    AcceptedIff(input, STRATEGY_ID, STRATEGY_REVISION, d);
    OnlySnapshotRefsIff(input, STRATEGY_ID, STRATEGY_REVISION, d);
  }
}
