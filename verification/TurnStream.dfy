/** The brain stream: items, the merging of adjacent deltas, and what an item means to a reader
    who sees the stream one character at a time. */
module TurnStream {
  import opened Wrappers
  import opened Text

  datatype BrainEvent =
    | TextDelta(text: string)
    | ReasoningDelta(text: string, format: Option<string>)
    | OtherEvent(payload: string)

  datatype StreamItem =
    | Event(wakeId: string, sessionId: string, event: BrainEvent)
    | Actions(wakeId: string, sessionId: string, batch: string)
    | WakeFailed(wakeId: string, sessionId: string, kindReason: string, reasonCode: Option<string>, message: string)
  {
    predicate IsTerminal() {
      Actions? || WakeFailed?
    }

    predicate IsDelta() {
      Event? && !event.OtherEvent?
    }

    function DeltaBytes(): nat {
      if IsDelta() then ByteLen(event.text) else 0
    }
  }

  datatype SequencedItem = SequencedItem(sequence: nat, item: StreamItem)

  type Queue = seq<SequencedItem>

  /** Two adjacent deltas of the same kind, and of the same format for reasoning, become one. */
  function Coalesced(last: StreamItem, incoming: StreamItem): (merged: Option<StreamItem>) {
    if !(last.Event? && incoming.Event?) then None
    else
      match (last.event, incoming.event)
      case (TextDelta(a), TextDelta(b)) => Some(last.(event := TextDelta(a + b)))
      case (ReasoningDelta(a, f), ReasoningDelta(b, g)) =>
        if f == g then Some(last.(event := ReasoningDelta(a + b, f))) else None
      case _ => None
  }

  function QueuedDeltaBytes(queue: Queue): nat {
    if queue == [] then 0 else QueuedDeltaBytes(queue[..|queue| - 1]) + queue[|queue| - 1].item.DeltaBytes()
  }

  // ---------- meaning ----------

  /** What a reader of the stream observes: one character of text, one character of reasoning in
      some format, or an item that is not a delta. */
  datatype Atom = TextChar(c: char) | ReasoningChar(format: Option<string>, r: char) | Whole(item: StreamItem)

  ghost function TextAtoms(text: string): seq<Atom> {
    if text == [] then [] else TextAtoms(text[..|text| - 1]) + [TextChar(text[|text| - 1])]
  }

  ghost function ReasoningAtoms(text: string, format: Option<string>): seq<Atom> {
    if text == [] then [] else ReasoningAtoms(text[..|text| - 1], format) + [ReasoningChar(format, text[|text| - 1])]
  }

  ghost function Expand(item: StreamItem): seq<Atom> {
    match item
    case Event(_, _, TextDelta(text)) => TextAtoms(text)
    case Event(_, _, ReasoningDelta(text, format)) => ReasoningAtoms(text, format)
    case _ => [Whole(item)]
  }

  /** The stream a sequence of items stands for. */
  ghost function ExpandAll(items: seq<StreamItem>): seq<Atom> {
    if items == [] then [] else ExpandAll(items[..|items| - 1]) + Expand(items[|items| - 1])
  }

  /** The stream a sequence of numbered entries stands for. */
  ghost function Meaning(entries: Queue): seq<Atom> {
    if entries == [] then [] else Meaning(entries[..|entries| - 1]) + Expand(entries[|entries| - 1].item)
  }

  // ---------- lemmas ----------

  lemma ConcatAssoc<T>(a: seq<T>, b: seq<T>, c: seq<T>)
    ensures a + (b + c) == a + b + c
  {
  }

  /** Both carry text, or both carry reasoning of one format. */
  predicate SameKind(a: StreamItem, b: StreamItem) {
    && a.Event? && b.Event?
    && (|| (a.event.TextDelta? && b.event.TextDelta?)
        || (a.event.ReasoningDelta? && b.event.ReasoningDelta? && a.event.format == b.event.format))
  }

  /** Two items merge exactly when they are deltas of one kind; the merged one is the earlier one with the
      later one's text behind its own. */
  lemma MergesIffSameKind(last: StreamItem, incoming: StreamItem)
    ensures Coalesced(last, incoming).Some? <==> SameKind(last, incoming)
    ensures SameKind(last, incoming) ==>
              var merged := Coalesced(last, incoming).value;
              && SameKind(last, merged) && merged.wakeId == last.wakeId && merged.sessionId == last.sessionId
              && merged.event.text == last.event.text + incoming.event.text
  {
  }

  lemma ExpandAllAppend(items: seq<StreamItem>, item: StreamItem)
    ensures ExpandAll(items + [item]) == ExpandAll(items) + Expand(item)
  {
    assert (items + [item])[..|items|] == items;
  }

  lemma MeaningAppend(entries: Queue, entry: SequencedItem)
    ensures Meaning(entries + [entry]) == Meaning(entries) + Expand(entry.item)
  {
    assert (entries + [entry])[..|entries|] == entries;
  }

  lemma {:induction false} TextAtomsConcat(a: string, b: string)
    ensures TextAtoms(a + b) == TextAtoms(a) + TextAtoms(b)
  {
    if b == [] {
      assert a + b == a;
    } else {
      TextAtomsConcat(a, b[..|b| - 1]);
      assert (a + b)[..|a + b| - 1] == a + b[..|b| - 1];
    }
  }

  lemma {:induction false} ReasoningAtomsConcat(a: string, b: string, format: Option<string>)
    ensures ReasoningAtoms(a + b, format) == ReasoningAtoms(a, format) + ReasoningAtoms(b, format)
  {
    if b == [] {
      assert a + b == a;
    } else {
      ReasoningAtomsConcat(a, b[..|b| - 1], format);
      assert (a + b)[..|a + b| - 1] == a + b[..|b| - 1];
    }
  }

  /** Merging two deltas loses nothing, keeps them in order and adds their bytes. */
  lemma CoalescingKeepsMeaning(last: StreamItem, incoming: StreamItem)
    requires Coalesced(last, incoming).Some?
    ensures
      var merged := Coalesced(last, incoming).value;
      && last.IsDelta() && incoming.IsDelta() && merged.IsDelta()
      && Expand(merged) == Expand(last) + Expand(incoming)
      && merged.DeltaBytes() == last.DeltaBytes() + incoming.DeltaBytes()
      && (merged.wakeId, merged.sessionId) == (last.wakeId, last.sessionId)
  {
    ByteLenConcat(last.event.text, incoming.event.text);
    if last.event.TextDelta? {
      TextAtomsConcat(last.event.text, incoming.event.text);
    } else {
      ReasoningAtomsConcat(last.event.text, incoming.event.text, last.event.format);
    }
  }

  /** Whether an item merges with its neighbour depends only on its kind and format. */
  lemma MergingKeepsKind(last: StreamItem, incoming: StreamItem, other: StreamItem)
    requires Coalesced(last, incoming).Some?
    ensures Coalesced(other, last).Some? <==> Coalesced(other, Coalesced(last, incoming).value).Some?
  {
  }

  lemma {:induction false} QueuedBytesConcat(a: Queue, b: Queue)
    ensures QueuedDeltaBytes(a + b) == QueuedDeltaBytes(a) + QueuedDeltaBytes(b)
  {
    if b == [] {
      assert a + b == a;
    } else {
      var init := b[..|b| - 1];
      QueuedBytesConcat(a, init);
      assert (a + b)[..|a + b| - 1] == a + init;
    }
  }

  lemma QueuedBytesAppend(queue: Queue, entry: SequencedItem)
    ensures QueuedDeltaBytes(queue + [entry]) == QueuedDeltaBytes(queue) + entry.item.DeltaBytes()
  {
    assert (queue + [entry])[..|queue|] == queue;
  }

  lemma QueuedBytesPop(queue: Queue)
    requires queue != []
    ensures QueuedDeltaBytes(queue) == queue[0].item.DeltaBytes() + QueuedDeltaBytes(queue[1..])
  {
    assert queue == [queue[0]] + queue[1..];
    QueuedBytesConcat([queue[0]], queue[1..]);
    QueuedBytesAppend([], queue[0]);
    assert [] + [queue[0]] == [queue[0]];
  }

  /** Growing the last entry by some atoms grows the meaning by the same atoms. */
  lemma MeaningOfGrownLast(before: Queue, last: SequencedItem, grown: SequencedItem, more: seq<Atom>)
    requires Expand(grown.item) == Expand(last.item) + more
    ensures Meaning(before + [grown]) == Meaning(before + [last]) + more
  {
    MeaningAppend(before, last);
    MeaningAppend(before, grown);
    ConcatAssoc(Meaning(before), Expand(last.item), more);
  }
}
