/** The names of durable host-tool operations: one base name per slot of a continuation, and a
    numbered retry suffix for every attempt after the first. */
module OperationIds {
  import opened Wrappers
  import opened Text

  /** The name of a slot's first attempt. */
  function SlotId(turnId: string, continuationId: string, slot: nat): string {
    "operation:" + turnId + ":" + continuationId + ":" + "host-tool" + ":" + Decimal(slot)
  }

  /** The name of an attempt, given the name of the first. */
  function AttemptId(slotId: string, attempt: nat): string {
    if attempt == 0 then slotId else slotId + ":" + "retry" + ":" + Decimal(attempt)
  }

  /** Reads an attempt number off a name, if the name belongs to the slot. */
  function AttemptOf(slotId: string, operationId: string): Option<nat> {
    var prefix := slotId + ":" + "retry" + ":";
    if operationId == slotId then Some(0)
    else if prefix <= operationId then ParseU64(operationId[|prefix|..])
    else None
  }

  lemma NoColonInDecimal(n: nat)
    ensures ':' !in Decimal(n)
  {
  }

  lemma NoColonInNumber(s: string)
    requires ParseU64(s).Some?
    ensures ':' !in s
  {
    if |s| > 1 && s[0] == '+' {
      assert s == ['+'] + s[1..];
    }
  }

  /** Reading undoes writing, for every attempt number that fits. */
  lemma AttemptOfAttemptId(slotId: string, attempt: nat)
    requires attempt <= U64_MAX
    ensures AttemptOf(slotId, AttemptId(slotId, attempt)) == Some(attempt)
  {
    if attempt > 0 {
      var prefix := slotId + ":" + "retry" + ":";
      var id := AttemptId(slotId, attempt);
      assert id == prefix + Decimal(attempt);
      assert id[|prefix|..] == Decimal(attempt);
      ParseDecimal(attempt);
    }
  }

  lemma RetryIsNotHostTool()
    ensures ':' !in "retry" && ':' !in "host-tool" && "retry" != "host-tool"
  {
    assert |"retry"| == 5 && |"host-tool"| == 9;
  }

  /** A retry name is never the first name of any slot, even when the parts contain colons. */
  lemma RetryIsNotFirst(x: string, y: string, u: string, v: string)
    requires ':' !in u && ':' !in v
    ensures x + ":" + "retry" + ":" + u != y + ":" + "host-tool" + ":" + v
  {
    RetryIsNotHostTool();
    if x + ":" + "retry" + ":" + u == y + ":" + "host-tool" + ":" + v {
      SplitAtLastColon(x + ":" + "retry", u, y + ":" + "host-tool", v);
      SplitAtLastColon(x, "retry", y, "host-tool");
    }
  }

  lemma SameRetry(x: string, y: string, u: string, v: string)
    requires ':' !in u && ':' !in v
    requires x + ":" + "retry" + ":" + u == y + ":" + "retry" + ":" + v
    ensures x == y && u == v
  {
    RetryIsNotHostTool();
    SplitAtLastColon(x + ":" + "retry", u, y + ":" + "retry", v);
    SplitAtLastColon(x, "retry", y, "retry");
  }

  function Owner(turnId: string, continuationId: string): string {
    "operation:" + turnId + ":" + continuationId
  }

  lemma OwnersAgreeIff(t: string, c: string, t': string, c': string)
    ensures Owner(t, c) == Owner(t', c') <==>
            (t == t' && c == c') || ColonMoved(t, c, t', c') || ColonMoved(t', c', t, c)
  {
    var prefix := "operation:";
    assert Owner(t, c) == prefix + (t + ":" + c) && Owner(t', c') == prefix + (t' + ":" + c');
    assert Owner(t, c)[|prefix|..] == t + ":" + c && Owner(t', c')[|prefix|..] == t' + ":" + c';
    JoinedEqualIff(t, c, t', c');
  }

  lemma SlotIdsShareOwner(t: string, c: string, s: nat, t': string, c': string, s': nat)
    ensures SlotId(t, c, s) == SlotId(t', c', s') <==> s == s' && Owner(t, c) == Owner(t', c')
  {
    NoColonInDecimal(s);
    NoColonInDecimal(s');
    RetryIsNotHostTool();
    if SlotId(t, c, s) == SlotId(t', c', s') {
      SplitAtLastColon(Owner(t, c) + ":" + "host-tool", Decimal(s), Owner(t', c') + ":" + "host-tool", Decimal(s'));
      SplitAtLastColon(Owner(t, c), "host-tool", Owner(t', c'), "host-tool");
      DecimalInjective(s, s');
    }
  }

  /** Two slots share a first name exactly when they are the same slot of the same continuation and
      turn, or when one turn id continues the other after a colon with the start of its continuation. */
  lemma SlotIdsCollideIff(t: string, c: string, s: nat, t': string, c': string, s': nat)
    ensures SlotId(t, c, s) == SlotId(t', c', s') <==>
            s == s' && ((t == t' && c == c') || ColonMoved(t, c, t', c') || ColonMoved(t', c', t, c))
  {
    SlotIdsShareOwner(t, c, s, t', c', s');
    OwnersAgreeIff(t, c, t', c');
  }

  /** The engine's turn ids: a fixed prefix and a hash of 64 digits. */
  predicate IsEngineTurnId(t: string) {
    "turn:" <= t && |t| == 5 + 64
  }

  /** Operation names of turns the engine made never coincide, whatever the continuations: turn ids of
      one length cannot continue each other. */
  lemma EngineOperationIdsAreDistinct(t: string, c: string, s: nat, a: nat, t': string, c': string, s': nat, a': nat)
    requires IsEngineTurnId(t) && IsEngineTurnId(t')
    ensures AttemptId(SlotId(t, c, s), a) == AttemptId(SlotId(t', c', s'), a') <==>
            t == t' && c == c' && s == s' && a == a'
  {
    SlotIdsCollideIff(t, c, s, t', c', s');
    assert !ColonMoved(t, c, t', c') && !ColonMoved(t', c', t, c);
    AttemptIdsAgreeIff(Owner(t, c), s, a, Owner(t', c'), s', a');
  }

  lemma AttemptIdsAgreeIff(o: string, s: nat, a: nat, o': string, s': nat, a': nat)
    ensures var slot, slot' := o + ":" + "host-tool" + ":" + Decimal(s), o' + ":" + "host-tool" + ":" + Decimal(s');
            AttemptId(slot, a) == AttemptId(slot', a') <==> slot == slot' && a == a'
  {
    var slot, slot' := o + ":" + "host-tool" + ":" + Decimal(s), o' + ":" + "host-tool" + ":" + Decimal(s');
    NoColonInDecimal(s);
    NoColonInDecimal(s');
    NoColonInDecimal(a);
    NoColonInDecimal(a');
    if a == 0 && a' > 0 {
      RetryIsNotFirst(slot', o, Decimal(a'), Decimal(s));
    } else if a > 0 && a' == 0 {
      RetryIsNotFirst(slot, o', Decimal(a), Decimal(s'));
    } else if a > 0 && AttemptId(slot, a) == AttemptId(slot', a') {
      SameRetry(slot, slot', Decimal(a), Decimal(a'));
      DecimalInjective(a, a');
    }
  }

  lemma OwnersOfOneTurn(t: string, c: string, c': string)
    ensures Owner(t, c) == Owner(t, c') <==> c == c'
  {
    var prefix := "operation:" + t + ":";
    assert Owner(t, c)[|prefix|..] == c && Owner(t, c')[|prefix|..] == c';
  }

  /** A name is read as an attempt of a slot only if it was written as that attempt of that slot:
      within a turn, neither another slot (1 and 10, say) nor another continuation, whatever
      characters its id contains, is ever mistaken for it. */
  lemma AttemptsAreReadBackExactly(t: string, c: string, s: nat, c': string, s': nat, attempt: nat)
    requires attempt <= U64_MAX
    ensures AttemptOf(SlotId(t, c, s), AttemptId(SlotId(t, c', s'), attempt)) ==
            if c == c' && s == s' then Some(attempt) else None
  {
    var slot, other := SlotId(t, c, s), SlotId(t, c', s');
    if slot == other {
      SlotIdsShareOwner(t, c, s, t, c', s');
      OwnersOfOneTurn(t, c, c');
      AttemptOfAttemptId(slot, attempt);
    } else {
      NoColonInDecimal(s);
      NoColonInDecimal(s');
      NoColonInDecimal(attempt);
      var id := AttemptId(other, attempt);
      NotReadAsOther(Owner(t, c), s, Owner(t, c'), s', slot, other, attempt, id);
    }
  }

  lemma NotReadAsOther(o: string, s: nat, o': string, s': nat, slot: string, other: string, attempt: nat, id: string)
    requires slot == o + ":" + "host-tool" + ":" + Decimal(s) && other == o' + ":" + "host-tool" + ":" + Decimal(s')
    requires slot != other && id == AttemptId(other, attempt)
    ensures AttemptOf(slot, id) == None
  {
    NoColonInDecimal(attempt);
    if attempt > 0 {
      NoColonInDecimal(s);
      RetryIsNotFirst(other, o, Decimal(attempt), Decimal(s));
    }
    var prefix := slot + ":" + "retry" + ":";
    if prefix <= id {
      var rest := id[|prefix|..];
      assert id == prefix + rest;
      if attempt == 0 {
        FirstHasNoRetry(slot, o', s', rest);
      } else {
        RetryOfAnother(slot, other, attempt, rest);
      }
    }
  }

  lemma FirstHasNoRetry(slot: string, o': string, s': nat, rest: string)
    requires slot + ":" + "retry" + ":" + rest == o' + ":" + "host-tool" + ":" + Decimal(s')
    ensures ParseU64(rest) == None
  {
    NoColonInDecimal(s');
    if ParseU64(rest) != None {
      NoColonInNumber(rest);
      RetryIsNotFirst(slot, o', rest, Decimal(s'));
    }
  }

  lemma RetryOfAnother(slot: string, other: string, attempt: nat, rest: string)
    requires slot != other
    requires slot + ":" + "retry" + ":" + rest == other + ":" + "retry" + ":" + Decimal(attempt)
    ensures ParseU64(rest) == None
  {
    NoColonInDecimal(attempt);
    if ParseU64(rest) != None {
      NoColonInNumber(rest);
      SameRetry(slot, other, rest, Decimal(attempt));
    }
  }

  /** A name whose last-but-one part is neither of the two used here is never read as an attempt. */
  lemma OnlyHostToolNamesAreRead(o: string, s: nat, x: string, tag: string, u: string)
    requires ':' !in tag && ':' !in u && tag != "host-tool" && tag != "retry"
    ensures AttemptOf(o + ":" + "host-tool" + ":" + Decimal(s), x + ":" + tag + ":" + u) == None
  {
    var slot, id := o + ":" + "host-tool" + ":" + Decimal(s), x + ":" + tag + ":" + u;
    NoColonInDecimal(s);
    RetryIsNotHostTool();
    if id == slot {
      SplitAtLastColon(x + ":" + tag, u, o + ":" + "host-tool", Decimal(s));
      SplitAtLastColon(x, tag, o, "host-tool");
    }
    var prefix := slot + ":" + "retry" + ":";
    if prefix <= id && ParseU64(id[|prefix|..]).Some? {
      NotARetry(slot, id[|prefix|..], x, tag, u, id, prefix);
    }
  }

  lemma NotARetry(slot: string, rest: string, x: string, tag: string, u: string, id: string, prefix: string)
    requires ':' !in tag && ':' !in u && tag != "retry"
    requires prefix == slot + ":" + "retry" + ":" && id == x + ":" + tag + ":" + u
    requires prefix <= id && rest == id[|prefix|..]
    ensures ParseU64(rest) == None
  {
    RetryIsNotHostTool();
    assert id == prefix + rest;
    if ParseU64(rest).Some? {
      NoColonInNumber(rest);
      SplitAtLastColon(x + ":" + tag, u, slot + ":" + "retry", rest);
      SplitAtLastColon(x, tag, slot, "retry");
    }
  }

  /** The name of a provider request: the epoch's hash, and a request number after the first. */
  function ProviderId(turnId: string, continuationId: string, hash: string, request: nat): string {
    var first := Owner(turnId, continuationId) + ":" + "provider" + ":" + hash;
    if request == 0 then first else first + ":" + "request" + ":" + Decimal(request)
  }

  /** The turn's provider requests share the ledger but are never read as host-tool attempts. */
  lemma ProviderRequestsAreNotAttempts(t: string, c: string, s: nat, c': string, hash: string, request: nat)
    requires ':' !in hash
    ensures AttemptOf(SlotId(t, c, s), ProviderId(t, c', hash, request)) == None
  {
    assert |"provider"| == 8 && |"request"| == 7;
    RetryIsNotHostTool();
    if request == 0 {
      OnlyHostToolNamesAreRead(Owner(t, c), s, Owner(t, c'), "provider", hash);
    } else {
      NoColonInDecimal(request);
      OnlyHostToolNamesAreRead(Owner(t, c), s, Owner(t, c') + ":" + "provider" + ":" + hash, "request",
                               Decimal(request));
    }
  }
}
