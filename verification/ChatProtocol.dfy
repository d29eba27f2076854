/**
 The chat context that the dispatcher builds: messages, the pairing of tool calls with
 tool results that the LLM protocol demands, and the compaction applied when a context
 overflows (src/agent/dispatcher.rs, src/llm/provider.rs).
 */
module ChatProtocol {
  /** A tool call; its arguments are kept as JSON text. */
  datatype ToolCall = ToolCall(id: string, name: string, arguments: string)

  /** An assistant message without tool calls has an empty `calls`. */
  datatype Message =
    | System(content: string)
    | User(content: string)
    | Assistant(content: string, calls: seq<ToolCall>)
    | Tool(callId: string, name: string, content: string)

  const COMPACTION_NOTE: string :=
    "[Note: Earlier conversation history was automatically compacted to fit within the context window. The most recent exchange is preserved below.]"

  function Ids(calls: seq<ToolCall>): (ids: seq<string>)
    ensures |ids| == |calls|
    ensures forall i :: 0 <= i < |calls| ==> ids[i] == calls[i].id
  {
    seq(|calls|, i requires 0 <= i < |calls| => calls[i].id)
  }

  // ---------- The protocol as a ledger of calls still owed a result ----------

  datatype Ledger = Broken | Owing(ids: seq<string>)

  /** The ledger after one more message. */
  function Account(ledger: Ledger, m: Message): Ledger {
    if ledger.Broken? then Broken
    else if m.Tool? then
      if ledger.ids != [] && ledger.ids[0] == m.callId then Owing(ledger.ids[1..]) else Broken
    else if ledger.ids != [] then Broken
    else if m.Assistant? then Owing(Ids(m.calls))
    else ledger
  }

  function Settle(ledger: Ledger, msgs: seq<Message>): Ledger {
    if msgs == [] then ledger
    else Account(Settle(ledger, msgs[..|msgs| - 1]), msgs[|msgs| - 1])
  }

  predicate WellFormed(msgs: seq<Message>) {
    Settle(Owing([]), msgs) == Owing([])
  }

  // ---------- The protocol said directly, without a ledger ----------

  /** Position `j` holds a result that belongs to the block opened by message `i`. */
  predicate Covers(msgs: seq<Message>, i: int, j: int)
    requires 0 <= i < |msgs|
  {
    msgs[i].Assistant? && i < j <= i + |msgs[i].calls|
  }

  /** Position `j` holds the result for the matching call of message `i`. */
  predicate Answers(msgs: seq<Message>, i: int, j: int)
    requires 0 <= i < |msgs| && Covers(msgs, i, j)
  {
    j < |msgs| && msgs[j].Tool? && msgs[j].callId == msgs[i].calls[j - i - 1].id
  }

  ghost predicate Opened(msgs: seq<Message>, j: int)
    requires 0 <= j < |msgs|
  {
    exists i :: 0 <= i < j && Covers(msgs, i, j)
  }

  /** Every assistant message is followed at once by exactly one result per call, in order,
      and no result stands outside such a block. */
  ghost predicate Paired(msgs: seq<Message>) {
    && (forall i, j {:trigger Covers(msgs, i, j)} ::
          0 <= i < |msgs| && Covers(msgs, i, j) ==> Answers(msgs, i, j))
    && (forall j {:trigger Opened(msgs, j)} :: 0 <= j < |msgs| && msgs[j].Tool? ==> Opened(msgs, j))
  }

  // ---------- Ledger algebra ----------

  lemma {:induction false} SettleAppend(ledger: Ledger, a: seq<Message>, b: seq<Message>)
    ensures Settle(ledger, a + b) == Settle(Settle(ledger, a), b)
    decreases |b|
  {
    if b == [] {
      assert a + b == a;
    } else {
      assert (a + b)[..|a + b| - 1] == a + b[..|b| - 1];
      SettleAppend(ledger, a, b[..|b| - 1]);
    }
  }

  lemma SettleOne(ledger: Ledger, m: Message)
    ensures Settle(ledger, [m]) == Account(ledger, m)
  {
    assert [m][..0] == [];
    assert Settle(ledger, []) == ledger;
  }

  lemma {:induction false} SettleBroken(msgs: seq<Message>)
    ensures Settle(Broken, msgs) == Broken
  {
    if msgs != [] { SettleBroken(msgs[..|msgs| - 1]); }
  }

  /** In a well-formed history nothing is owed just before a user message. */
  lemma SplitAtUser(msgs: seq<Message>, i: nat)
    requires WellFormed(msgs) && i < |msgs| && msgs[i].User?
    ensures WellFormed(msgs[..i]) && WellFormed(msgs[i..])
  {
    assert msgs == msgs[..i] + msgs[i..];
    SettleAppend(Owing([]), msgs[..i], msgs[i..]);
    var before := Settle(Owing([]), msgs[..i]);
    var rest := msgs[i + 1..];
    assert msgs[i..] == [msgs[i]] + rest;
    SettleAppend(before, [msgs[i]], rest);
    SettleOne(before, msgs[i]);
    SettleBroken(rest);
  }

  // ---------- The ledger decides exactly the direct statement ----------

  function LedgerAt(msgs: seq<Message>, k: nat): Ledger
    requires k <= |msgs|
  {
    Settle(Owing([]), msgs[..k])
  }

  lemma LedgerStep(msgs: seq<Message>, k: nat)
    requires k < |msgs|
    ensures LedgerAt(msgs, k + 1) == Account(LedgerAt(msgs, k), msgs[k])
  {
    assert msgs[..k + 1][..k] == msgs[..k];
  }

  lemma {:induction false} LedgerNeverBroken(msgs: seq<Message>, k: nat)
    requires WellFormed(msgs) && k <= |msgs|
    ensures LedgerAt(msgs, k).Owing?
    decreases |msgs| - k
  {
    if k == |msgs| {
      assert msgs[..k] == msgs;
    } else {
      LedgerNeverBroken(msgs, k + 1);
      LedgerStep(msgs, k);
    }
  }

  /** What is owed is settled by the very next messages. */
  lemma {:induction false} OwedIsPaidNext(msgs: seq<Message>, k: nat, j: nat)
    requires WellFormed(msgs) && k <= |msgs|
    requires LedgerAt(msgs, k).Owing? && j < |LedgerAt(msgs, k).ids|
    ensures k + j < |msgs| && msgs[k + j].Tool? && msgs[k + j].callId == LedgerAt(msgs, k).ids[j]
    decreases j
  {
    assert msgs[..|msgs|] == msgs;
    LedgerStep(msgs, k);
    LedgerNeverBroken(msgs, k + 1);
    if j > 0 { OwedIsPaidNext(msgs, k + 1, j - 1); }
  }

  /** A debt at position `k` was opened by one assistant message before it. */
  lemma {:induction false} DebtHasOpener(msgs: seq<Message>, k: nat) returns (i: nat)
    requires WellFormed(msgs) && k <= |msgs|
    requires LedgerAt(msgs, k).Owing? && LedgerAt(msgs, k).ids != []
    ensures i < k && msgs[i].Assistant? && k - i - 1 + |LedgerAt(msgs, k).ids| == |msgs[i].calls|
  {
    assert msgs[..0] == [];
    LedgerStep(msgs, k - 1);
    LedgerNeverBroken(msgs, k - 1);
    if msgs[k - 1].Tool? {
      i := DebtHasOpener(msgs, k - 1);
    } else {
      i := k - 1;
    }
  }

  lemma WellFormedIsPaired(msgs: seq<Message>)
    requires WellFormed(msgs)
    ensures Paired(msgs)
  {
    forall i, j | 0 <= i < |msgs| && Covers(msgs, i, j)
      ensures Answers(msgs, i, j)
    {
      LedgerNeverBroken(msgs, i);
      LedgerNeverBroken(msgs, i + 1);
      LedgerStep(msgs, i);
      OwedIsPaidNext(msgs, i + 1, j - i - 1);
    }
    forall j | 0 <= j < |msgs| && msgs[j].Tool?
      ensures Opened(msgs, j)
    {
      LedgerNeverBroken(msgs, j);
      LedgerNeverBroken(msgs, j + 1);
      LedgerStep(msgs, j);
      var i := DebtHasOpener(msgs, j);
      assert Covers(msgs, i, j);
    }
  }

  /** What the direct statement says the ledger at `k` must be. */
  ghost predicate LedgerFits(msgs: seq<Message>, k: nat)
    requires k <= |msgs|
  {
    && (forall i :: 0 <= i < k && Covers(msgs, i, k) ==>
          LedgerAt(msgs, k) == Owing(Ids(msgs[i].calls)[k - i - 1..]))
    && ((forall i :: 0 <= i < k ==> !Covers(msgs, i, k)) ==> LedgerAt(msgs, k) == Owing([]))
  }

  /** Blocks do not overlap. */
  lemma OneOpener(msgs: seq<Message>, i: nat, p: nat, k: nat)
    requires Paired(msgs) && i < |msgs| && p < |msgs|
    requires Covers(msgs, i, k) && Covers(msgs, p, k)
    ensures p == i
  {
    assert p < i ==> Covers(msgs, p, i) && Answers(msgs, p, i);
    assert i < p ==> Covers(msgs, i, p) && Answers(msgs, i, p);
  }

  lemma FitsAfterResult(msgs: seq<Message>, k: nat, next: nat)
    requires Paired(msgs) && k < |msgs| && msgs[k].Tool? && LedgerFits(msgs, k) && next == k + 1
    ensures LedgerFits(msgs, next)
  {
    LedgerStep(msgs, k);
    assert Opened(msgs, k);
    var i :| 0 <= i < k && Covers(msgs, i, k);
    assert Answers(msgs, i, k);
    var owed := Ids(msgs[i].calls)[k - i - 1..];
    assert LedgerAt(msgs, k) == Owing(owed);
    assert owed[0] == msgs[k].callId;
    assert LedgerAt(msgs, next) == Owing(owed[1..]);
    assert owed[1..] == Ids(msgs[i].calls)[next - i - 1..];
    forall p | 0 <= p < next && Covers(msgs, p, next) ensures p == i {
      if p < k { OneOpener(msgs, i, p, k); }
    }
    if !Covers(msgs, i, next) { assert owed[1..] == []; }
  }

  lemma FitsAfterOther(msgs: seq<Message>, k: nat, next: nat)
    requires Paired(msgs) && k < |msgs| && !msgs[k].Tool? && LedgerFits(msgs, k) && next == k + 1
    ensures LedgerFits(msgs, next)
  {
    LedgerStep(msgs, k);
    forall p | 0 <= p < k ensures !Covers(msgs, p, k) && !Covers(msgs, p, next) {
      assert Covers(msgs, p, k) ==> Answers(msgs, p, k);
    }
    assert LedgerAt(msgs, k) == Owing([]);
    if msgs[k].Assistant? {
      assert Ids(msgs[k].calls)[0..] == Ids(msgs[k].calls);
      if !Covers(msgs, k, next) { assert Ids(msgs[k].calls) == []; }
    }
  }

  lemma FitsAtStart(msgs: seq<Message>)
    ensures LedgerFits(msgs, 0)
  {
    assert msgs[..0] == [];
  }

  lemma {:induction false} PairedLedger(msgs: seq<Message>, k: nat)
    requires Paired(msgs) && k <= |msgs|
    ensures LedgerFits(msgs, k)
  {
    if k == 0 {
      FitsAtStart(msgs);
    } else if msgs[k - 1].Tool? {
      PairedLedger(msgs, k - 1);
      FitsAfterResult(msgs, k - 1, k);
    } else {
      PairedLedger(msgs, k - 1);
      FitsAfterOther(msgs, k - 1, k);
    }
  }

  /** The ledger is exact: a history is well-formed if and only if every call is paired with
      its result in place and no stray result occurs. */
  lemma WellFormedIffPaired(msgs: seq<Message>)
    ensures WellFormed(msgs) <==> Paired(msgs)
  {
    if WellFormed(msgs) { WellFormedIsPaired(msgs); }
    if Paired(msgs) {
      PairedLedger(msgs, |msgs|);
      assert msgs[..|msgs|] == msgs;
      forall i | 0 <= i < |msgs| ensures !Covers(msgs, i, |msgs|) {
        if Covers(msgs, i, |msgs|) { assert false; }
      }
    }
  }

  // ---------- Compaction on context overflow ----------

  function Systems(msgs: seq<Message>): seq<Message> {
    if msgs == [] then []
    else Systems(msgs[..|msgs| - 1]) + if msgs[|msgs| - 1].System? then [msgs[|msgs| - 1]] else []
  }

  function NonSystems(msgs: seq<Message>): seq<Message> {
    if msgs == [] then []
    else NonSystems(msgs[..|msgs| - 1]) + if msgs[|msgs| - 1].System? then [] else [msgs[|msgs| - 1]]
  }

  /** Index of the last user message, -1 when there is none. */
  function LastUser(msgs: seq<Message>): (idx: int)
    ensures -1 <= idx < |msgs|
    ensures idx >= 0 ==> msgs[idx].User?
    ensures forall i :: idx < i < |msgs| ==> !msgs[i].User?
  {
    if msgs == [] then -1
    else if msgs[|msgs| - 1].User? then |msgs| - 1
    else LastUser(msgs[..|msgs| - 1])
  }

  function Compact(msgs: seq<Message>): seq<Message> {
    var idx := LastUser(msgs);
    if idx >= 0 then
      Systems(msgs[..idx]) + (if idx > 0 then [System(COMPACTION_NOTE)] else []) + msgs[idx..]
    else
      Systems(msgs) + NonSystems(msgs)
  }

  method SystemsBefore(messages: seq<Message>, end: nat) returns (kept: seq<Message>)
    requires end <= |messages|
    ensures kept == Systems(messages[..end])
  {
    kept := [];
    for i := 0 to end
      invariant kept == Systems(messages[..i])
    {
      assert messages[..i + 1][..i] == messages[..i];
      if messages[i].System? { kept := kept + [messages[i]]; }
    }
  }

  method CompactMessagesForRetry(messages: seq<Message>) returns (compacted: seq<Message>)
    ensures compacted == Compact(messages)
  {
    compacted := [];
    var lastUserIdx := |messages| - 1;
    while lastUserIdx >= 0 && !messages[lastUserIdx].User?
      invariant -1 <= lastUserIdx < |messages|
      invariant LastUser(messages) == LastUser(messages[..lastUserIdx + 1])
    {
      assert messages[..lastUserIdx + 1][..lastUserIdx] == messages[..lastUserIdx];
      lastUserIdx := lastUserIdx - 1;
    }
    if lastUserIdx >= 0 {
      compacted := SystemsBefore(messages, lastUserIdx);
      if lastUserIdx > 0 { compacted := compacted + [System(COMPACTION_NOTE)]; }
      compacted := compacted + messages[lastUserIdx..];
    } else {
      compacted := SystemsBefore(messages, |messages|);
      assert messages[..|messages|] == messages;
      for i := 0 to |messages|
        invariant compacted == Systems(messages) + NonSystems(messages[..i])
      {
        assert messages[..i + 1][..i] == messages[..i];
        if !messages[i].System? { compacted := compacted + [messages[i]]; }
      }
    }
  }

  lemma {:induction false} SystemsSettle(msgs: seq<Message>)
    ensures WellFormed(Systems(msgs))
  {
    if msgs != [] {
      var init := msgs[..|msgs| - 1];
      SystemsSettle(init);
      if msgs[|msgs| - 1].System? {
        assert Systems(msgs)[..|Systems(msgs)| - 1] == Systems(init);
      } else {
        assert Systems(msgs) == Systems(init);
      }
    }
  }

  /** Dropping the system messages of a history that never breaks leaves the same debts. */
  lemma {:induction false} NonSystemsSettle(msgs: seq<Message>)
    requires Settle(Owing([]), msgs).Owing?
    ensures Settle(Owing([]), NonSystems(msgs)) == Settle(Owing([]), msgs)
  {
    if msgs != [] {
      var init := msgs[..|msgs| - 1];
      NonSystemsSettle(init);
      if msgs[|msgs| - 1].System? {
        assert NonSystems(msgs) == NonSystems(init);
      } else {
        assert NonSystems(msgs)[..|NonSystems(msgs)| - 1] == NonSystems(init);
      }
    }
  }

  /** Compaction keeps every call paired with its result, on both of its branches. */
  lemma CompactKeepsWellFormed(msgs: seq<Message>)
    requires WellFormed(msgs)
    ensures WellFormed(Compact(msgs))
  {
    var idx := LastUser(msgs);
    if idx >= 0 {
      SplitAtUser(msgs, idx);
      var head := Systems(msgs[..idx]);
      var note := if idx > 0 then [System(COMPACTION_NOTE)] else [];
      SystemsSettle(msgs[..idx]);
      SettleAppend(Owing([]), head, note);
      if idx > 0 { SettleOne(Owing([]), System(COMPACTION_NOTE)); }
      SettleAppend(Owing([]), head + note, msgs[idx..]);
    } else {
      SystemsSettle(msgs);
      NonSystemsSettle(msgs);
      SettleAppend(Owing([]), Systems(msgs), NonSystems(msgs));
    }
  }

  lemma {:induction false} FiltersPartition(msgs: seq<Message>)
    ensures multiset(msgs) == multiset(Systems(msgs)) + multiset(NonSystems(msgs))
    ensures forall m :: m in Systems(msgs) ==> m.System?
    ensures forall m :: m in NonSystems(msgs) ==> !m.System?
  {
    if msgs != [] {
      var init := msgs[..|msgs| - 1];
      FiltersPartition(init);
      assert msgs == init + [msgs[|msgs| - 1]];
    }
  }

  /** `kept` are, in their order, exactly the system messages of `msgs`, or exactly the others; `at`
      are their places. */
  ghost predicate Filtered(msgs: seq<Message>, system: bool, kept: seq<Message>, at: seq<nat>) {
    && |at| == |kept| && (forall i, j :: 0 <= i < j < |at| ==> at[i] < at[j])
    && (forall i :: 0 <= i < |at| ==> at[i] < |msgs| && kept[i] == msgs[at[i]])
    && (forall k :: 0 <= k < |msgs| ==> ((msgs[k].System? <==> system) <==> k in at))
  }

  lemma FilterOneMore(msgs: seq<Message>, m: Message, system: bool, kept: seq<Message>, at: seq<nat>)
    requires Filtered(msgs, system, kept, at)
    ensures if m.System? <==> system then Filtered(msgs + [m], system, kept + [m], at + [|msgs|]) else Filtered(msgs + [m], system, kept, at)
  {
    assert forall i :: 0 <= i < |at| ==> at[i] in at;
  }

  lemma {:induction false} BothFiltered(msgs: seq<Message>) returns (at: seq<nat>, bt: seq<nat>)
    ensures Filtered(msgs, true, Systems(msgs), at) && Filtered(msgs, false, NonSystems(msgs), bt)
  {
    at, bt := [], [];
    if msgs != [] {
      var init, last := msgs[..|msgs| - 1], msgs[|msgs| - 1];
      at, bt := BothFiltered(init);
      assert init + [last] == msgs;
      FilterOneMore(init, last, true, Systems(init), at);
      FilterOneMore(init, last, false, NonSystems(init), bt);
      if last.System? { at := at + [|init|]; } else { bt := bt + [|init|]; }
    }
  }

  /** What compaction makes of a history, message by message: the system messages before the last
      user message in their order, the note if anything came before it, and the turn itself; without
      a user message the system messages first and then the others, each in their order. */
  lemma CompactExactly(msgs: seq<Message>) returns (kept: seq<Message>, at: seq<nat>, others: seq<Message>, bt: seq<nat>)
    ensures var idx := LastUser(msgs);
            if idx > 0 then Filtered(msgs[..idx], true, kept, at) && Compact(msgs) == kept + [System(COMPACTION_NOTE)] + msgs[idx..]
            else if idx == 0 then Compact(msgs) == msgs
            else Filtered(msgs, true, kept, at) && Filtered(msgs, false, others, bt) && Compact(msgs) == kept + others
  {
    var idx := LastUser(msgs);
    var head := if idx > 0 then msgs[..idx] else msgs;
    at, bt := BothFiltered(head);
    kept, others := Systems(head), NonSystems(head);
    if idx == 0 { assert msgs[..0] == [] && msgs[0..] == msgs; }
  }

  /** How often `m` occurs. */
  function Count(msgs: seq<Message>, m: Message): nat {
    multiset(msgs)[m]
  }

  lemma CountAppend(a: seq<Message>, b: seq<Message>, m: Message)
    ensures Count(a + b, m) == Count(a, m) + Count(b, m)
  {}

  lemma CountSystems(msgs: seq<Message>, m: Message)
    requires m.System?
    ensures Count(Systems(msgs), m) == Count(msgs, m)
    ensures Count(NonSystems(msgs), m) == 0
  {
    FiltersPartition(msgs);
    assert m !in NonSystems(msgs);
  }

  lemma CountCompacted(head: seq<Message>, note: seq<Message>, turn: seq<Message>, m: Message)
    requires m.System?
    ensures Count(Systems(head) + note + turn, m) == Count(head + turn, m) + Count(note, m)
  {
    CountSystems(head, m);
    CountAppend(Systems(head) + note, turn, m);
    CountAppend(Systems(head), note, m);
    CountAppend(head, turn, m);
  }

  /** Every system message survives compaction as often as it occurred; only the note may be
      added, once. */
  lemma CompactKeepsInstructions(msgs: seq<Message>, m: Message)
    requires m.System?
    ensures Count(Compact(msgs), m) ==
            Count(msgs, m) + if LastUser(msgs) > 0 && m == System(COMPACTION_NOTE) then 1 else 0
  {
    var idx := LastUser(msgs);
    if idx >= 0 {
      var note := if idx > 0 then [System(COMPACTION_NOTE)] else [];
      assert msgs == msgs[..idx] + msgs[idx..];
      CountCompacted(msgs[..idx], note, msgs[idx..], m);
    } else {
      CountSystems(msgs, m);
      CountAppend(Systems(msgs), NonSystems(msgs), m);
    }
  }

  /** The current turn, from the last user message on, survives compaction verbatim at the end,
      and nothing but system messages is left before it. */
  lemma CompactKeepsTurn(msgs: seq<Message>)
    requires LastUser(msgs) >= 0
    ensures var turn := msgs[LastUser(msgs)..];
            && |turn| <= |Compact(msgs)| && Compact(msgs)[|Compact(msgs)| - |turn|..] == turn
            && forall i :: 0 <= i < |Compact(msgs)| - |turn| ==> Compact(msgs)[i].System?
  {
    var head := msgs[..LastUser(msgs)];
    FiltersPartition(head);
    forall i | 0 <= i < |Systems(head)| ensures Systems(head)[i].System? {
      assert Systems(head)[i] in Systems(head);
    }
  }

  /** Compaction makes a context shorter exactly when at least two messages that are not
      system messages precede the last user message; with none it grows by the note. */
  lemma CompactShrinksIff(msgs: seq<Message>)
    ensures |Compact(msgs)| < |msgs| <==> LastUser(msgs) > 0 && |NonSystems(msgs[..LastUser(msgs)])| >= 2
  {
    var idx := LastUser(msgs);
    if idx >= 0 {
      FiltersPartition(msgs[..idx]);
      assert |msgs[..idx]| == |multiset(msgs[..idx])|;
      assert |multiset(Systems(msgs[..idx]))| == |Systems(msgs[..idx])|;
      assert |multiset(NonSystems(msgs[..idx]))| == |NonSystems(msgs[..idx])|;
    } else {
      FiltersPartition(msgs);
      assert |msgs| == |multiset(msgs)|;
      assert |multiset(Systems(msgs))| == |Systems(msgs)|;
      assert |multiset(NonSystems(msgs))| == |NonSystems(msgs)|;
    }
  }
}
