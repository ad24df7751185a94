/** The other half of the pairing law: each tool_result part answers a tool_use part of the message just before. */
module Orphans {
  import opened Types
  import opened Sequences
  import opened Transform
  import opened TransformLaws
  import opened ToolCallIds
  import opened AnthropicEncoder

  // ----- In a history -----

  function CallsAfter(m: Message, calls: set<Id>): set<Id> {
    if !Flushes(m) then calls else if m.role.Assistant? then CallIds(m.content) else {}
  }

  /** Each result answers a call of the kept answer before it, with no user message between; dropped turns do not
      count. `calls` are those of the answer before the history. */
  predicate NoOrphans(msgs: seq<Message>, calls: set<Id>)
    decreases |msgs|
  {
    msgs == []
    || ((msgs[0].role.ToolResult? ==> msgs[0].toolCallId in calls) && NoOrphans(msgs[1..], CallsAfter(msgs[0], calls)))
  }

  function LastCalls(msgs: seq<Message>, calls: set<Id>): set<Id>
    decreases |msgs|
  {
    if msgs == [] then calls else LastCalls(msgs[1..], CallsAfter(msgs[0], calls))
  }

  lemma {:induction false} OrphansSplit(a: seq<Message>, b: seq<Message>, calls: set<Id>)
    ensures LastCalls(a + b, calls) == LastCalls(b, LastCalls(a, calls))
    ensures NoOrphans(a + b, calls) <==> NoOrphans(a, calls) && NoOrphans(b, LastCalls(a, calls))
    decreases |a|
  {
    if a == [] {
      assert a + b == b;
    } else {
      assert (a + b)[1..] == a[1..] + b;
      OrphansSplit(a[1..], b, CallsAfter(a[0], calls));
    }
  }

  /** A result comes before any kept answer. */
  predicate Unled(msgs: seq<Message>)
    decreases |msgs|
  {
    msgs != [] && (msgs[0].role.ToolResult? || (!(msgs[0].role.Assistant? && Flushes(msgs[0])) && Unled(msgs[1..])))
  }

  /** In a part of a history without orphans, the orphans are the results before the first kept answer. */
  lemma {:induction false} PartOrphansIff(msgs: seq<Message>, calls: set<Id>)
    requires NoOrphans(msgs, calls)
    ensures NoOrphans(msgs, {}) <==> !Unled(msgs)
    decreases |msgs|
  {
    if msgs != [] {
      PartOrphansIff(msgs[1..], CallsAfter(msgs[0], calls));
      if msgs[0].role.Assistant? && Flushes(msgs[0]) {
        assert CallsAfter(msgs[0], {}) == CallsAfter(msgs[0], calls);
      } else if msgs[0].role.User? {
        assert CallsAfter(msgs[0], {}) == CallsAfter(msgs[0], calls) == {};
      }
    }
  }

  // ----- In a request -----

  function UsesOf(m: RequestMessage): set<Id> {
    if m.speaker.AssistantSpeaks? then ToolUses(m.parts) else {}
  }

  predicate HoldsNoOrphans(request: seq<RequestMessage>, uses: set<Id>) {
    request == [] || (ToolResults(request[0].parts) <= uses && HoldsNoOrphans(request[1..], UsesOf(request[0])))
  }

  predicate AnswersAt(request: seq<RequestMessage>, uses: set<Id>, i: nat)
    requires i < |request|
  {
    ToolResults(request[i].parts) <= if i == 0 then uses else UsesOf(request[i - 1])
  }

  /** The same by positions. */
  lemma {:induction false} HoldsNoOrphansMeans(request: seq<RequestMessage>, uses: set<Id>)
    ensures HoldsNoOrphans(request, uses) <==> forall i: nat :: i < |request| ==> AnswersAt(request, uses, i)
  {
    if request != [] {
      var rest, next := request[1..], UsesOf(request[0]);
      HoldsNoOrphansMeans(rest, next);
      assert AnswersAt(request, uses, 0) <==> ToolResults(request[0].parts) <= uses;
      forall i: nat | i < |rest| ensures AnswersAt(rest, next, i) <==> AnswersAt(request, uses, i + 1) {}
      if HoldsNoOrphans(request, uses) {
        forall i: nat | i < |request| ensures AnswersAt(request, uses, i) {
          if i > 0 { assert AnswersAt(rest, next, i - 1); }
        }
      }
    }
  }

  lemma {:induction false} BlocksHoldNoResults(blocks: seq<Block>, random: RandomIds, at: nat, j: nat)
    requires j <= |blocks|
    ensures ToolResults(EncodeBlocks(blocks, random, at, j)) == {}
    decreases |blocks| - j
  {
    if j < |blocks| {
      BlocksHoldNoResults(blocks, random, at, j + 1);
      var head, tail := EncodeBlock(blocks[j], random(at, j)), EncodeBlocks(blocks, random, at, j + 1);
      assert ToolResults(head + tail) == ToolResults(head) + ToolResults(tail);
    }
  }

  lemma {:induction false} RunOrphansIff(msgs: seq<Message>, i: nat, end: nat, calls: set<Id>)
    requires i <= end <= |msgs|
    requires forall k :: i <= k < end ==> msgs[k].role.ToolResult?
    ensures NoOrphans(msgs[i..], calls) <==>
      ToolResults(EncodeRun(msgs, i, end)) <= calls && NoOrphans(msgs[end..], calls)
    decreases end - i
  {
    if i < end {
      assert msgs[i..][1..] == msgs[i + 1..];
      RunOrphansIff(msgs, i + 1, end, calls);
      var id, rest := msgs[i].toolCallId, EncodeRun(msgs, i + 1, end);
      assert ToolResults([EncodeResult(msgs[i])] + rest) == {id} + ToolResults(rest);
    } else {
      assert ToolResults([]) == {};
    }
  }

  /** The encoding keeps orphans, and makes none. */
  lemma {:induction false} EncodeOrphansIff(msgs: seq<Message>, random: RandomIds, i: nat, calls: set<Id>)
    requires i <= |msgs|
    requires NoOtherRoles(msgs) && CallsHaveIds(msgs) && NoneDropped(msgs)
    ensures HoldsNoOrphans(Encode(msgs, random, i), calls) <==> NoOrphans(msgs[i..], calls)
    decreases |msgs| - i
  {
    if i < |msgs| {
      var m, next := msgs[i], NextTurn(msgs, i);
      assert msgs[i..][0] == m && msgs[i..][1..] == msgs[i + 1..];
      assert m in msgs && !m.role.OtherRole? && !Dropped(m);
      var tail := Encode(msgs, random, next);
      assert Encode(msgs, random, i)[1..] == tail;
      if m.role.User? {
        EncodeOrphansIff(msgs, random, next, {});
      } else if m.role.Assistant? {
        EncodeAssistantUses(m, random, i);
        BlocksHoldNoResults(m.content, random, i, 0);
        EncodeOrphansIff(msgs, random, next, CallIds(m.content));
      } else {
        EncodeOrphansIff(msgs, random, next, {});
        RunOrphansIff(msgs, i, next, calls);
        assert next < |msgs| ==> msgs[next..][0] == msgs[next] && msgs[next] in msgs && Flushes(msgs[next]);
      }
    }
  }

  // ----- Through history repair -----

  lemma {:induction false} MissingAreNoOrphans(
    pending: seq<Block>, answered: set<Id>, clock: Clock, n: nat, calls: set<Id>)
    requires CallIds(pending) <= calls
    ensures NoOrphans(Missing(pending, answered, clock, n), calls)
    ensures LastCalls(Missing(pending, answered, clock, n), calls) == calls
  {
    if pending != [] {
      assert pending == [pending[0]] + pending[1..];
      if pending[0].ToolCall? && pending[0].id !in answered {
        assert pending[0].id in CallIds(pending);
        MissingAreNoOrphans(pending[1..], answered, clock, n + 1, calls);
      } else {
        MissingAreNoOrphans(pending[1..], answered, clock, n, calls);
      }
    }
  }

  /** The second pass keeps orphans, and makes none. */
  lemma {:induction false} SecondPassOrphansIff(
    msgs: seq<Message>, pending: seq<Block>, answered: set<Id>, clock: Clock, n: nat, calls: set<Id>)
    requires NoneDropped(msgs) && CallIds(pending) <= calls
    ensures NoOrphans(SecondPass(msgs, pending, answered, clock, n), calls) <==> NoOrphans(msgs, calls)
    decreases |msgs|
  {
    if msgs != [] {
      var m, rest := msgs[0], msgs[1..];
      assert m in msgs && !Dropped(m);
      var emitted := Emitted(m, pending, answered, clock, n);
      CallsSameIds(m.content);
      SecondPassOrphansIff(
        rest, NextPending(m, pending), NextAnswered(m, answered), clock, n + |emitted|, CallsAfter(m, calls));
      OrphansSplit(emitted, SecondPass(rest, NextPending(m, pending), NextAnswered(m, answered), clock, n + |emitted|),
        calls);
      assert [m][1..] == [];
      if Flushes(m) {
        MissingAreNoOrphans(pending, answered, clock, n, calls);
        OrphansSplit(Missing(pending, answered, clock, n), [m], calls);
      }
    }
  }

  lemma RelinkedIff(
    all: set<Id>, others: set<Id>, norm: Normalizer, idMap: IdMap, calls: set<Id>, same: bool, x: Id)
    requires FreshAmong(all, others, norm) && Truthful(idMap, norm) && idMap.Keys <= others
    requires calls <= all && x in all
    requires same ==> calls !! idMap.Keys
    requires !same ==> calls <= others && forall id :: id in calls && Renaming(norm, id).Some? ==> id in idMap
    ensures RelinkId(idMap, x) in RenameAll(calls, same, norm) <==> x in calls
  {
    if x in calls {
      assert RelinkId(idMap, x) == NewId(same, norm, x);
    } else {
      forall z | z in calls ensures NewId(same, norm, z) != RelinkId(idMap, x) {}
    }
  }

  /** The first pass keeps orphans and makes none, if no id is shared and the names it gives are fresh. */
  lemma {:induction false} FirstPassOrphansIff(
    msgs: seq<Message>, target: Model, norm: Normalizer, idMap: IdMap, calls: set<Id>, same: bool,
    all: set<Id>, others: set<Id>)
    requires NoSharedIds(msgs, target) && FreshAmong(all, others, norm)
    requires AllIds(msgs) <= all && UsedIds(msgs, target, false) <= others
    requires Truthful(idMap, norm) && idMap.Keys <= others
    requires idMap.Keys !! UsedIds(msgs, target, true)
    requires calls <= all
    requires same ==> calls !! idMap.Keys && calls !! UsedIds(msgs, target, false)
    requires !same ==> calls <= others && forall id :: id in calls && Renaming(norm, id).Some? ==> id in idMap
    ensures NoOrphans(FirstPass(msgs, target, norm, idMap), RenameAll(calls, same, norm)) <==> NoOrphans(msgs, calls)
    decreases |msgs|
  {
    if msgs != [] {
      var m, rest := msgs[0], msgs[1..];
      assert msgs == [m] + rest;
      assert AllIds(rest) <= AllIds(msgs);
      assert UsedIds(rest, target, true) <= UsedIds(msgs, target, true);
      assert UsedIds(rest, target, false) <= UsedIds(msgs, target, false);
      var known := LearnFrom(idMap, m, target, norm);
      var tail := FirstPass(rest, target, norm, known);
      if Dropped(m) {
        assert FirstPass(msgs, target, norm, idMap) == tail;
        FirstPassOrphansIff(rest, target, norm, known, calls, same, all, others);
      } else {
        var head := RewriteMessage(m, target, norm, idMap)[0];
        assert FirstPass(msgs, target, norm, idMap) == [head] + tail;
        assert ([head] + tail)[1..] == tail;
        if m.role.Assistant? {
          var sm := SameModel(m, target);
          LearnTruthful(idMap, m.content, sm, norm);
          RewriteRenames(m.content, sm, norm);
          assert CallIds(m.content) <= UsedIds(msgs, target, sm);
          assert CallIds(m.content) <= AllIds(msgs);
          FirstPassOrphansIff(rest, target, norm, known, CallIds(m.content), sm, all, others);
        } else if m.role.User? {
          assert RenameAll({}, same, norm) == {};
          FirstPassOrphansIff(rest, target, norm, known, {}, same, all, others);
        } else if m.role.ToolResult? {
          assert m.toolCallId in AllIds(msgs);
          RelinkedIff(all, others, norm, idMap, calls, same, m.toolCallId);
          FirstPassOrphansIff(rest, target, norm, known, calls, same, all, others);
        } else {
          FirstPassOrphansIff(rest, target, norm, known, calls, same, all, others);
        }
      }
    }
  }

  /** The whole way: the request holds a result without its call just before it exactly when the history does. */
  lemma RequestOrphansIff(history: seq<Message>, target: Model, clock: Clock, random: RandomIds)
    requires NoOtherRoles(history) && CallsHaveIds(history)
    requires NoSharedIds(history, target) && FreshNames(history, target, AnthropicNormalizer())
    ensures HoldsNoOrphans(AnthropicRequest(history, target, clock, random), {}) <==> NoOrphans(history, {})
  {
    var norm := AnthropicNormalizer();
    var first, sent := FirstPass(history, target, norm, map[]), Transformed(history, target, norm, clock);
    FirstPassOrphansIff(history, target, norm, map[], {}, true, AllIds(history), UsedIds(history, target, false));
    assert RenameAll({}, true, norm) == {};
    FirstPassKeepsShape(history, target, map[]);
    FirstPassDropsNone(history, target, norm, map[]);
    SecondPassOnlyInserts(first, [], {}, clock, 0);
    InsertionsAreResults(sent, first);
    SecondPassOrphansIff(first, [], {}, clock, 0, {});
    assert sent[0..] == sent;
    EncodeOrphansIff(sent, random, 0, {});
  }
}
