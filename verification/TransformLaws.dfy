/** What history repair promises: it only inserts, it answers every interrupted call,
    it keeps calls and results linked, it leaves clean histories alone and it is idempotent. */
module TransformLaws {
  import opened Types
  import opened Sequences
  import opened Transform

  // ----- Calls waiting for a result -----

  predicate Flushes(m: Message) {
    m.role.User? || (m.role.Assistant? && !Dropped(m))
  }

  /** The ids still waiting for a result at the end of a history; dropped turns do not count. */
  function Open(msgs: seq<Message>, open: set<Id>): set<Id>
    decreases |msgs|
  {
    if msgs == [] then open
    else Open(msgs[1..], OpenAfter(msgs[0], open))
  }

  function OpenAfter(m: Message, open: set<Id>): set<Id> {
    if m.role.ToolResult? then open - {m.toolCallId}
    else if !Flushes(m) then open
    else if m.role.Assistant? then CallIds(m.content)
    else {}
  }

  /** No user or kept assistant message comes while a call is still waiting. */
  predicate Answered(msgs: seq<Message>, open: set<Id>)
    decreases |msgs|
  {
    msgs == [] || ((Flushes(msgs[0]) ==> open == {}) && Answered(msgs[1..], OpenAfter(msgs[0], open)))
  }

  predicate NoneDropped(msgs: seq<Message>) {
    forall m :: m in msgs ==> !Dropped(m)
  }

  lemma {:induction false} OpenSplit(a: seq<Message>, b: seq<Message>, open: set<Id>)
    ensures Open(a + b, open) == Open(b, Open(a, open))
    ensures Answered(a + b, open) <==> Answered(a, open) && Answered(b, Open(a, open))
    decreases |a|
  {
    if a == [] {
      assert a + b == b;
    } else {
      assert (a + b)[1..] == a[1..] + b;
      OpenSplit(a[1..], b, OpenAfter(a[0], open));
    }
  }

  /** What `Answered` means, by positions: a tool call that a later user or kept assistant
      message follows has a result before the first such message. */
  lemma {:induction false} AnsweredMeans(msgs: seq<Message>, open: set<Id>, i: nat, j: nat, call: Block)
    requires Answered(msgs, open)
    requires i < j < |msgs| && msgs[i].role.Assistant? && !Dropped(msgs[i]) && Flushes(msgs[j])
    requires call in msgs[i].content && call.ToolCall?
    ensures exists k :: i < k < j && msgs[k].role.ToolResult? && msgs[k].toolCallId == call.id
    decreases |msgs|
  {
    var rest, next := msgs[1..], OpenAfter(msgs[0], open);
    if i > 0 {
      AnsweredMeans(rest, next, i - 1, j - 1, call);
      var k :| i - 1 < k < j - 1 && rest[k].role.ToolResult? && rest[k].toolCallId == call.id;
      assert msgs[k + 1] == rest[k];
    } else {
      var k := FindResult(rest, next, j - 1, call.id);
      assert msgs[k + 1] == rest[k];
    }
  }

  /** A waiting id is answered before the first message that flushes. */
  lemma {:induction false} FindResult(msgs: seq<Message>, open: set<Id>, j: nat, id: Id) returns (k: nat)
    requires Answered(msgs, open) && id in open
    requires j < |msgs| && Flushes(msgs[j])
    ensures k < j && msgs[k].role.ToolResult? && msgs[k].toolCallId == id
    decreases |msgs|
  {
    if msgs[0].role.ToolResult? && msgs[0].toolCallId == id {
      k := 0;
    } else {
      assert !Flushes(msgs[0]);
      k := FindResult(msgs[1..], OpenAfter(msgs[0], open), j - 1, id);
      k := k + 1;
    }
  }

  // ----- The second pass -----

  predicate IsNoResult(m: Message) {
    && m.role.ToolResult? && m.isError
    && m.content == [Text("No result provided", "")]
  }

  /** `output` is `input` with error results inserted, all of them just before a user or
      assistant message of the input; deleting them gives the input back. */
  predicate OnlyInserts(output: seq<Message>, input: seq<Message>)
    decreases |output|
  {
    if output == [] then input == []
    else
      || (input != [] && output[0] == input[0] && OnlyInserts(output[1..], input[1..]))
      || (input != [] && (input[0].role.User? || input[0].role.Assistant?)
          && IsNoResult(output[0]) && OnlyInserts(output[1..], input))
  }

  lemma {:induction false} InsertMissing(
    pending: seq<Block>, answered: set<Id>, clock: Clock, n: nat, output: seq<Message>, input: seq<Message>)
    requires OnlyInserts(output, input)
    requires input != [] && (input[0].role.User? || input[0].role.Assistant?)
    ensures OnlyInserts(Missing(pending, answered, clock, n) + output, input)
  {
    var missing := Missing(pending, answered, clock, n);
    if pending == [] {
      assert missing + output == output;
    } else if pending[0].ToolCall? && pending[0].id !in answered {
      InsertMissing(pending[1..], answered, clock, n + 1, output, input);
      assert (missing + output)[1..] == Missing(pending[1..], answered, clock, n + 1) + output;
    } else {
      InsertMissing(pending[1..], answered, clock, n, output, input);
    }
  }

  lemma {:induction false} SecondPassOnlyInserts(
    msgs: seq<Message>, pending: seq<Block>, answered: set<Id>, clock: Clock, n: nat)
    ensures OnlyInserts(SecondPass(msgs, pending, answered, clock, n), msgs)
    decreases |msgs|
  {
    if msgs != [] {
      var m, rest := msgs[0], msgs[1..];
      var emitted := Emitted(m, pending, answered, clock, n);
      var tail := SecondPass(rest, NextPending(m, pending), NextAnswered(m, answered), clock, n + |emitted|);
      SecondPassOnlyInserts(rest, NextPending(m, pending), NextAnswered(m, answered), clock, n + |emitted|);
      KeepOne(m, tail, rest);
      assert msgs == [m] + rest;
      if m.role.Assistant? || m.role.User? {
        InsertMissing(pending, answered, clock, n, [m] + tail, msgs);
        Reassociate(Missing(pending, answered, clock, n), [m], tail);
      }
    }
  }

  lemma KeepOne(m: Message, output: seq<Message>, input: seq<Message>)
    requires OnlyInserts(output, input)
    ensures OnlyInserts([m] + output, [m] + input)
  {
    assert ([m] + output)[1..] == output && ([m] + input)[1..] == input;
  }

  /** The inserted results answer exactly the calls still waiting. */
  lemma {:induction false} MissingAnswers(pending: seq<Block>, answered: set<Id>, clock: Clock, n: nat, open: set<Id>)
    ensures forall m :: m in Missing(pending, answered, clock, n) ==>
      IsNoResult(m) && m.toolCallId in CallIds(pending) - answered
    ensures Open(Missing(pending, answered, clock, n), open) == open - (CallIds(pending) - answered)
    ensures Answered(Missing(pending, answered, clock, n), open)
    ensures CallIds(pending) <= answered ==> Missing(pending, answered, clock, n) == []
  {
    if pending != [] {
      var p, rest := pending[0], pending[1..];
      assert pending == [p] + rest;
      assert CallIds(pending) == CallIds(rest) + if p.ToolCall? then {p.id} else {};
      if p.ToolCall? && p.id !in answered {
        MissingAnswers(rest, answered, clock, n + 1, open - {p.id});
      } else {
        MissingAnswers(rest, answered, clock, n, open);
      }
    }
  }

  lemma CallsSameIds(blocks: seq<Block>)
    ensures CallIds(Calls(blocks)) == CallIds(blocks)
  {
    CallsAreToolCalls(blocks);
  }

  lemma EmittedAnswers(m: Message, pending: seq<Block>, answered: set<Id>, clock: Clock, n: nat)
    requires !Dropped(m)
    ensures var emitted, open := Emitted(m, pending, answered, clock, n), CallIds(pending) - answered;
      && Answered(emitted, open) && Open(emitted, open) == OpenAfter(m, open)
      && CallIds(NextPending(m, pending)) - NextAnswered(m, answered) == OpenAfter(m, open)
      && ((Flushes(m) ==> open == {}) ==> emitted == [m])
  {
    var missing, open := Missing(pending, answered, clock, n), CallIds(pending) - answered;
    CallsSameIds(m.content);
    if Flushes(m) {
      MissingAnswers(pending, answered, clock, n, open);
      OpenSplit(missing, [m], open);
    }
  }

  /** The second pass answers every call that a later user or assistant message follows,
      and it leaves the calls waiting at the end as they were. */
  lemma {:induction false} SecondPassAnswers(
    msgs: seq<Message>, pending: seq<Block>, answered: set<Id>, clock: Clock, n: nat)
    requires NoneDropped(msgs)
    ensures var output := SecondPass(msgs, pending, answered, clock, n);
      var open := CallIds(pending) - answered;
      Answered(output, open) && Open(output, open) == Open(msgs, open)
    decreases |msgs|
  {
    if msgs != [] {
      var m, rest := msgs[0], msgs[1..];
      var emitted := Emitted(m, pending, answered, clock, n);
      assert !Dropped(m);
      EmittedAnswers(m, pending, answered, clock, n);
      SecondPassAnswers(rest, NextPending(m, pending), NextAnswered(m, answered), clock, n + |emitted|);
      OpenSplit(emitted, SecondPass(rest, NextPending(m, pending), NextAnswered(m, answered), clock, n + |emitted|),
        CallIds(pending) - answered);
    }
  }

  lemma {:induction false} AnsweredIdle(
    msgs: seq<Message>, pending: seq<Block>, answered: set<Id>, clock: Clock, n: nat)
    requires NoneDropped(msgs) && Answered(msgs, CallIds(pending) - answered)
    ensures SecondPass(msgs, pending, answered, clock, n) == msgs
    decreases |msgs|
  {
    if msgs != [] {
      assert !Dropped(msgs[0]);
      EmittedAnswers(msgs[0], pending, answered, clock, n);
      AnsweredIdle(msgs[1..], NextPending(msgs[0], pending), NextAnswered(msgs[0], answered), clock, n + 1);
    }
  }

  /** The second pass changes nothing exactly when nothing is left unanswered. */
  lemma SecondPassIdleIff(msgs: seq<Message>, pending: seq<Block>, answered: set<Id>, clock: Clock, n: nat)
    requires NoneDropped(msgs)
    ensures SecondPass(msgs, pending, answered, clock, n) == msgs <==> Answered(msgs, CallIds(pending) - answered)
  {
    SecondPassAnswers(msgs, pending, answered, clock, n);
    if Answered(msgs, CallIds(pending) - answered) {
      AnsweredIdle(msgs, pending, answered, clock, n);
    }
  }

  // ----- The first pass -----

  lemma {:induction false} FirstPassSplit(
    a: seq<Message>, b: seq<Message>, target: Model, norm: Normalizer, idMap: IdMap)
    ensures FirstPass(a + b, target, norm, idMap)
         == FirstPass(a, target, norm, idMap) + FirstPass(b, target, norm, LearnAll(idMap, a, target, norm))
    ensures LearnAll(idMap, a + b, target, norm) == LearnAll(LearnAll(idMap, a, target, norm), b, target, norm)
    decreases |a|
  {
    if a == [] {
      assert a + b == b;
    } else {
      assert (a + b)[1..] == a[1..] + b;
      var known := LearnFrom(idMap, a[0], target, norm);
      FirstPassSplit(a[1..], b, target, norm, known);
      var head, left := RewriteMessage(a[0], target, norm, idMap), FirstPass(a[1..], target, norm, known);
      var right := FirstPass(b, target, norm, LearnAll(known, a[1..], target, norm));
      assert head + (left + right) == (head + left) + right;
    }
  }

  /** A renaming table only holds what the normaliser would answer. */
  predicate Truthful(idMap: IdMap, norm: Normalizer) {
    forall id :: id in idMap ==> Renaming(norm, id) == Some(idMap[id])
  }

  /** The ids of calls by other models that the normaliser renames. */
  function Renamed(blocks: seq<Block>, same: bool, norm: Normalizer): set<Id> {
    set b | b in blocks && b.ToolCall? && !same && Renaming(norm, b.id).Some? :: b.id
  }

  lemma {:induction false} LearnTruthful(idMap: IdMap, blocks: seq<Block>, same: bool, norm: Normalizer)
    requires Truthful(idMap, norm)
    ensures Truthful(Learn(idMap, blocks, same, norm), norm)
    ensures Learn(idMap, blocks, same, norm).Keys == idMap.Keys + Renamed(blocks, same, norm)
    decreases |blocks|
  {
    if blocks != [] {
      var b := blocks[0];
      var known := if b.ToolCall? && !same && Renaming(norm, b.id).Some?
        then idMap[b.id := Renaming(norm, b.id).value] else idMap;
      LearnTruthful(known, blocks[1..], same, norm);
      assert blocks == [b] + blocks[1..];
    }
  }

  /** The ids used by the kept assistant messages of the target model (`same`) or of other models. */
  function UsedIds(msgs: seq<Message>, target: Model, same: bool): set<Id> {
    set m, b | m in msgs && m.role.Assistant? && !Dropped(m) && SameModel(m, target) == same
      && b in m.content && b.ToolCall? :: b.id
  }

  predicate NoSharedIds(msgs: seq<Message>, target: Model) {
    UsedIds(msgs, target, true) !! UsedIds(msgs, target, false)
  }

  lemma {:induction false} LearnAllTruthful(idMap: IdMap, msgs: seq<Message>, target: Model, norm: Normalizer)
    requires Truthful(idMap, norm)
    ensures Truthful(LearnAll(idMap, msgs, target, norm), norm)
    ensures idMap.Keys <= LearnAll(idMap, msgs, target, norm).Keys <= idMap.Keys + UsedIds(msgs, target, false)
    decreases |msgs|
  {
    if msgs != [] {
      var m := msgs[0];
      if m.role.Assistant? && !Dropped(m) {
        LearnTruthful(idMap, m.content, SameModel(m, target), norm);
      }
      LearnAllTruthful(LearnFrom(idMap, m, target, norm), msgs[1..], target, norm);
    }
  }

  /** When no id is used by both the target model and another model, a result that follows a
      kept call with its id carries the call's rewritten id in the first pass's output. */
  lemma RenamingKeepsLinks(msgs: seq<Message>, target: Model, norm: Normalizer, i: nat, k: nat, call: Block)
    requires NoSharedIds(msgs, target)
    requires i < k < |msgs| && msgs[i].role.Assistant? && !Dropped(msgs[i])
    requires call in msgs[i].content && call.ToolCall?
    requires msgs[k].role.ToolResult? && msgs[k].toolCallId == call.id
    ensures var at := |FirstPass(msgs[..k], target, norm, map[])|;
      var output := FirstPass(msgs, target, norm, map[]);
      at < |output|
      && output[at] == msgs[k].(toolCallId := NewId(SameModel(msgs[i], target), norm, call.id))
  {
    var same := SameModel(msgs[i], target);
    assert msgs == msgs[..k] + msgs[k..] && msgs[k..][0] == msgs[k];
    FirstPassSplit(msgs[..k], msgs[k..], target, norm, map[]);
    LearnAllTruthful(map[], msgs[..k], target, norm);
    if same {
      assert call.id in UsedIds(msgs, target, true);
      assert UsedIds(msgs[..k], target, false) <= UsedIds(msgs, target, false);
    } else if Renaming(norm, call.id).Some? {
      RenamingIsLearnt(msgs[..k], target, norm, i, call);
    }
  }

  lemma RenamingIsLearnt(msgs: seq<Message>, target: Model, norm: Normalizer, i: nat, call: Block)
    requires i < |msgs| && msgs[i].role.Assistant? && !Dropped(msgs[i]) && !SameModel(msgs[i], target)
    requires call in msgs[i].content && call.ToolCall? && Renaming(norm, call.id).Some?
    ensures call.id in LearnAll(map[], msgs, target, norm)
  {
    var before := LearnAll(map[], msgs[..i], target, norm);
    var after := LearnFrom(before, msgs[i], target, norm);
    assert msgs == msgs[..i] + msgs[i..] && msgs[i..][0] == msgs[i];
    FirstPassSplit(msgs[..i], msgs[i..], target, norm, map[]);
    LearnAllTruthful(map[], msgs[..i], target, norm);
    LearnTruthful(before, msgs[i].content, false, norm);
    LearnAllTruthful(after, msgs[i..][1..], target, norm);
  }

  // ----- Renaming and waiting calls -----

  function RenameAll(ids: set<Id>, same: bool, norm: Normalizer): set<Id> {
    set id | id in ids :: NewId(same, norm, id)
  }

  lemma {:induction false} RewriteRenames(blocks: seq<Block>, same: bool, norm: Normalizer)
    ensures CallIds(RewriteBlocks(blocks, same, norm)) == RenameAll(CallIds(blocks), same, norm)
    decreases |blocks|
  {
    if blocks != [] {
      var b, rest := blocks[0], blocks[1..];
      RewriteRenames(rest, same, norm);
      assert blocks == [b] + rest;
      var head := RewriteBlock(b, same, norm);
      assert CallIds(head + RewriteBlocks(rest, same, norm))
          == CallIds(head) + CallIds(RewriteBlocks(rest, same, norm));
      if b.ToolCall? {
        assert head[0].id == NewId(same, norm, b.id);
        assert CallIds(head) == {NewId(same, norm, b.id)};
        assert CallIds(blocks) == {b.id} + CallIds(rest);
      } else {
        assert CallIds(head) == {};
        assert CallIds(blocks) == CallIds(rest);
      }
    }
  }

  lemma {:induction false} FirstPassDropsNone(msgs: seq<Message>, target: Model, norm: Normalizer, idMap: IdMap)
    ensures NoneDropped(FirstPass(msgs, target, norm, idMap))
    decreases |msgs|
  {
    if msgs != [] {
      FirstPassDropsNone(msgs[1..], target, norm, LearnFrom(idMap, msgs[0], target, norm));
    }
  }

  /** The first pass keeps answered calls answered: it renames a call and its results alike. */
  lemma {:induction false} FirstPassKeepsAnswers(
    msgs: seq<Message>, target: Model, norm: Normalizer, idMap: IdMap, open: set<Id>, same: bool, open': set<Id>)
    requires NoSharedIds(msgs, target)
    requires Truthful(idMap, norm)
    requires idMap.Keys !! UsedIds(msgs, target, true)
    requires same ==> open !! idMap.Keys && open !! UsedIds(msgs, target, false)
    requires !same ==> forall id :: id in open && Renaming(norm, id).Some? ==> id in idMap
    requires open' <= RenameAll(open, same, norm)
    ensures Open(msgs, open) == {} ==> Open(FirstPass(msgs, target, norm, idMap), open') == {}
    ensures Answered(msgs, open) ==> Answered(FirstPass(msgs, target, norm, idMap), open')
    decreases |msgs|
  {
    if msgs != [] {
      var m, rest := msgs[0], msgs[1..];
      assert msgs == [m] + rest;
      assert UsedIds(rest, target, true) <= UsedIds(msgs, target, true);
      assert UsedIds(rest, target, false) <= UsedIds(msgs, target, false);
      var known := LearnFrom(idMap, m, target, norm);
      var tail := FirstPass(rest, target, norm, known);
      var next := OpenAfter(m, open);
      if Dropped(m) {
        assert FirstPass(msgs, target, norm, idMap) == tail;
        FirstPassKeepsAnswers(rest, target, norm, known, next, same, open');
      } else {
        var head := RewriteMessage(m, target, norm, idMap)[0];
        assert FirstPass(msgs, target, norm, idMap) == [head] + tail;
        assert ([head] + tail)[1..] == tail;
        var next' := OpenAfter(head, open');
        if m.role.Assistant? {
          var sm := SameModel(m, target);
          LearnTruthful(idMap, m.content, sm, norm);
          RewriteRenames(m.content, sm, norm);
          assert CallIds(m.content) <= UsedIds(msgs, target, sm);
          FirstPassKeepsAnswers(rest, target, norm, known, next, sm, next');
        } else if m.role.User? {
          FirstPassKeepsAnswers(rest, target, norm, known, {}, same, {});
        } else if m.role.ToolResult? {
          assert m.toolCallId in open ==> head.toolCallId == NewId(same, norm, m.toolCallId);
          FirstPassKeepsAnswers(rest, target, norm, known, next, same, next');
        } else {
          FirstPassKeepsAnswers(rest, target, norm, known, next, same, next');
        }
      }
    }
  }

  /** All ids of calls and results. */
  function AllIds(msgs: seq<Message>): set<Id> {
    (set m, b | m in msgs && m.role.Assistant? && b in m.content && b.ToolCall? :: b.id)
    + (set m | m in msgs && m.role.ToolResult? :: m.toolCallId)
  }

  /** Among the ids `all`, of which `others` are calls of other models: new names are told apart, and are new. */
  predicate FreshAmong(all: set<Id>, others: set<Id>, norm: Normalizer) {
    forall x :: x in others && Renaming(norm, x).Some? ==>
      && Renaming(norm, x).value !in all
      && forall y :: y in others && Renaming(norm, y).Some? && y != x ==>
        Renaming(norm, x).value != Renaming(norm, y).value
  }

  /** No two ids of the history get one name, and no new name is an id of the history. */
  predicate FreshNames(msgs: seq<Message>, target: Model, norm: Normalizer) {
    FreshAmong(AllIds(msgs), UsedIds(msgs, target, false), norm)
  }

  lemma FreshResult(
    all: set<Id>, others: set<Id>, norm: Normalizer, idMap: IdMap, open: set<Id>, same: bool, open': set<Id>, x: Id)
    requires FreshAmong(all, others, norm) && Truthful(idMap, norm) && idMap.Keys <= others
    requires open <= all && x in all && RenameAll(open, same, norm) <= open'
    requires !same ==> open <= others
    ensures RenameAll(open - {x}, same, norm) <= open' - {RelinkId(idMap, x)}
  {
    forall z | z in open && z != x ensures NewId(same, norm, z) != RelinkId(idMap, x) {}
    forall z | z in open - {x} ensures NewId(same, norm, z) in RenameAll(open, same, norm) {}
  }

  /** What a kept answer teaches, and its calls after it. */
  lemma LearnAnswer(
    m: Message, rest: seq<Message>, target: Model, norm: Normalizer, idMap: IdMap, all: set<Id>, others: set<Id>)
    requires m.role.Assistant? && !Dropped(m)
    requires AllIds([m] + rest) <= all && UsedIds([m] + rest, target, false) <= others
    requires Truthful(idMap, norm) && idMap.Keys <= others
    ensures var known, same := LearnFrom(idMap, m, target, norm), SameModel(m, target);
      && Truthful(known, norm) && known.Keys <= others
      && CallIds(m.content) <= all && (!same ==> CallIds(m.content) <= others)
      && CallIds(RewriteBlocks(m.content, same, norm)) == RenameAll(CallIds(m.content), same, norm)
  {
    var same := SameModel(m, target);
    LearnTruthful(idMap, m.content, same, norm);
    RewriteRenames(m.content, same, norm);
    assert CallIds(m.content) <= UsedIds([m] + rest, target, same);
    assert CallIds(m.content) <= AllIds([m] + rest);
  }

  /** The first pass keeps waiting calls waiting, if the names it gives are fresh. */
  lemma {:induction false} FirstPassKeepsWaiting(
    msgs: seq<Message>, target: Model, norm: Normalizer, idMap: IdMap, open: set<Id>, same: bool, open': set<Id>,
    all: set<Id>, others: set<Id>)
    requires FreshAmong(all, others, norm)
    requires AllIds(msgs) <= all && UsedIds(msgs, target, false) <= others
    requires Truthful(idMap, norm) && idMap.Keys <= others
    requires open <= all && (!same ==> open <= others)
    requires RenameAll(open, same, norm) <= open'
    ensures Open(msgs, open) != {} ==> Open(FirstPass(msgs, target, norm, idMap), open') != {}
    decreases |msgs|
  {
    if msgs == [] {
      if open != {} {
        var z :| z in open;
        assert NewId(same, norm, z) in RenameAll(open, same, norm);
      }
    } else {
      var m, rest := msgs[0], msgs[1..];
      assert msgs == [m] + rest;
      assert AllIds(rest) <= AllIds(msgs) && UsedIds(rest, target, false) <= UsedIds(msgs, target, false);
      var known := LearnFrom(idMap, m, target, norm);
      var tail := FirstPass(rest, target, norm, known);
      var next := OpenAfter(m, open);
      if Dropped(m) {
        assert FirstPass(msgs, target, norm, idMap) == tail;
        FirstPassKeepsWaiting(rest, target, norm, known, next, same, open', all, others);
      } else {
        var head := RewriteMessage(m, target, norm, idMap)[0];
        assert FirstPass(msgs, target, norm, idMap) == [head] + tail;
        assert ([head] + tail)[1..] == tail;
        var next' := OpenAfter(head, open');
        if m.role.Assistant? {
          LearnAnswer(m, rest, target, norm, idMap, all, others);
          FirstPassKeepsWaiting(rest, target, norm, known, next, SameModel(m, target), next', all, others);
        } else if m.role.User? {
          FirstPassKeepsWaiting(rest, target, norm, known, {}, same, {}, all, others);
        } else if m.role.ToolResult? {
          assert m.toolCallId in AllIds(msgs);
          FreshResult(all, others, norm, idMap, open, same, open', m.toolCallId);
          FirstPassKeepsWaiting(rest, target, norm, known, next, same, next', all, others);
        } else {
          FirstPassKeepsWaiting(rest, target, norm, known, next, same, next', all, others);
        }
      }
    }
  }

  /** A clean history, in which no tool-call id is shared between the target model and another
      model, is only rewritten: the second pass inserts nothing. */
  lemma CleanHistoryNeedsNoRepair(msgs: seq<Message>, target: Model, norm: Normalizer, clock: Clock)
    requires Answered(msgs, {}) && NoSharedIds(msgs, target)
    ensures Transformed(msgs, target, norm, clock) == FirstPass(msgs, target, norm, map[])
  {
    var first := FirstPass(msgs, target, norm, map[]);
    FirstPassKeepsAnswers(msgs, target, norm, map[], {}, true, {});
    FirstPassDropsNone(msgs, target, norm, map[]);
    assert CallIds([]) - {} == {};
    AnsweredIdle(first, [], {}, clock, 0);
  }

  // ----- Idempotence -----

  ghost predicate IdempotentNormalizer(norm: Normalizer) {
    norm.Some? ==> forall id :: norm.value(norm.value(id)) == norm.value(id)
  }

  /** A message the first pass leaves alone, and from which it learns no renaming. */
  predicate Settled(m: Message, target: Model, norm: Normalizer) {
    && !Dropped(m)
    && (m.role.Assistant? ==>
          && RewriteBlocks(m.content, SameModel(m, target), norm) == m.content
          && Renamed(m.content, SameModel(m, target), norm) == {})
  }

  lemma {:induction false} RewriteSettles(blocks: seq<Block>, same: bool, norm: Normalizer)
    requires IdempotentNormalizer(norm)
    ensures var once := RewriteBlocks(blocks, same, norm);
      RewriteBlocks(once, same, norm) == once && Renamed(once, same, norm) == {}
    decreases |blocks|
  {
    if blocks != [] {
      var head, tail := RewriteBlock(blocks[0], same, norm), RewriteBlocks(blocks[1..], same, norm);
      RewriteSettles(blocks[1..], same, norm);
      if head == [] {
        assert head + tail == tail;
      } else {
        assert head == [head[0]];
        assert (head + tail)[1..] == tail;
        assert RewriteBlock(head[0], same, norm) == head;
      }
    }
  }

  lemma {:induction false} FirstPassSettles(msgs: seq<Message>, target: Model, norm: Normalizer, idMap: IdMap)
    requires IdempotentNormalizer(norm)
    ensures forall m :: m in FirstPass(msgs, target, norm, idMap) ==> Settled(m, target, norm)
    decreases |msgs|
  {
    if msgs != [] {
      FirstPassSettles(msgs[1..], target, norm, LearnFrom(idMap, msgs[0], target, norm));
      RewriteSettles(msgs[0].content, SameModel(msgs[0], target), norm);
    }
  }

  lemma {:induction false} InsertionsAreResults(output: seq<Message>, input: seq<Message>)
    requires OnlyInserts(output, input)
    ensures forall m :: m in output ==> m in input || m.role.ToolResult?
    decreases |output|
  {
    if output != [] {
      if input != [] && output[0] == input[0] && OnlyInserts(output[1..], input[1..]) {
        InsertionsAreResults(output[1..], input[1..]);
      } else {
        InsertionsAreResults(output[1..], input);
      }
      assert output == [output[0]] + output[1..];
    }
  }

  lemma {:induction false} SettledIsFixed(msgs: seq<Message>, target: Model, norm: Normalizer)
    requires forall m :: m in msgs ==> Settled(m, target, norm)
    ensures FirstPass(msgs, target, norm, map[]) == msgs
    decreases |msgs|
  {
    if msgs != [] {
      var m := msgs[0];
      assert Settled(m, target, norm);
      if m.role.Assistant? {
        LearnTruthful(map[], m.content, SameModel(m, target), norm);
        assert LearnFrom(map[], m, target, norm) == map[];
      }
      SettledIsFixed(msgs[1..], target, norm);
    }
  }

  /** Repairing a history twice is repairing it once, whatever the clock reads each time. */
  lemma TransformIdempotent(msgs: seq<Message>, target: Model, norm: Normalizer, clock: Clock, clock': Clock)
    requires IdempotentNormalizer(norm)
    ensures var once := Transformed(msgs, target, norm, clock);
      Transformed(once, target, norm, clock') == once
  {
    var first, once := FirstPass(msgs, target, norm, map[]), Transformed(msgs, target, norm, clock);
    FirstPassDropsNone(msgs, target, norm, map[]);
    FirstPassSettles(msgs, target, norm, map[]);
    SecondPassOnlyInserts(first, [], {}, clock, 0);
    InsertionsAreResults(once, first);
    SettledIsFixed(once, target, norm);
    assert CallIds([]) - {} == {};
    SecondPassAnswers(first, [], {}, clock, 0);
    AnsweredIdle(once, [], {}, clock', 0);
  }
}
