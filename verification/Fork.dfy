/** Forking a session at an entry (`forkSession` in internal/agent/runtime.go, without a sidecar):
    the branch is copied, body by body, into a new session under new ids. */
module Forks {
  import opened Types
  import opened Sequences
  import opened Sessions
  import opened BranchLaws
  import opened SessionContext
  import opened SessionManager

  /** What a fork copies: labels, blank names, empty messages and unknown entries are left behind. */
  predicate IsCopied(b: Body) {
    match b
    case MessageBody(None) => false
    case Label(_, _) => false
    case SessionInfo(name) => TrimSpace(name) != ""
    case OtherBody(_, _) => false
    case _ => true
  }

  function CopiedBodies(bodies: seq<Body>): seq<Body> {
    Filter(bodies, IsCopied)
  }

  predicate ChangesModel(bodies: seq<Body>) {
    exists b :: b in bodies && b.ModelChange?
  }

  predicate ChangesThinking(bodies: seq<Body>) {
    exists b :: b in bodies && b.ThinkingLevelChange?
  }

  /** The running model and thinking level are appended when the branch does not set them. */
  function Trailer(bodies: seq<Body>, prev: Settings): seq<Body> {
    TrailerFor(ChangesModel(bodies), ChangesThinking(bodies), prev)
  }

  function TrailerFor(sawModelChange: bool, sawThinkingLevel: bool, prev: Settings): seq<Body> {
    OneIf(!sawModelChange, ModelChange(prev.provider, prev.modelId))
      + OneIf(!sawThinkingLevel, ThinkingLevelChange(prev.thinking))
  }

  function ForkedBodies(branch: seq<Entry>, prev: Settings): seq<Body> {
    CopiedBodies(Bodies(branch)) + Trailer(Bodies(branch), prev)
  }

  function AppendAll(host: Host, s: Session, bodies: seq<Body>, timestamp: string): Session
    decreases |bodies|
  {
    if bodies == [] then s else AppendAll(host, Append(host, s, bodies[0], timestamp, true), bodies[1..], timestamp)
  }

  function Forked(host: Host, s: Session, dir: string, id: Id, prev: Settings, timestamp: string): Session {
    AppendAll(host, Create(host, s, dir, s.header.cwd, TrimSpace(s.file), timestamp),
              ForkedBodies(Branch(s, id), prev), timestamp)
  }

  lemma {:induction false} AppendAllSplit(host: Host, s: Session, a: seq<Body>, b: seq<Body>, timestamp: string)
    ensures AppendAll(host, s, a + b, timestamp) == AppendAll(host, AppendAll(host, s, a, timestamp), b, timestamp)
    decreases |a|
  {
    if a == [] {
      assert a + b == b;
    } else {
      assert (a + b)[1..] == a[1..] + b;
      AppendAllSplit(host, Append(host, s, a[0], timestamp, true), a[1..], b, timestamp);
    }
  }

  lemma AppendAllOne(host: Host, s: Session, b: Body, timestamp: string)
    ensures AppendAll(host, s, [b], timestamp) == Append(host, s, b, timestamp, true)
  {
    assert [b][1..] == [];
  }

  function Appender(host: Host, timestamp: string, writable: bool): (Session, Body) -> Session {
    (s: Session, b: Body) => Append(host, s, b, timestamp, writable)
  }

  /** Appends until the first write that fails, which still draws an id; `writes` is how many succeed before it. */
  function AppendSome(host: Host, s: Session, bodies: seq<Body>, timestamp: string, writes: nat): Session {
    FoldSome(s, bodies, Appender(host, timestamp, true), Appender(host, timestamp, false), writes)
  }

  lemma AppendSomeSplit(host: Host, s: Session, a: seq<Body>, b: seq<Body>, timestamp: string, writes: nat)
    ensures AppendSome(host, s, a + b, timestamp, writes)
         == if writes < |a| then AppendSome(host, s, a, timestamp, writes)
            else AppendSome(host, AppendSome(host, s, a, timestamp, writes), b, timestamp, writes - |a|)
  {
    FoldSomeSplit(s, a, b, Appender(host, timestamp, true), Appender(host, timestamp, false), writes);
  }

  lemma AppendSomeOne(host: Host, s: Session, b: Body, timestamp: string, writes: nat)
    ensures AppendSome(host, s, [b], timestamp, writes) == Append(host, s, b, timestamp, writes > 0)
  {
    FoldSomeOne(s, b, Appender(host, timestamp, true), Appender(host, timestamp, false), writes);
  }

  lemma {:induction false} AppendSomeIsAll(host: Host, s: Session, bodies: seq<Body>, timestamp: string, writes: nat)
    requires writes >= |bodies|
    ensures AppendSome(host, s, bodies, timestamp, writes) == AppendAll(host, s, bodies, timestamp)
    decreases |bodies|
  {
    if bodies != [] {
      AppendSomeIsAll(host, Append(host, s, bodies[0], timestamp, true), bodies[1..], timestamp, writes - 1);
    }
  }

  /** What a fork leaves behind: nothing is done for an unknown entry or without a directory; otherwise the new
      session, as far as it got before the first write that failed. `writes` is how many writes succeed. */
  function ForkState(
    host: Host, s: Session, dir: string, id: Id, prev: Settings, timestamp: string, dirReady: bool,
    writes: nat): Session
  {
    if Branch(s, id) == [] || !dirReady then s
    else
      var created := Create(host, s, dir, s.header.cwd, TrimSpace(s.file), timestamp);
      if writes == 0 then created.(lines := [])
      else AppendSome(host, created, ForkedBodies(Branch(s, id), prev), timestamp, writes - 1)
  }

  /** `synced` says whether the new session's model could be resolved at the end. */
  method ForkSession(m: Manager, id: Id, prev: Settings, timestamp: string, dirReady: bool, writes: nat, synced: bool)
    returns (ok: bool)
    requires m.Valid()
    modifies m
    ensures m.Valid()
    ensures ok <==>
      Branch(old(m.Value()), id) != [] && dirReady && writes > |ForkedBodies(Branch(old(m.Value()), id), prev)|
        && synced
    ensures m.Value() == ForkState(m.host, old(m.Value()), m.dir, id, prev, timestamp, dirReady, writes)
  {
    var branch := m.Branch(id);
    if |branch| == 0 {
      return false;
    }
    var parentSession := TrimSpace(m.file);
    ok := m.CreateNew(m.header.cwd, parentSession, timestamp, dirReady, writes > 0);
    if !ok {
      return;
    }
    ok := FillFork(m, branch, prev, timestamp, writes - 1);
    ok := ok && synced;
  }

  /** A fork whose writes all succeed is the whole copy. */
  lemma ForkIsWhole(host: Host, s: Session, dir: string, id: Id, prev: Settings, timestamp: string, writes: nat)
    requires Branch(s, id) != [] && writes > |ForkedBodies(Branch(s, id), prev)|
    ensures ForkState(host, s, dir, id, prev, timestamp, true, writes) == Forked(host, s, dir, id, prev, timestamp)
  {
    AppendSomeIsAll(host, Create(host, s, dir, s.header.cwd, TrimSpace(s.file), timestamp),
      ForkedBodies(Branch(s, id), prev), timestamp, writes - 1);
  }

  method FillFork(m: Manager, branch: seq<Entry>, prev: Settings, timestamp: string, writes: nat) returns (ok: bool)
    requires m.Valid() && m.file != ""
    modifies m
    ensures m.Valid() && (ok <==> writes >= |ForkedBodies(branch, prev)|)
    ensures m.Value() == AppendSome(m.host, old(m.Value()), ForkedBodies(branch, prev), timestamp, writes)
  {
    ghost var s := m.Value();
    var copied, left, sawModelChange, sawThinkingLevel := CopyBranch(m, branch, timestamp, writes);
    ok := copied;
    if copied {
      ok := AppendTrailer(m, sawModelChange, sawThinkingLevel, prev, timestamp, left);
    }
    FilledInTwo(m.host, s, branch, prev, timestamp, writes, copied, left, m.Value());
  }

  /** The copying loop, and then the trailer if all was copied. */
  lemma FilledInTwo(
    host: Host, s: Session, branch: seq<Entry>, prev: Settings, timestamp: string, writes: nat, copied: bool,
    left: nat, end: Session)
    requires var a, b := CopiedBodies(Bodies(branch)), Trailer(Bodies(branch), prev);
      && (copied <==> writes >= |a|)
      && (copied ==> left == writes - |a|)
      && end == if copied then AppendSome(host, AppendSome(host, s, a, timestamp, writes), b, timestamp, left)
                else AppendSome(host, s, a, timestamp, writes)
    ensures end == AppendSome(host, s, ForkedBodies(branch, prev), timestamp, writes)
    ensures copied && left >= |Trailer(Bodies(branch), prev)| <==> writes >= |ForkedBodies(branch, prev)|
  {
    AppendSomeSplit(host, s, CopiedBodies(Bodies(branch)), Trailer(Bodies(branch), prev), timestamp, writes);
  }

  method AppendTrailer(
    m: Manager, sawModelChange: bool, sawThinkingLevel: bool, prev: Settings, timestamp: string, writes: nat)
    returns (ok: bool)
    requires m.Valid() && m.file != ""
    modifies m
    ensures m.Valid() && (ok <==> writes >= |TrailerFor(sawModelChange, sawThinkingLevel, prev)|)
    ensures m.Value()
         == AppendSome(m.host, old(m.Value()), TrailerFor(sawModelChange, sawThinkingLevel, prev), timestamp, writes)
  {
    ghost var s := m.Value();
    var model, thinking := ModelChange(prev.provider, prev.modelId), ThinkingLevelChange(prev.thinking);
    AppendSomeSplit(m.host, s, OneIf(!sawModelChange, model), OneIf(!sawThinkingLevel, thinking), timestamp, writes);
    var left;
    ok, left := AppendIf(m, !sawModelChange, model, timestamp, writes);
    if ok {
      ok, left := AppendIf(m, !sawThinkingLevel, thinking, timestamp, left);
    }
  }

  function OneIf<T>(wanted: bool, x: T): seq<T> {
    if wanted then [x] else []
  }

  method AppendIf(m: Manager, wanted: bool, b: Body, timestamp: string, left: nat) returns (ok: bool, left': nat)
    requires m.Valid() && m.file != ""
    modifies m
    ensures m.Valid() && m.file == old(m.file)
    ensures m.Value() == AppendSome(m.host, old(m.Value()), OneIf(wanted, b), timestamp, left)
    ensures ok <==> left >= |OneIf(wanted, b)|
    ensures ok ==> left' == left - |OneIf(wanted, b)|
  {
    ok, left' := true, left;
    if wanted {
      AppendSomeOne(m.host, m.Value(), b, timestamp, left);
      var appended := m.Append(b, timestamp, left > 0);
      if appended.None? {
        return false, left;
      }
      left' := left - 1;
    }
  }

  /** The copying loop at position `i`: what is still to copy, from here, comes to the whole. */
  predicate Copying(
    host: Host, s: Session, bodies: seq<Body>, timestamp: string, writes: nat,
    now: Session, i: nat, left: nat, sawModelChange: bool, sawThinkingLevel: bool)
  {
    && i <= |bodies|
    && left - |CopiedBodies(bodies[i..])| == writes - |CopiedBodies(bodies)|
    && AppendSome(host, now, CopiedBodies(bodies[i..]), timestamp, left)
       == AppendSome(host, s, CopiedBodies(bodies), timestamp, writes)
    && sawModelChange == ChangesModel(bodies[..i]) && sawThinkingLevel == ChangesThinking(bodies[..i])
  }

  lemma CopyStep(
    host: Host, s: Session, bodies: seq<Body>, timestamp: string, writes: nat,
    now: Session, i: nat, left: nat, sawModelChange: bool, sawThinkingLevel: bool)
    requires Copying(host, s, bodies, timestamp, writes, now, i, left, sawModelChange, sawThinkingLevel) && i < |bodies|
    ensures var b := bodies[i];
      var one := OneIf(IsCopied(b), b);
      var next := AppendSome(host, now, one, timestamp, left);
      if left < |one| then
        next == AppendSome(host, s, CopiedBodies(bodies), timestamp, writes) && writes < |CopiedBodies(bodies)|
      else Copying(host, s, bodies, timestamp, writes, next, i + 1, left - |one|,
             sawModelChange || b.ModelChange?, sawThinkingLevel || b.ThinkingLevelChange?)
  {
    DropNext(bodies, i);
    TakeNext(bodies, i);
    AppendSomeSplit(host, now, OneIf(IsCopied(bodies[i]), bodies[i]), CopiedBodies(bodies[i + 1..]), timestamp, left);
  }

  lemma CopyEnds(
    host: Host, s: Session, bodies: seq<Body>, timestamp: string, writes: nat,
    now: Session, left: nat, sawModelChange: bool, sawThinkingLevel: bool)
    requires Copying(host, s, bodies, timestamp, writes, now, |bodies|, left, sawModelChange, sawThinkingLevel)
    ensures now == AppendSome(host, s, CopiedBodies(bodies), timestamp, writes)
    ensures left == writes - |CopiedBodies(bodies)|
    ensures sawModelChange == ChangesModel(bodies) && sawThinkingLevel == ChangesThinking(bodies)
  {
    assert bodies[..|bodies|] == bodies;
  }

  method CopyOne(
    m: Manager, b: Body, timestamp: string, left: nat,
    ghost s: Session, ghost bodies: seq<Body>, ghost writes: nat, ghost i: nat, ghost model: bool, ghost thinking: bool)
    returns (ok: bool, left': nat)
    requires m.Valid() && m.file != "" && i < |bodies| && b == bodies[i]
    requires Copying(m.host, s, bodies, timestamp, writes, m.Value(), i, left, model, thinking)
    modifies m
    ensures m.Valid() && m.file != ""
    ensures ok ==> Copying(m.host, s, bodies, timestamp, writes, m.Value(), i + 1, left',
      model || b.ModelChange?, thinking || b.ThinkingLevelChange?)
    ensures !ok ==>
      m.Value() == AppendSome(m.host, s, CopiedBodies(bodies), timestamp, writes) && writes < |CopiedBodies(bodies)|
  {
    CopyStep(m.host, s, bodies, timestamp, writes, m.Value(), i, left, model, thinking);
    ok, left' := AppendIf(m, IsCopied(b), b, timestamp, left);
  }

  /** The copying loop, which also notes whether the branch sets the model and the thinking level. */
  method CopyBranch(m: Manager, branch: seq<Entry>, timestamp: string, writes: nat)
    returns (ok: bool, left: nat, sawModelChange: bool, sawThinkingLevel: bool)
    requires m.Valid() && m.file != ""
    modifies m
    ensures m.Valid() && (ok <==> writes >= |CopiedBodies(Bodies(branch))|)
    ensures m.Value() == AppendSome(m.host, old(m.Value()), CopiedBodies(Bodies(branch)), timestamp, writes)
    ensures ok ==>
      && m.file != "" && left == writes - |CopiedBodies(Bodies(branch))|
      && sawModelChange == ChangesModel(Bodies(branch)) && sawThinkingLevel == ChangesThinking(Bodies(branch))
  {
    ok, left, sawModelChange, sawThinkingLevel := true, writes, false, false;
    ghost var s, bodies := m.Value(), Bodies(branch);
    assert bodies[0..] == bodies;
    for i := 0 to |branch|
      invariant m.Valid() && m.file != ""
      invariant Copying(m.host, s, bodies, timestamp, writes, m.Value(), i, left, sawModelChange, sawThinkingLevel)
    {
      var b := branch[i].body;
      ok, left := CopyOne(m, b, timestamp, left, s, bodies, writes, i, sawModelChange, sawThinkingLevel);
      if !ok {
        return;
      }
      sawModelChange := sawModelChange || b.ModelChange?;
      sawThinkingLevel := sawThinkingLevel || b.ThinkingLevelChange?;
    }
    CopyEnds(m.host, s, bodies, timestamp, writes, m.Value(), left, sawModelChange, sawThinkingLevel);
  }

  // ----- The forked session is one chain of the copied bodies -----

  /** A session made by appends alone, from the first entry on. */
  predicate Grown(s: Session) {
    && s.file != "" && Chain(s.entries) && (s.clash || UniqueIds(s.entries))
    && s.leaf == if s.entries == [] then "" else s.entries[|s.entries| - 1].id
  }

  lemma BodiesSnoc(entries: seq<Entry>, e: Entry)
    ensures Bodies(entries + [e]) == Bodies(entries) + [e.body]
  {}

  lemma GrowOne(host: Host, s: Session, body: Body, timestamp: string)
    requires Grown(s)
    ensures var next := Append(host, s, body, timestamp, true);
      Grown(next) && Bodies(next.entries) == Bodies(s.entries) + [body] && next.file == s.file
        && next.header == s.header
  {
    var next := Append(host, s, body, timestamp, true);
    NextIdFresh(host, Index(s.entries).Keys, s.drawn, 100);
    var e := Entry(next.leaf, s.leaf, timestamp, body);
    assert next.entries == s.entries + [e];
    ChainSnoc(s.entries, e);
    BodiesSnoc(s.entries, e);
    if !next.clash {
      IndexComplete(s.entries);
    }
  }

  lemma {:induction false} AppendAllChains(host: Host, s: Session, bodies: seq<Body>, timestamp: string)
    requires Grown(s)
    ensures var after := AppendAll(host, s, bodies, timestamp);
      Grown(after) && Bodies(after.entries) == Bodies(s.entries) + bodies && after.file == s.file
        && after.header == s.header
    decreases |bodies|
  {
    if bodies == [] {
      assert Bodies(s.entries) + bodies == Bodies(s.entries);
    } else {
      GrowOne(host, s, bodies[0], timestamp);
      AppendAllChains(host, Append(host, s, bodies[0], timestamp, true), bodies[1..], timestamp);
      Reassociate(Bodies(s.entries), [bodies[0]], bodies[1..]);
      DropNext(bodies, 0);
    }
  }

  lemma ForkIsNotEmpty(branch: seq<Entry>, prev: Settings)
    ensures ForkedBodies(branch, prev) != []
  {
    var bodies := Bodies(branch);
    FilterHas(bodies, IsCopied);
    if ChangesModel(bodies) {
      var b :| b in bodies && b.ModelChange?;
      assert b in CopiedBodies(bodies);
    }
  }

  /** The new session's branch is the whole new session: the copied bodies in order, then the trailer. */
  lemma ForkIsChain(host: Host, s: Session, dir: string, id: Id, prev: Settings, timestamp: string)
    requires Branch(s, id) != []
    ensures var after := Forked(host, s, dir, id, prev, timestamp);
      !after.clash ==>
      && Chain(after.entries) && TreeSession(after)
      && Bodies(after.entries) == ForkedBodies(Branch(s, id), prev)
      && Branch(after, "") == after.entries && after.entries != []
      && after.header.parentSession == TrimSpace(s.file) && after.header.cwd == s.header.cwd
  {
    var created := Create(host, s, dir, s.header.cwd, TrimSpace(s.file), timestamp);
    var bodies := ForkedBodies(Branch(s, id), prev);
    AppendAllChains(host, created, bodies, timestamp);
    var after := Forked(host, s, dir, id, prev, timestamp);
    assert Bodies([]) + bodies == bodies;
    ForkIsNotEmpty(Branch(s, id), prev);
    if !after.clash {
      GrownBranch(after);
    }
  }

  lemma GrownBranch(s: Session)
    requires Grown(s) && !s.clash && s.entries != []
    ensures TreeSession(s) && Branch(s, "") == s.entries
  {
    ChainBranchIff(s.entries);
    ChainIsTree(s.entries);
    IndexComplete(s.entries);
    assert ChainAt(s.entries, |s.entries| - 1);
  }

  // ----- What the fork means -----

  lemma CopyKeepsMessages(bodies: seq<Body>, clock: Clock, n: nat)
    ensures Spread(CopiedBodies(bodies), Emit(clock), n) == Spread(bodies, Emit(clock), n)
  {
    SpreadFilter(bodies, IsCopied, Emit(clock), n);
  }

  lemma {:induction false} CopyKeepsSettings(bodies: seq<Body>, s: Settings)
    ensures SettingsOf(CopiedBodies(bodies), s) == SettingsOf(bodies, s)
    decreases |bodies|
  {
    if bodies != [] {
      var b, rest := bodies[0], bodies[1..];
      CopyKeepsSettings(rest, SettingsAfter(s, b));
      if IsCopied(b) {
        assert CopiedBodies(bodies)[1..] == CopiedBodies(rest);
      } else {
        assert CopiedBodies(bodies) == CopiedBodies(rest);
      }
    }
  }

  lemma {:induction false} SettingsSplit(a: seq<Body>, b: seq<Body>, s: Settings)
    ensures SettingsOf(a + b, s) == SettingsOf(b, SettingsOf(a, s))
    decreases |a|
  {
    if a == [] {
      assert a + b == b;
    } else {
      assert (a + b)[1..] == a[1..] + b;
      SettingsSplit(a[1..], b, SettingsAfter(s, a[0]));
    }
  }

  lemma NoCompaction(entries: seq<Entry>, clock: Clock)
    requires !exists b :: b in Bodies(entries) && b.Compaction?
    ensures ContextMessages(entries, clock) == EntryMessages(entries, clock, 0)
  {
    assert forall k :: 0 <= k < |entries| ==> Bodies(entries)[k] in Bodies(entries);
  }

  lemma TrailerHasNone(bodies: seq<Body>, prev: Settings)
    ensures forall b :: b in Trailer(bodies, prev) ==> b.ModelChange? || b.ThinkingLevelChange?
  {}

  lemma TrailerIsSilent(a: seq<Body>, bodies: seq<Body>, prev: Settings, clock: Clock, n: nat)
    ensures Spread(a + Trailer(bodies, prev), Emit(clock), n) == Spread(a, Emit(clock), n)
  {
    var trailer := Trailer(bodies, prev);
    SpreadSplit(a, trailer, Emit(clock), n);
    TrailerHasNone(bodies, prev);
    SilentBodies(trailer, clock, n + |Spread(a, Emit(clock), n)|);
  }

  lemma {:induction false} SilentBodies(bodies: seq<Body>, clock: Clock, n: nat)
    requires forall b :: b in bodies ==> b.ModelChange? || b.ThinkingLevelChange?
    ensures Spread(bodies, Emit(clock), n) == []
    decreases |bodies|
  {
    if bodies != [] {
      DropNext(bodies, 0);
      assert bodies[0] in bodies && forall b :: b in bodies[1..] ==> b in bodies;
      SilentBodies(bodies[1..], clock, n);
    }
  }

  lemma SettingsOne(b: Body, s: Settings)
    ensures SettingsOf([b], s) == SettingsAfter(s, b)
  {
    assert [b][1..] == [];
  }

  /** The settings a fork ends with: the branch's own, then the running ones the branch does not set. */
  lemma ForkSettings(branch: seq<Entry>, prev: Settings)
    ensures var own := SettingsOf(Bodies(branch), DEFAULTS);
      SettingsOf(ForkedBodies(branch, prev), DEFAULTS)
      == Settings(
           if ChangesThinking(Bodies(branch)) || prev.thinking == "" then own.thinking else prev.thinking,
           if ChangesModel(Bodies(branch)) then own.provider else prev.provider,
           if ChangesModel(Bodies(branch)) then own.modelId else prev.modelId)
  {
    var bodies := Bodies(branch);
    var own, trailer := SettingsOf(bodies, DEFAULTS), Trailer(bodies, prev);
    SettingsSplit(CopiedBodies(bodies), trailer, DEFAULTS);
    CopyKeepsSettings(bodies, DEFAULTS);
    var first := if ChangesModel(bodies) then [] else [ModelChange(prev.provider, prev.modelId)];
    var second := if ChangesThinking(bodies) then [] else [ThinkingLevelChange(prev.thinking)];
    SettingsSplit(first, second, own);
    SettingsOne(ModelChange(prev.provider, prev.modelId), own);
    SettingsOne(ThinkingLevelChange(prev.thinking), SettingsOf(first, own));
  }

  /** A fork of a branch without compactions keeps every message, whatever the clock reads at each of them; it
      keeps the model and the thinking level exactly when the branch sets them or they are the running ones. */
  lemma ForkPreservesMeaning(
    host: Host, s: Session, dir: string, id: Id, prev: Settings, timestamp: string, clock: Clock)
    requires Branch(s, id) != [] && !exists b :: b in Bodies(Branch(s, id)) && b.Compaction?
    ensures var branch, after := Branch(s, id), Forked(host, s, dir, id, prev, timestamp);
      var source, copy := ContextOf(branch, clock), ContextOf(Branch(after, ""), clock);
      !after.clash ==>
      && copy.messages == source.messages
      && (copy == source <==>
            && (ChangesModel(Bodies(branch))
              || (prev.provider == source.settings.provider && prev.modelId == source.settings.modelId))
            && (ChangesThinking(Bodies(branch)) || prev.thinking == "" || prev.thinking == source.settings.thinking))
  {
    var branch, after := Branch(s, id), Forked(host, s, dir, id, prev, timestamp);
    if !after.clash {
      ForkIsChain(host, s, dir, id, prev, timestamp);
      ForkedMessages(branch, after.entries, prev, clock);
      ForkSettings(branch, prev);
    }
  }

  lemma ForkedMessages(branch: seq<Entry>, copy: seq<Entry>, prev: Settings, clock: Clock)
    requires Bodies(copy) == ForkedBodies(branch, prev)
    requires !exists b :: b in Bodies(branch) && b.Compaction?
    ensures ContextMessages(copy, clock) == ContextMessages(branch, clock)
  {
    var bodies := Bodies(branch);
    FilterHas(bodies, IsCopied);
    TrailerHasNone(bodies, prev);
    NoCompaction(branch, clock);
    NoCompaction(copy, clock);
    TrailerIsSilent(CopiedBodies(bodies), bodies, prev, clock, 0);
    CopyKeepsMessages(bodies, clock, 0);
  }

  // ----- Forking a compacted branch -----

  /** The last compaction of the fork is the copy of the last compaction of the branch. */
  lemma ForkLastCompaction(branch: seq<Entry>, copy: seq<Entry>, prev: Settings)
    requires LastCompaction(branch) >= 0 && Bodies(copy) == ForkedBodies(branch, prev)
    ensures var c, c' := LastCompaction(branch), LastCompaction(copy);
      && c' >= 0 && copy[c'].body == branch[c].body
      && Bodies(copy)[c'..] == CopiedBodies(Bodies(branch)[c..]) + Trailer(Bodies(branch), prev)
  {
    var bodies, c := Bodies(branch), LastCompaction(branch);
    CopiesSplit(bodies, c, Trailer(bodies, prev));
    NoneLater(branch, prev);
    LastCompactionIs(copy, CopiedBodies(bodies[..c]), bodies[c], CopiedBodies(bodies[c + 1..]) + Trailer(bodies, prev));
  }

  lemma CopiesSplit(bodies: seq<Body>, c: nat, trailer: seq<Body>)
    requires c < |bodies| && IsCopied(bodies[c])
    ensures var tail := CopiedBodies(bodies[c + 1..]) + trailer;
      && CopiedBodies(bodies) + trailer == CopiedBodies(bodies[..c]) + ([bodies[c]] + tail)
      && CopiedBodies(bodies[c..]) + trailer == [bodies[c]] + tail
  {
    var before, after := CopiedBodies(bodies[..c]), CopiedBodies(bodies[c + 1..]);
    SplitAt(bodies, c);
    FilterSplit(bodies[..c], bodies[c..], IsCopied);
    DropNext(bodies, c);
    assert CopiedBodies(bodies[c..]) == [bodies[c]] + after;
    Regroup(before, bodies[c], after, trailer);
    Reassociate([bodies[c]], after, trailer);
  }

  lemma NoneLater(branch: seq<Entry>, prev: Settings)
    requires LastCompaction(branch) >= 0
    ensures var bodies := Bodies(branch);
      forall b :: b in CopiedBodies(bodies[LastCompaction(branch) + 1..]) + Trailer(bodies, prev) ==> !b.Compaction?
  {
    var bodies, later := Bodies(branch), Bodies(branch)[LastCompaction(branch) + 1..];
    FilterHas(later, IsCopied);
    assert forall b :: b in later ==> !b.Compaction?;
    TrailerHasNone(bodies, prev);
  }

  lemma Regroup<T>(a: seq<T>, x: T, b: seq<T>, c: seq<T>)
    ensures (a + ([x] + b)) + c == a + ([x] + (b + c))
  {}

  lemma LastCompactionIs(entries: seq<Entry>, before: seq<Body>, b: Body, tail: seq<Body>)
    requires Bodies(entries) == before + ([b] + tail)
    requires b.Compaction? && forall x :: x in tail ==> !x.Compaction?
    ensures LastCompaction(entries) == |before| && entries[|before|].body == b
    ensures Bodies(entries)[|before|..] == [b] + tail
  {
    var c := |before|;
    assert entries[c].body == Bodies(entries)[c] == b;
    assert forall k :: c < k < |entries| ==> entries[k].body == Bodies(entries)[k] == tail[k - c - 1];
  }

  /** A fork of a compacted branch holds the last summary and what came after it: the kept entries are looked
      up by an id of the old session. So it keeps the conversation exactly when nothing was kept. */
  lemma ForkOfCompacted(host: Host, s: Session, dir: string, id: Id, prev: Settings, timestamp: string, clock: Clock)
    requires LastCompaction(Branch(s, id)) >= 0
    requires var after := Forked(host, s, dir, id, prev, timestamp);
      var firstKept := Branch(s, id)[LastCompaction(Branch(s, id))].body.firstKeptEntryId;
      !after.clash && firstKept !in Index(after.entries)
    ensures var branch, after := Branch(s, id), Forked(host, s, dir, id, prev, timestamp);
      var c := LastCompaction(branch);
      var k := KeptFrom(branch, branch[c].body.firstKeptEntryId, c);
      var summary := Summary(branch, clock);
      && ContextMessages(Branch(after, ""), clock) == summary + EntryMessages(branch[c + 1..], clock, |summary|)
      && (ContextMessages(Branch(after, ""), clock) == ContextMessages(branch, clock)
          <==> EntryMessages(branch[k..c], clock, |summary|) == [])
  {
    var branch, after := Branch(s, id), Forked(host, s, dir, id, prev, timestamp);
    ForkIsChain(host, s, dir, id, prev, timestamp);
    ForkedContext(branch, after.entries, prev, clock);
    KeptOrNot(branch, clock);
  }

  lemma NothingKept(entries: seq<Entry>, id: Id, c: nat)
    requires c <= |entries| && id !in Index(entries)
    ensures KeptFrom(entries, id, c) == c
  {
    IndexComplete(entries);
  }

  lemma ContextFrom(entries: seq<Entry>, c: nat, k: nat, clock: Clock)
    requires LastCompaction(entries) == c && KeptFrom(entries, entries[c].body.firstKeptEntryId, c) == k
    ensures var summary := Summary(entries, clock);
      ContextMessages(entries, clock) == summary + EntryMessages(entries[k..], clock, |summary|)
  {}

  lemma SameSummary(branch: seq<Entry>, copy: seq<Entry>, clock: Clock)
    requires LastCompaction(branch) >= 0 && LastCompaction(copy) >= 0
    requires copy[LastCompaction(copy)].body == branch[LastCompaction(branch)].body
    ensures Summary(copy, clock) == Summary(branch, clock)
  {}

  lemma ForkedContext(branch: seq<Entry>, copy: seq<Entry>, prev: Settings, clock: Clock)
    requires LastCompaction(branch) >= 0 && Bodies(copy) == ForkedBodies(branch, prev)
    requires branch[LastCompaction(branch)].body.firstKeptEntryId !in Index(copy)
    ensures var summary := Summary(branch, clock);
      ContextMessages(copy, clock) == summary + EntryMessages(branch[LastCompaction(branch) + 1..], clock, |summary|)
  {
    ForkedTail(branch, copy, prev, clock, |Summary(branch, clock)|);
    NothingKept(copy, copy[LastCompaction(copy)].body.firstKeptEntryId, LastCompaction(copy));
    SameSummary(branch, copy, clock);
    ContextFrom(copy, LastCompaction(copy), LastCompaction(copy), clock);
  }

  lemma ForkedTail(branch: seq<Entry>, copy: seq<Entry>, prev: Settings, clock: Clock, n: nat)
    requires LastCompaction(branch) >= 0 && Bodies(copy) == ForkedBodies(branch, prev)
    ensures var c, c' := LastCompaction(branch), LastCompaction(copy);
      && c' >= 0 && copy[c'].body == branch[c].body
      && EntryMessages(copy[c'..], clock, n) == EntryMessages(branch[c + 1..], clock, n)
  {
    ForkLastCompaction(branch, copy, prev);
    ForkTail(branch, copy, prev, LastCompaction(branch), LastCompaction(copy), clock, n);
  }

  /** Leaving out the kept entries changes the context exactly when they contribute a message. */
  lemma KeptOrNot(branch: seq<Entry>, clock: Clock)
    requires LastCompaction(branch) >= 0
    ensures var c, summary := LastCompaction(branch), Summary(branch, clock);
      var k := KeptFrom(branch, branch[c].body.firstKeptEntryId, c);
      summary + EntryMessages(branch[c + 1..], clock, |summary|) == ContextMessages(branch, clock)
      <==> EntryMessages(branch[k..c], clock, |summary|) == []
  {
    var c := LastCompaction(branch);
    var k := KeptFrom(branch, branch[c].body.firstKeptEntryId, c);
    ContextFrom(branch, c, k, clock);
    KeptOrNotAt(branch, k, c, clock, Summary(branch, clock));
  }

  lemma KeptOrNotAt(branch: seq<Entry>, k: nat, c: nat, clock: Clock, summary: seq<Message>)
    requires k <= c < |branch| && branch[c].body.Compaction?
    ensures summary + EntryMessages(branch[c + 1..], clock, |summary|)
         == summary + EntryMessages(branch[k..], clock, |summary|)
       <==> EntryMessages(branch[k..c], clock, |summary|) == []
  {
    var kept := EntryMessages(branch[k..c], clock, |summary|);
    var now := summary + kept;
    JoinKept(branch, k, c, clock, summary);
    SameTailLength(branch[c + 1..], clock, |summary|, |now|);
    AddedIff(
      summary, kept, EntryMessages(branch[c + 1..], clock, |summary|), EntryMessages(branch[c + 1..], clock, |now|));
  }

  lemma AddedIff<T>(head: seq<T>, kept: seq<T>, tail: seq<T>, late: seq<T>)
    requires |tail| == |late| && (kept == [] ==> tail == late)
    ensures head + tail == (head + kept) + late <==> kept == []
  {
    assert |head + tail| == |(head + kept) + late| <==> |kept| == 0;
    if kept == [] {
      assert head + kept == head;
    }
  }

  lemma ForkTail(branch: seq<Entry>, copy: seq<Entry>, prev: Settings, c: nat, c': nat, clock: Clock, n: nat)
    requires c < |branch| && c' < |copy| && branch[c].body.Compaction?
    requires Bodies(copy)[c'..] == CopiedBodies(Bodies(branch)[c..]) + Trailer(Bodies(branch), prev)
    ensures EntryMessages(copy[c'..], clock, n) == EntryMessages(branch[c + 1..], clock, n)
  {
    var bodies := Bodies(branch);
    assert Bodies(copy[c'..]) == Bodies(copy)[c'..];
    TrailerIsSilent(CopiedBodies(bodies[c..]), bodies, prev, clock, n);
    CopyKeepsMessages(bodies[c..], clock, n);
    DropNext(bodies, c);
    SpreadSilent(bodies[c..], Emit(clock), n);
    assert Bodies(branch[c + 1..]) == bodies[c + 1..];
  }

  lemma {:induction false} SameTailLength(entries: seq<Entry>, clock: Clock, n: nat, n': nat)
    ensures |EntryMessages(entries, clock, n)| == |EntryMessages(entries, clock, n')|
    decreases |entries|
  {
    if entries != [] {
      var f, b := Emit(clock), entries[0].body;
      assert Bodies(entries)[1..] == Bodies(entries[1..]);
      SameTailLength(entries[1..], clock, n + |f(b, n)|, n' + |f(b, n')|);
    }
  }
}
