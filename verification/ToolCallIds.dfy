/** The tool-call id normalisers of the provider encoders. An id is a byte string,
    one char per byte (internal/providers/anthropic.go, internal/providers/openai.go). */
module ToolCallIds {
  import opened Types
  import opened Transform
  import opened TransformLaws

  predicate AlphaNumeric(ch: char) {
    'a' <= ch <= 'z' || 'A' <= ch <= 'Z' || '0' <= ch <= '9'
  }

  predicate Safe(ch: char) {
    AlphaNumeric(ch) || ch == '_' || ch == '-'
  }

  function Clean(id: Id): (clean: Id)
    ensures |clean| == |id|
    ensures forall i :: 0 <= i < |id| ==> clean[i] == if Safe(id[i]) then id[i] else '_'
  {
    seq(|id|, i requires 0 <= i < |id| => if Safe(id[i]) then id[i] else '_')
  }

  method SanitizeId(id: Id) returns (b: Id)
    ensures b == Clean(id)
    ensures forall i :: 0 <= i < |b| ==> Safe(b[i])
  {
    b := "";
    for i := 0 to |id|
      invariant b == Clean(id)[..i]
    {
      if Safe(id[i]) {
        b := b + [id[i]];
      } else {
        b := b + ['_'];
      }
    }
  }

  function Truncate(id: Id, limit: nat): Id {
    if |id| > limit then id[..limit] else id
  }

  // ----- Anthropic -----

  function AnthropicId(id: Id): Id {
    Truncate(Clean(id), 64)
  }

  method NormalizeAnthropicToolCallId(id: Id) returns (r: Id)
    ensures r == AnthropicId(id)
    ensures |r| <= 64 && forall i :: 0 <= i < |r| ==> Safe(r[i])
    ensures r == "" <==> id == ""
  {
    if id == "" {
      return id;
    }
    r := SanitizeId(id);
    if |r| > 64 {
      r := r[..64];
    }
  }

  // ----- Mistral -----

  const PAD := "ABCDEFGHI"

  function AlphaNumerics(id: Id): Id {
    if id == "" then ""
    else (if AlphaNumeric(id[0]) then [id[0]] else "") + AlphaNumerics(id[1..])
  }

  /** `s` filled up to nine chars from the pad, position by position. */
  function Padded(s: Id): Id {
    if |s| < 9 then s + PAD[|s|..] else s
  }

  function MistralId(id: Id): Id {
    Truncate(Padded(AlphaNumerics(id)), 9)
  }

  method NormalizeMistralToolId(id: Id) returns (r: Id)
    ensures r == MistralId(id)
    ensures |r| == 9 && forall i :: 0 <= i < 9 ==> AlphaNumeric(r[i])
  {
    var sanitized: Id := "";
    for i := 0 to |id|
      invariant sanitized + AlphaNumerics(id[i..]) == AlphaNumerics(id)
    {
      var ch := id[i];
      assert id[i..][1..] == id[i + 1..];
      if AlphaNumeric(ch) {
        sanitized := sanitized + [ch];
      }
    }
    r := PadToNine(sanitized);
    if |r| > 9 {
      r := r[..9];
    }
    MistralShape(id);
  }

  method PadToNine(kept: Id) returns (padded: Id)
    ensures padded == Padded(kept)
  {
    padded := kept;
    while |padded| < 9
      invariant |kept| <= |padded|
      invariant |kept| >= 9 ==> padded == kept
      invariant |kept| < 9 ==> |padded| <= 9 && padded == kept + PAD[|kept|..|padded|]
    {
      if |kept| < 9 {
        PadNext(kept, padded);
      }
      padded := padded + [PAD[|padded|]];
    }
  }

  lemma PadNext(kept: Id, padded: Id)
    requires |kept| <= |padded| < 9 && padded == kept + PAD[|kept|..|padded|]
    ensures padded + [PAD[|padded|]] == kept + PAD[|kept|..|padded| + 1]
  {}

  // ----- OpenAI chat -----

  /** The part of an id before its first bar. */
  function BeforeBar(id: Id): Id {
    if id == "" || id[0] == '|' then "" else [id[0]] + BeforeBar(id[1..])
  }

  function OpenAIChatId(provider: string, mistralIds: bool, id: Id): Id {
    if id == "" then id
    else if mistralIds then MistralId(id)
    else if '|' in id then Truncate(Clean(BeforeBar(id)), 40)
    else if provider == "openai" then Truncate(id, 40)
    else id
  }

  // ----- Each normaliser is idempotent -----

  lemma CleanIdempotent(id: Id, limit: nat)
    ensures Truncate(Clean(Truncate(Clean(id), limit)), limit) == Truncate(Clean(id), limit)
  {
    var once := Truncate(Clean(id), limit);
    assert forall i :: 0 <= i < |once| ==> Safe(once[i]);
    assert Clean(once) == once;
  }

  lemma {:induction false} AlphaNumericsKeep(id: Id)
    requires forall i :: 0 <= i < |id| ==> AlphaNumeric(id[i])
    ensures AlphaNumerics(id) == id
  {
    if id != "" {
      AlphaNumericsKeep(id[1..]);
    }
  }

  lemma {:induction false} AlphaNumericsAre(id: Id)
    ensures forall i :: 0 <= i < |AlphaNumerics(id)| ==> AlphaNumeric(AlphaNumerics(id)[i])
  {
    if id != "" {
      AlphaNumericsAre(id[1..]);
    }
  }

  lemma MistralShape(id: Id)
    ensures |MistralId(id)| == 9
    ensures forall i :: 0 <= i < 9 ==> AlphaNumeric(MistralId(id)[i])
  {
    AlphaNumericsAre(id);
    assert forall i :: 0 <= i < 9 ==> AlphaNumeric(PAD[i]);
  }

  lemma MistralIdempotent(id: Id)
    ensures MistralId(MistralId(id)) == MistralId(id)
  {
    MistralShape(id);
    AlphaNumericsKeep(MistralId(id));
  }

  lemma OpenAIChatIdempotent(provider: string, mistralIds: bool, id: Id)
    ensures OpenAIChatId(provider, mistralIds, OpenAIChatId(provider, mistralIds, id))
         == OpenAIChatId(provider, mistralIds, id)
  {
    MistralIdempotent(id);
    if '|' in id {
      var once := Truncate(Clean(BeforeBar(id)), 40);
      assert forall i :: 0 <= i < |once| ==> Safe(once[i]);
      assert '|' !in once;
    } else {
      assert '|' !in Truncate(id, 40);
    }
  }

  function AnthropicNormalizer(): Normalizer {
    Some((id: Id) => AnthropicId(id))
  }

  function OpenAIChatNormalizer(provider: string, mistralIds: bool): Normalizer {
    Some((id: Id) => OpenAIChatId(provider, mistralIds, id))
  }

  /** Repairing a history twice for Anthropic, Mistral or OpenAI chat is repairing it once. */
  lemma TransformIdempotentForProviders(
    msgs: seq<Message>, target: Model, provider: string, mistralIds: bool, clock: Clock, clock': Clock,
    norm: Normalizer)
    requires norm == AnthropicNormalizer() || norm == OpenAIChatNormalizer(provider, mistralIds)
    ensures var once := Transformed(msgs, target, norm, clock);
      Transformed(once, target, norm, clock') == once
  {
    forall id: Id
      ensures AnthropicId(AnthropicId(id)) == AnthropicId(id)
      ensures OpenAIChatId(provider, mistralIds, OpenAIChatId(provider, mistralIds, id))
        == OpenAIChatId(provider, mistralIds, id)
    {
      CleanIdempotent(id, 64);
      OpenAIChatIdempotent(provider, mistralIds, id);
    }
    TransformIdempotent(msgs, target, norm, clock, clock');
  }
}
