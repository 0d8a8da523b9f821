/** From the description of a provider to its profile: spelled out, built in, or the default of a
    provider with a key. */
module ProviderResolver {
  import opened Seqs
  import opened ProviderImport
  import opened ProviderProfile

  const OPENAI_NPM := "@ai-sdk/openai"
  const COMPATIBLE_NPM := "@ai-sdk/openai-compatible"
  const ANTHROPIC_NPM := "@ai-sdk/anthropic"

  /** What a description says of its profile. */
  datatype Explicit = Explicit(
    style: Option<string>, shape: Option<string>, transport: Option<string>, usage: Option<string>, quirks: seq<string>)

  function ExplicitOf(b: Bootstrap): Explicit {
    Explicit(
      TrimOption(b.apiStyle), TrimOption(b.apiShape), TrimOption(b.transport), TrimOption(b.usageShape),
      TrimAll(b.quirks.GetOr([])))
  }

  predicate Given(e: Explicit) {
    e.style.Some? || e.shape.Some? || e.transport.Some? || e.usage.Some? || e.quirks != []
  }

  // ---- Resolution ----

  function CacheOf(f: Family): Cache {
    if f == OpenAiFamily then OpenAiCache else AnthropicCache
  }

  predicate Combines(f: Family, s: Shape, u: Usage) {
    if f == OpenAiFamily then s != Messages && u == CachedTokens else s == Messages && u == ReadWrite
  }

  function IntoProfile(e: Explicit, npm: string): Resolved {
    if e.style.None? || e.shape.None? || e.transport.None? || e.usage.None? then Err(InvalidConfig)
    else
      var family :- ParseFamily(e.style.value);
      var shape :- ParseShape(e.shape.value);
      var transport :- ParseTransport(e.transport.value);
      var usage :- ParseUsage(e.usage.value);
      var quirks :- ParseQuirks(e.quirks);
      if Combines(family, shape, usage)
      then Ok(Profile(npm, family, shape, transport, usage, CacheOf(family), quirks))
      else Err(InvalidCombination)
  }

  predicate Supported(npm: string) {
    var key := Lower(Trim(npm));
    key == OPENAI_NPM || key == COMPATIBLE_NPM || key == ANTHROPIC_NPM
  }

  function Custom(e: Explicit, npm: string): Resolved {
    var p :- IntoProfile(e, npm);
    if Supported(npm) then Ok(p) else Err(UnsupportedValue("npm", npm))
  }

  predicate Named(id: string, name: string) {
    Lower(Trim(id)) == name
  }

  function BuiltinProfile(id: string): Option<Profile> {
    if Named(id, "openai") then
      Some(Profile(OPENAI_NPM, OpenAiFamily, Responses, Bearer, CachedTokens, OpenAiCache, []))
    else if Named(id, "anthropic") then
      Some(Profile(ANTHROPIC_NPM, AnthropicFamily, Messages, Bearer, ReadWrite, AnthropicCache, []))
    else if Named(id, "deepseek") then
      Some(Profile(COMPATIBLE_NPM, OpenAiFamily, ChatCompletions, Bearer, CachedTokens, OpenAiCache, []))
    else None
  }

  function Builtin(id: string, npm: string): Resolved {
    var p := BuiltinProfile(id);
    if p.None? then Err(MissingField("provider_profile"))
    else if Lower(Trim(npm)) == p.value.npm then Ok(p.value)
    else Err(UnsupportedValue("npm", npm))
  }

  /** DeepSeek needs its thinking replayed, whatever the description says. */
  function WithReplay(id: string, p: Profile): Profile {
    if Named(id, "deepseek") then p.(quirks := Insert(p.quirks, ThinkingReplay)) else p
  }

  function ResolveWith(id: string, npm: string, e: Explicit): Resolved {
    var p :- if Given(e) then Custom(e, npm) else Builtin(id, npm);
    Ok(WithReplay(id, p))
  }

  function DefaultNpm(id: string): string {
    if Named(id, "anthropic") then ANTHROPIC_NPM
    else if Named(id, "openai") then OPENAI_NPM
    else COMPATIBLE_NPM
  }

  function NpmOf(id: string, b: Bootstrap): string {
    TrimOption(b.npm).GetOr(DefaultNpm(id))
  }

  function DefaultProfile(npm: string): Option<Explicit> {
    var key := Trim(npm);
    if key == OPENAI_NPM then
      Some(Explicit(Some("openai-compatible"), Some("responses"), Some("bearer"), Some("openai-cached-tokens"), []))
    else if key == COMPATIBLE_NPM then
      Some(Explicit(Some("openai-compatible"), Some("chat-completions"), Some("bearer"), Some("openai-cached-tokens"), []))
    else if key == ANTHROPIC_NPM then
      Some(Explicit(Some("anthropic-compatible"), Some("messages"), Some("bearer"), Some("anthropic-read-write"), []))
    else None
  }

  /** A key of its own; options can hold one too, but both callers here have none. */
  predicate HasCredentials(b: Bootstrap) {
    TrimOption(b.apiKey).Some?
  }

  function Resolve(id: string, b: Bootstrap): Resolved {
    var npm := NpmOf(id, b);
    var first := ResolveWith(id, npm, ExplicitOf(b));
    if first == Err(MissingField("provider_profile")) && HasCredentials(b) && DefaultProfile(npm).Some?
    then ResolveWith(id, npm, DefaultProfile(npm).value)
    else first
  }

  // ---- What resolves ----

  predicate KnownQuirk(q: string) {
    var v := Normal(q);
    || v == "non-streaming-sse" || v == "raw-json-lines" || v == "requires-thinking-replay"
    || v == "ignores-unknown-fields"
  }

  predicate SpellsOpenAi(style: string, shape: string, usage: string) {
    && style == "openai-compatible" && (shape == "chat-completions" || shape == "responses")
    && usage == "openai-cached-tokens"
  }

  predicate SpellsAnthropic(style: string, shape: string, usage: string) {
    && (style == "anthropic-messages" || style == "anthropic-compatible") && shape == "messages"
    && usage == "anthropic-read-write"
  }

  /** All four fields given, in one of the spellings that go together, with known quirks. */
  predicate Spelled(e: Explicit) {
    && e.style.Some? && e.shape.Some? && e.transport.Some? && e.usage.Some?
    && (Normal(e.transport.value) == "bearer" || Normal(e.transport.value) == "oauth")
    && (forall q :: q in e.quirks ==> KnownQuirk(q))
    && (var style, shape, usage := Normal(e.style.value), Normal(e.shape.value), Normal(e.usage.value);
        SpellsOpenAi(style, shape, usage) || SpellsAnthropic(style, shape, usage))
  }

  lemma {:induction false} QuirksParseIff(values: seq<string>)
    ensures ParseQuirks(values).Ok? <==> forall q :: q in values ==> KnownQuirk(q)
  {
    if values != [] {
      var front, last := values[..|values| - 1], values[|values| - 1];
      QuirksParseIff(front);
      assert values == front + [last];
      assert ParseQuirk(last).Ok? <==> KnownQuirk(last);
    }
  }

  lemma OpenAiMeans(style: string, shape: string, usage: string)
    ensures SpellsOpenAi(Normal(style), Normal(shape), Normal(usage))
        <==> ParseFamily(style) == Ok(OpenAiFamily) && ParseShape(shape) in {Ok(ChatCompletions), Ok(Responses)}
             && ParseUsage(usage) == Ok(CachedTokens)
  {
  }

  lemma AnthropicMeans(style: string, shape: string, usage: string)
    ensures SpellsAnthropic(Normal(style), Normal(shape), Normal(usage))
        <==> ParseFamily(style) == Ok(AnthropicFamily) && ParseShape(shape) == Ok(Messages)
             && ParseUsage(usage) == Ok(ReadWrite)
  {
  }

  lemma SpelledIff(e: Explicit, npm: string)
    ensures IntoProfile(e, npm).Ok? <==> Spelled(e)
  {
    QuirksParseIff(e.quirks);
    if e.style.Some? && e.shape.Some? && e.usage.Some? {
      OpenAiMeans(e.style.value, e.shape.value, e.usage.value);
      AnthropicMeans(e.style.value, e.shape.value, e.usage.value);
    }
  }

  /** What holds of every resolved profile. */
  predicate Coherent(id: string, p: Profile) {
    && Trimmed(p.npm) && Supported(p.npm) && Combines(p.family, p.shape, p.usage) && p.cache == CacheOf(p.family)
    && Distinct(p.quirks) && (Named(id, "deepseek") ==> ThinkingReplay in p.quirks)
  }

  lemma NpmIsTrimmed(id: string, b: Bootstrap)
    ensures Trimmed(NpmOf(id, b))
  {
    if b.npm.Some? {
      TrimEffect(b.npm.value);
    }
  }

  lemma {:induction false} ParsedAreDistinct(values: seq<string>)
    requires ParseQuirks(values).Ok?
    ensures Distinct(ParseQuirks(values).value)
  {
    if values != [] {
      ParsedAreDistinct(values[..|values| - 1]);
    }
  }

  lemma CustomIsCoherent(e: Explicit, npm: string)
    requires Trimmed(npm) && Custom(e, npm).Ok?
    ensures var p := Custom(e, npm).value;
            Trimmed(p.npm) && Supported(p.npm) && Combines(p.family, p.shape, p.usage) && p.cache == CacheOf(p.family)
            && Distinct(p.quirks)
  {
    ParsedAreDistinct(e.quirks);
  }

  lemma LowerPlain(s: string)
    requires Plain(s)
    ensures Lower(Trim(s)) == s
  {
    TrimEffect(s);
    assert forall c :: c in s ==> LowerChar(c) == c by {
      assert forall c :: c in s ==> NormalChar(c) == c;
    }
  }

  lemma NpmNamesAreSupported()
    ensures Supported(OPENAI_NPM) && Supported(COMPATIBLE_NPM) && Supported(ANTHROPIC_NPM)
    ensures Trimmed(OPENAI_NPM) && Trimmed(COMPATIBLE_NPM) && Trimmed(ANTHROPIC_NPM)
  {
    LowerPlain(OPENAI_NPM);
    LowerPlain(COMPATIBLE_NPM);
    LowerPlain(ANTHROPIC_NPM);
  }

  lemma BuiltinIsCoherent(id: string)
    requires BuiltinProfile(id).Some?
    ensures var p := BuiltinProfile(id).value;
            Trimmed(p.npm) && Supported(p.npm) && Combines(p.family, p.shape, p.usage) && p.cache == CacheOf(p.family)
            && Distinct(p.quirks)
  {
    NpmNamesAreSupported();
  }

  lemma ResolveWithIsCoherent(id: string, npm: string, e: Explicit)
    requires Trimmed(npm) && ResolveWith(id, npm, e).Ok?
    ensures Coherent(id, ResolveWith(id, npm, e).value)
  {
    if Given(e) {
      CustomIsCoherent(e, npm);
    } else {
      BuiltinIsCoherent(id);
    }
  }

  /** However a profile is arrived at, its parts go together. */
  lemma ResolvedIsCoherent(id: string, b: Bootstrap)
    requires Resolve(id, b).Ok?
    ensures Coherent(id, Resolve(id, b).value)
  {
    var npm := NpmOf(id, b);
    NpmIsTrimmed(id, b);
    var first := ResolveWith(id, npm, ExplicitOf(b));
    if first == Err(MissingField("provider_profile")) && HasCredentials(b) && DefaultProfile(npm).Some? {
      ResolveWithIsCoherent(id, npm, DefaultProfile(npm).value);
    } else {
      ResolveWithIsCoherent(id, npm, ExplicitOf(b));
    }
  }

  /** A description without a key: spelled out in full for a supported package, or silent for
      a provider that is built in and its package. */
  predicate Resolvable(id: string, b: Bootstrap) {
    var e, npm := ExplicitOf(b), NpmOf(id, b);
    if Given(e) then Spelled(e) && Supported(npm)
    else BuiltinProfile(id).Some? && Lower(npm) == BuiltinProfile(id).value.npm
  }

  /** Whether the profile without a key is that of the Anthropic protocol. */
  predicate SpeaksAnthropic(id: string, b: Bootstrap) {
    var e := ExplicitOf(b);
    if Given(e) then e.shape.Some? && Normal(e.shape.value) == "messages" else Named(id, "anthropic")
  }

  lemma ResolvesIff(id: string, b: Bootstrap)
    requires !HasCredentials(b)
    ensures Resolve(id, b).Ok? <==> Resolvable(id, b)
  {
    var e, npm := ExplicitOf(b), NpmOf(id, b);
    NpmIsTrimmed(id, b);
    TrimEffect(npm);
    SpelledIff(e, npm);
  }

  lemma ShapeMeans(value: string)
    ensures ParseShape(value) == Ok(Messages) <==> Normal(value) == "messages"
  {
  }

  lemma CustomShape(e: Explicit, npm: string)
    requires Custom(e, npm).Ok?
    ensures e.shape.Some? && ParseShape(e.shape.value) == Ok(Custom(e, npm).value.shape)
  {
  }

  lemma BuiltinShape(id: string)
    requires BuiltinProfile(id).Some?
    ensures BuiltinProfile(id).value.shape == Messages <==> Named(id, "anthropic")
  {
  }

  lemma SpeaksAnthropicIff(id: string, b: Bootstrap)
    requires !HasCredentials(b) && Resolve(id, b).Ok?
    ensures Resolve(id, b).value.shape == Messages <==> SpeaksAnthropic(id, b)
  {
    var e, npm := ExplicitOf(b), NpmOf(id, b);
    if Given(e) {
      CustomShape(e, npm);
      ShapeMeans(e.shape.value);
      assert Resolve(id, b).value.shape == Custom(e, npm).value.shape;
    } else {
      BuiltinShape(id);
      assert Resolve(id, b).value.shape == BuiltinProfile(id).value.shape;
    }
  }

  // ---- Profiles written out ----

  /** The description says all of a profile in its labels. */
  predicate WrittenOut(b: Bootstrap, p: Profile) {
    && b.npm == Some(p.npm) && b.apiStyle == Some(FamilyLabel(p.family)) && b.apiShape == Some(ShapeLabel(p.shape))
    && b.transport == Some(TransportLabel(p.transport)) && b.usageShape == Some(UsageLabel(p.usage))
    && b.quirks.GetOr([]) == QuirkLabels(p.quirks)
  }

  lemma TrimOptionStays(s: string)
    requires Trimmed(s) && s != ""
    ensures TrimOption(Some(s)) == Some(s)
  {
    TrimEffect(s);
  }

  lemma ShapeLabelStays(s: Shape)
    ensures TrimOption(Some(ShapeLabel(s))) == Some(ShapeLabel(s))
  {
    TrimOptionStays(ShapeLabel(s));
  }

  lemma UsageLabelStays(u: Usage)
    ensures TrimOption(Some(UsageLabel(u))) == Some(UsageLabel(u))
  {
    TrimOptionStays(UsageLabel(u));
  }

  lemma OtherLabelsStay(f: Family, t: Transport)
    ensures TrimOption(Some(FamilyLabel(f))) == Some(FamilyLabel(f))
    ensures TrimOption(Some(TransportLabel(t))) == Some(TransportLabel(t))
  {
    TrimOptionStays(FamilyLabel(f));
    TrimOptionStays(TransportLabel(t));
  }

  function LabelsOf(p: Profile): Explicit {
    Explicit(
      Some(FamilyLabel(p.family)), Some(ShapeLabel(p.shape)), Some(TransportLabel(p.transport)),
      Some(UsageLabel(p.usage)), QuirkLabels(p.quirks))
  }

  lemma WrittenOutIsRead(id: string, b: Bootstrap, p: Profile)
    requires WrittenOut(b, p) && Trimmed(p.npm) && p.npm != ""
    ensures ExplicitOf(b) == LabelsOf(p) && NpmOf(id, b) == p.npm
  {
    ShapeLabelStays(p.shape);
    UsageLabelStays(p.usage);
    OtherLabelsStay(p.family, p.transport);
    QuirksReadBack(p.quirks);
    TrimAllStays(QuirkLabels(p.quirks));
    TrimEffect(p.npm);
  }

  /** What the labels of a profile are read as. */
  function Reread(p: Profile): Resolved {
    if p.shape == Messages then Err(UnsupportedValue("api_shape", ShapeLabel(Messages)))
    else if p.usage == Unknown then Err(UnsupportedValue("usage_shape", UsageLabel(Unknown)))
    else if !Combines(p.family, p.shape, p.usage) then Err(InvalidCombination)
    else if !Supported(p.npm) then Err(UnsupportedValue("npm", p.npm))
    else Ok(p.(cache := CacheOf(p.family), quirks := Deduped(p.quirks)))
  }

  lemma LabelsAreReread(p: Profile)
    ensures Custom(LabelsOf(p), p.npm) == Reread(p)
  {
    FamilyReadsBack(p.family);
    ShapeReadsBackIff(p.shape);
    TransportReadsBack(p.transport);
    UsageReadsBackIff(p.usage);
    QuirksReadBack(p.quirks);
  }

  /** A profile written out resolves to itself, whatever keys there are, unless it is of the
      Anthropic protocol or its parts do not go together. */
  lemma WrittenOutResolves(id: string, b: Bootstrap, p: Profile)
    requires WrittenOut(b, p) && Trimmed(p.npm) && p.npm != ""
    ensures Resolve(id, b) == if Reread(p).Ok? then Ok(WithReplay(id, Reread(p).value)) else Reread(p)
  {
    WrittenOutIsRead(id, b, p);
    LabelsAreReread(p);
  }
}
