/** The protocol profile of a provider: how a configuration spells it, and what that resolves to. */
module ProviderProfile {
  import opened Seqs
  import opened ProviderImport

  datatype Result<T, E> = Ok(value: T) | Err(error: E) {
    predicate IsFailure() { Err? }

    function PropagateFailure<U>(): Result<U, E>
      requires Err?
    {
      Err(error)
    }

    function Extract(): T
      requires Ok?
    {
      value
    }
  }

  // ---- Text ----

  /** White space in the sense of Unicode. */
  predicate IsWhite(c: char) {
    || '\t' <= c <= '\r' || c == ' ' || c == '\U{0085}' || c == '\U{00A0}' || c == '\U{1680}'
    || '\U{2000}' <= c <= '\U{200A}' || c == '\U{2028}' || c == '\U{2029}' || c == '\U{202F}'
    || c == '\U{205F}' || c == '\U{3000}'
  }

  function Trim(s: string): string {
    if s != "" && IsWhite(s[0]) then Trim(s[1..])
    else if s != "" && IsWhite(s[|s| - 1]) then Trim(s[..|s| - 1])
    else s
  }

  predicate Trimmed(s: string) {
    s == "" || (!IsWhite(s[0]) && !IsWhite(s[|s| - 1]))
  }

  lemma {:induction false} TrimEffect(s: string)
    ensures Trimmed(Trim(s)) && (Trimmed(s) ==> Trim(s) == s)
  {
    if s != "" && IsWhite(s[0]) {
      TrimEffect(s[1..]);
    } else if s != "" && IsWhite(s[|s| - 1]) {
      TrimEffect(s[..|s| - 1]);
    }
  }

  lemma TrimTwice(s: string)
    ensures Trim(Trim(s)) == Trim(s)
  {
    TrimEffect(s);
    TrimEffect(Trim(s));
  }

  /** A text without outer space, if anything is left of it. */
  function TrimOption(value: Option<string>): Option<string> {
    if value.None? || Trim(value.value) == "" then None else Some(Trim(value.value))
  }

  lemma TrimOptionTwice(value: Option<string>)
    ensures TrimOption(TrimOption(value)) == TrimOption(value)
  {
    if value.Some? {
      TrimTwice(value.value);
    }
  }

  /** Every text without outer space, the blank ones dropped. */
  function TrimAll(values: seq<string>): seq<string> {
    if values == [] then []
    else
      var front, last := TrimAll(values[..|values| - 1]), Trim(values[|values| - 1]);
      if last == "" then front else front + [last]
  }

  predicate AllTrimmed(values: seq<string>) {
    forall v :: v in values ==> v != "" && Trimmed(v)
  }

  lemma {:induction false} TrimAllTrims(values: seq<string>)
    ensures AllTrimmed(TrimAll(values))
  {
    if values != [] {
      TrimAllTrims(values[..|values| - 1]);
      TrimEffect(values[|values| - 1]);
    }
  }

  lemma {:induction false} TrimAllStays(values: seq<string>)
    requires AllTrimmed(values)
    ensures TrimAll(values) == values
  {
    if values != [] {
      var front, last := values[..|values| - 1], values[|values| - 1];
      assert values == front + [last];
      assert last in values;
      assert forall v :: v in front ==> v in values;
      TrimAllStays(front);
      TrimEffect(last);
    }
  }

  function LowerChar(c: char): char {
    if 'A' <= c <= 'Z' then c - 'A' + 'a' else c
  }

  function Lower(s: string): string {
    seq(|s|, i requires 0 <= i < |s| => LowerChar(s[i]))
  }

  function NormalChar(c: char): char {
    if c == '_' then '-' else LowerChar(c)
  }

  /** The reading of a profile value: case, underscores and outer space do not matter. */
  function Normal(value: string): string {
    var s := Trim(value);
    seq(|s|, i requires 0 <= i < |s| => NormalChar(s[i]))
  }

  /** Nothing is left of capitals (nor of underscores, in a profile value), and everything else stays. */
  lemma NoCapitalsLeft(s: string, i: nat)
    requires i < |s|
    ensures |Lower(s)| == |s| && !('A' <= Lower(s)[i] <= 'Z')
    ensures Lower(s)[i] as int - s[i] as int == if 'A' <= s[i] <= 'Z' then 32 else 0
    ensures NormalChar(s[i]) != '_' && (NormalChar(s[i]) == Lower(s)[i] || (s[i] == '_' && NormalChar(s[i]) == '-'))
  {
  }

  predicate Plain(s: string) {
    Trimmed(s) && forall c :: c in s ==> NormalChar(c) == c
  }

  lemma PlainIsNormal(s: string)
    requires Plain(s)
    ensures Normal(s) == s
  {
    TrimEffect(s);
  }

  /** Going through items, each kept where it first occurs. */
  function Insert<T(==)>(items: seq<T>, item: T): seq<T> {
    if item in items then items else items + [item]
  }

  function Deduped<T(==)>(items: seq<T>): seq<T> {
    if items == [] then [] else Insert(Deduped(items[..|items| - 1]), items[|items| - 1])
  }

  lemma {:induction false} DedupedMembers<T>(items: seq<T>, x: T)
    ensures x in Deduped(items) <==> x in items
  {
    if items != [] {
      var front, last := items[..|items| - 1], items[|items| - 1];
      DedupedMembers(front, x);
      assert x in items <==> x in front || x == last;
    }
  }

  lemma {:induction false} DedupedIsDistinct<T>(items: seq<T>)
    ensures Distinct(Deduped(items))
  {
    if items != [] {
      DedupedIsDistinct(items[..|items| - 1]);
    }
  }

  lemma {:induction false} DistinctStays<T>(items: seq<T>)
    requires Distinct(items)
    ensures Deduped(items) == items
  {
    if items != [] {
      var front, last := items[..|items| - 1], items[|items| - 1];
      DistinctStays(front);
      assert last !in front;
    }
  }

  lemma DedupedTwice<T>(items: seq<T>)
    ensures Deduped(Deduped(items)) == Deduped(items)
  {
    DedupedIsDistinct(items);
    DistinctStays(Deduped(items));
  }

  // ---- Profiles ----

  datatype Family = OpenAiFamily | AnthropicFamily
  datatype Shape = ChatCompletions | Responses | Messages
  datatype Transport = Bearer | OAuth
  datatype Usage = CachedTokens | ReadWrite | Unknown
  datatype Cache = OpenAiCache | AnthropicCache | NoCache
  datatype Quirk = NonStreamingSse | RawJsonLines | ThinkingReplay | IgnoresUnknownFields

  /** A profile, without the id of the provider it belongs to. */
  datatype Profile = Profile(
    npm: string, family: Family, shape: Shape, transport: Transport, usage: Usage, cache: Cache, quirks: seq<Quirk>)

  datatype ProfileError =
    | InvalidConfig
    | UnsupportedValue(field: string, value: string)
    | InvalidCombination
    | MissingField(field: string)

  type Resolved = Result<Profile, ProfileError>

  // ---- Labels ----

  function FamilyLabel(f: Family): string {
    if f == OpenAiFamily then "openai-compatible" else "anthropic-compatible"
  }

  function ShapeLabel(s: Shape): string {
    match s
    case ChatCompletions => "chat-completions"
    case Responses => "responses"
    case Messages => "anthropic-messages"
  }

  function TransportLabel(t: Transport): string {
    if t == Bearer then "bearer" else "oauth"
  }

  function UsageLabel(u: Usage): string {
    match u
    case CachedTokens => "openai-cached-tokens"
    case ReadWrite => "anthropic-read-write"
    case Unknown => "unknown"
  }

  function QuirkLabel(q: Quirk): string {
    match q
    case NonStreamingSse => "non-streaming-sse"
    case RawJsonLines => "raw-json-lines"
    case ThinkingReplay => "requires-thinking-replay"
    case IgnoresUnknownFields => "ignores-unknown-fields"
  }

  function QuirkLabels(quirks: seq<Quirk>): seq<string> {
    if quirks == [] then [] else QuirkLabels(quirks[..|quirks| - 1]) + [QuirkLabel(quirks[|quirks| - 1])]
  }

  function ParseFamily(value: string): Result<Family, ProfileError> {
    var v := Normal(value);
    if v == "openai-compatible" then Ok(OpenAiFamily)
    else if v == "anthropic-messages" || v == "anthropic-compatible" then Ok(AnthropicFamily)
    else Err(UnsupportedValue("api_style", value))
  }

  function ParseShape(value: string): Result<Shape, ProfileError> {
    var v := Normal(value);
    if v == "chat-completions" then Ok(ChatCompletions)
    else if v == "responses" then Ok(Responses)
    else if v == "messages" then Ok(Messages)
    else Err(UnsupportedValue("api_shape", value))
  }

  function ParseTransport(value: string): Result<Transport, ProfileError> {
    var v := Normal(value);
    if v == "bearer" then Ok(Bearer)
    else if v == "oauth" then Ok(OAuth)
    else Err(UnsupportedValue("transport", value))
  }

  function ParseUsage(value: string): Result<Usage, ProfileError> {
    var v := Normal(value);
    if v == "openai-cached-tokens" then Ok(CachedTokens)
    else if v == "anthropic-read-write" then Ok(ReadWrite)
    else Err(UnsupportedValue("usage_shape", value))
  }

  function ParseQuirk(value: string): Result<Quirk, ProfileError> {
    var v := Normal(value);
    if v == "non-streaming-sse" then Ok(NonStreamingSse)
    else if v == "raw-json-lines" then Ok(RawJsonLines)
    else if v == "requires-thinking-replay" then Ok(ThinkingReplay)
    else if v == "ignores-unknown-fields" then Ok(IgnoresUnknownFields)
    else Err(UnsupportedValue("quirks", value))
  }

  function ParseQuirks(values: seq<string>): Result<seq<Quirk>, ProfileError> {
    if values == [] then Ok([])
    else
      var front :- ParseQuirks(values[..|values| - 1]);
      var last :- ParseQuirk(values[|values| - 1]);
      Ok(Insert(front, last))
  }

  lemma FamilyReadsBack(f: Family)
    ensures ParseFamily(FamilyLabel(f)) == Ok(f)
  {
    if f == OpenAiFamily { PlainIsNormal("openai-compatible"); } else { PlainIsNormal("anthropic-compatible"); }
  }

  /** The shape of the Anthropic protocol is written "anthropic-messages" and read only as
      "messages". */
  lemma ShapeReadsBackIff(s: Shape)
    ensures ParseShape(ShapeLabel(s)) == if s == Messages then Err(UnsupportedValue("api_shape", ShapeLabel(s))) else Ok(s)
  {
    match s
    case ChatCompletions => PlainIsNormal("chat-completions");
    case Responses => PlainIsNormal("responses");
    case Messages => PlainIsNormal("anthropic-messages");
  }

  lemma TransportReadsBack(t: Transport)
    ensures ParseTransport(TransportLabel(t)) == Ok(t)
  {
    if t == Bearer { PlainIsNormal("bearer"); } else { PlainIsNormal("oauth"); }
  }

  lemma UsageReadsBackIff(u: Usage)
    ensures ParseUsage(UsageLabel(u)) == if u == Unknown then Err(UnsupportedValue("usage_shape", UsageLabel(u))) else Ok(u)
  {
    match u
    case CachedTokens => PlainIsNormal("openai-cached-tokens");
    case ReadWrite =>
      PlainIsNormal("anthropic-read-write");
      assert "anthropic-read-write"[0] != "openai-cached-tokens"[0];
    case Unknown => PlainIsNormal("unknown");
  }

  lemma QuirkLabelIsPlain(q: Quirk)
    ensures QuirkLabel(q) != "" && Plain(QuirkLabel(q))
  {
  }

  lemma QuirkReadsBack(q: Quirk)
    ensures ParseQuirk(QuirkLabel(q)) == Ok(q) && QuirkLabel(q) != "" && Trimmed(QuirkLabel(q))
  {
    QuirkLabelIsPlain(q);
    PlainIsNormal(QuirkLabel(q));
    assert |QuirkLabel(q)| == match q
      case NonStreamingSse => 17 case RawJsonLines => 14 case ThinkingReplay => 24 case IgnoresUnknownFields => 22;
  }

  lemma {:induction false} QuirksReadBack(quirks: seq<Quirk>)
    ensures var labels := QuirkLabels(quirks);
            AllTrimmed(labels) && |labels| == |quirks| && ParseQuirks(labels) == Ok(Deduped(quirks))
  {
    if quirks != [] {
      var front, last := quirks[..|quirks| - 1], quirks[|quirks| - 1];
      QuirksReadBack(front);
      QuirkReadsBack(last);
      assert QuirkLabels(quirks)[..|front|] == QuirkLabels(front);
    }
  }
}
