/** The exchange format for providers: a bundle of entries, each with a full profile.  Exporting
    resolves the profile of a description; importing spells it out again and checks that it
    resolves to what the entry declares. */
module ProviderArtifact {
  import opened Seqs
  import opened ProviderImport
  import opened ProviderProfile
  import opened ProviderResolver

  datatype Entry = Entry(
    id: string, name: Option<string>, baseUrl: Option<string>, env: seq<string>, profile: Profile)

  datatype Error =
    | MissingProviderId
    | MissingProfileField(id: string, field: string)
    | DuplicateProviderId(id: string)
    | UnsupportedNonCoreField(id: string, nonCore: Field)
    | ProfileParityMismatch(id: string)
    | InvalidProfile(error: ProfileError)

  // ---- One entry ----

  function CanonicalId(id: string): Result<string, Error> {
    if Trim(id) == "" then Err(MissingProviderId) else Ok(Trim(id))
  }

  function Sanitized(env: seq<string>): seq<string> {
    Deduped(TrimAll(env))
  }

  predicate Filled<T(==)>(items: Option<seq<T>>) {
    items.Some? && items.value != []
  }

  /** The first field that the format has no place for. */
  function NonCore(b: Bootstrap): Option<Field> {
    if b.options.Some? && b.options.value != map[] then Some(Options)
    else if b.models.Some? && b.models.value != map[] then Some(Models)
    else if Filled(b.whitelist) then Some(Whitelist)
    else if Filled(b.blacklist) then Some(Blacklist)
    else None
  }

  /** An empty field is as good as none. */
  lemma NonCoreIff(b: Bootstrap)
    ensures NonCore(b).None? <==>
              && (b.options.Some? ==> b.options.value == map[]) && (b.models.Some? ==> b.models.value == map[])
              && (b.whitelist.Some? ==> b.whitelist.value == []) && (b.blacklist.Some? ==> b.blacklist.value == [])
  {
  }

  function ExportEntry(id: string, b: Bootstrap): Result<Entry, Error> {
    var key :- CanonicalId(id);
    if NonCore(b).Some? then Err(UnsupportedNonCoreField(key, NonCore(b).value))
    else match Resolve(key, b)
      case Err(error) => Err(InvalidProfile(error))
      case Ok(p) => Ok(Entry(key, TrimOption(b.name), TrimOption(b.api), Sanitized(b.env.GetOr([])), p))
  }

  /** The profile an entry declares. */
  function Declared(e: Entry): Profile {
    e.profile.(npm := Trim(e.profile.npm), quirks := Deduped(e.profile.quirks))
  }

  /** An entry as a description that leaves nothing of its profile open. */
  function Described(e: Entry): Bootstrap {
    var p := e.profile;
    Bootstrap(
      TrimOption(e.name), NonEmpty(Sanitized(e.env)), None, TrimOption(e.baseUrl),
      Some(Trim(p.npm)), Some(FamilyLabel(p.family)), Some(ShapeLabel(p.shape)),
      Some(TransportLabel(p.transport)), Some(UsageLabel(p.usage)), NonEmpty(QuirkLabels(p.quirks)),
      None, None, None, None)
  }

  function ImportEntry(id: string, e: Entry): Result<Bootstrap, Error> {
    if Trim(e.profile.npm) == "" then Err(MissingProfileField(id, "npm"))
    else match Resolve(id, Described(e))
      case Err(error) => Err(InvalidProfile(error))
      case Ok(p) => if p == Declared(e) then Ok(Described(e)) else Err(ProfileParityMismatch(id))
  }

  // ---- What an entry must be like ----

  /** A supported package, a profile that goes together, and not of the Anthropic protocol. */
  predicate Importable(id: string, e: Entry) {
    && Supported(e.profile.npm) && e.profile.family == OpenAiFamily && e.profile.shape != Messages
    && e.profile.usage == CachedTokens && e.profile.cache == OpenAiCache
    && (Named(id, "deepseek") ==> ThinkingReplay in e.profile.quirks)
  }

  lemma SupportedMeans(npm: string)
    ensures Supported(Trim(npm)) == Supported(npm)
    ensures Supported(npm) ==> Trim(npm) != ""
  {
    TrimTwice(npm);
    assert Lower("") == "";
  }

  lemma DescribedIsWrittenOut(e: Entry)
    ensures WrittenOut(Described(e), e.profile.(npm := Trim(e.profile.npm)))
  {
    QuirksReadBack(e.profile.quirks);
  }

  lemma DescribedResolves(id: string, e: Entry)
    requires Trim(e.profile.npm) != ""
    ensures var p := e.profile.(npm := Trim(e.profile.npm));
            Resolve(id, Described(e)) == if Reread(p).Ok? then Ok(WithReplay(id, Reread(p).value)) else Reread(p)
  {
    DescribedIsWrittenOut(e);
    TrimEffect(e.profile.npm);
    WrittenOutResolves(id, Described(e), e.profile.(npm := Trim(e.profile.npm)));
  }

  /** The profiles that are what their own labels are read as. */
  lemma RereadIsSameIff(id: string, p: Profile)
    ensures (Reread(p).Ok? && WithReplay(id, Reread(p).value) == p.(quirks := Deduped(p.quirks)))
        <==> (&& Supported(p.npm) && p.family == OpenAiFamily && p.shape != Messages && p.usage == CachedTokens
              && p.cache == OpenAiCache && (Named(id, "deepseek") ==> ThinkingReplay in Deduped(p.quirks)))
  {
  }

  /** An entry is let in exactly if it is importable; one of the Anthropic protocol never is. */
  lemma ImportEntryIff(id: string, e: Entry)
    ensures ImportEntry(id, e).Ok? <==> Importable(id, e)
  {
    SupportedMeans(e.profile.npm);
    if Trim(e.profile.npm) != "" {
      var p := e.profile.(npm := Trim(e.profile.npm));
      DescribedResolves(id, e);
      RereadIsSameIff(id, p);
      DedupedMembers(p.quirks, ThinkingReplay);
    }
  }

  /** An entry from an Anthropic provider is refused for its shape. */
  lemma AnthropicIsRefused(id: string, e: Entry)
    requires Trim(e.profile.npm) != "" && e.profile.shape == Messages
    ensures ImportEntry(id, e) == Err(InvalidProfile(UnsupportedValue("api_shape", "anthropic-messages")))
  {
    DescribedResolves(id, e);
  }

  // ---- There and back ----

  /** An entry as an export would write it. */
  function Canonical(e: Entry): Entry {
    Entry(Trim(e.id), TrimOption(e.name), TrimOption(e.baseUrl), Sanitized(e.env), Declared(e))
  }

  lemma SanitizedTwice(env: seq<string>)
    ensures Sanitized(Sanitized(env)) == Sanitized(env)
  {
    TrimAllTrims(env);
    var once := TrimAll(env);
    forall v | v in Deduped(once) ensures v in once {
      DedupedMembers(once, v);
    }
    TrimAllStays(Deduped(once));
    DedupedTwice(once);
  }

  /** Exports are canonical. */
  lemma ExportIsCanonical(id: string, b: Bootstrap)
    requires ExportEntry(id, b).Ok?
    ensures var e := ExportEntry(id, b).value;
            Canonical(e) == e && e.id == Trim(id) && e.id != "" && Coherent(e.id, e.profile)
  {
    var e := ExportEntry(id, b).value;
    ResolvedIsCoherent(Trim(id), b);
    TrimTwice(id);
    TrimOptionTwice(b.name);
    TrimOptionTwice(b.api);
    SanitizedTwice(b.env.GetOr([]));
    TrimEffect(e.profile.npm);
    DistinctStays(e.profile.quirks);
  }

  /** What was let in has no key, options, models, lists or empty list of quirks, so that it is
      still itself after it has been put into a configuration. */
  lemma ImportedIsPortable(id: string, e: Entry)
    requires ImportEntry(id, e).Ok?
    ensures Portable(ImportEntry(id, e).value)
  {
  }

  /** An entry let in is exported again as its canonical form, whatever it was merged with. */
  lemma ReexportIsCanonical(e: Entry, existing: Option<Provider>, view: ModelView)
    requires Trim(e.id) != "" && ImportEntry(Trim(e.id), e).Ok?
    ensures var b := ImportEntry(Trim(e.id), e).value;
            ExportEntry(Trim(e.id), ToBootstrap(ToConfig(b, existing), Artifact, view)) == Ok(Canonical(e))
  {
    var b := ImportEntry(Trim(e.id), e).value;
    ImportedIsPortable(Trim(e.id), e);
    ConversionUndoesImport(b, existing, view);
    TrimTwice(e.id);
    TrimOptionTwice(e.name);
    TrimOptionTwice(e.baseUrl);
    SanitizedTwice(e.env);
  }

  /** In use, whatever key it has there, an entry let in has the profile it declares. */
  lemma ImportedProfileIsDeclared(id: string, e: Entry, existing: Option<Provider>, view: ModelView)
    requires ImportEntry(id, e).Ok?
    ensures Resolve(id, ToBootstrap(ToConfig(ImportEntry(id, e).value, existing), Runtime, view)) == Ok(Declared(e))
  {
    var b := ToBootstrap(ToConfig(Described(e), existing), Runtime, view);
    var p := e.profile.(npm := Trim(e.profile.npm));
    DescribedIsWrittenOut(e);
    TrimEffect(e.profile.npm);
    WrittenOutResolves(id, b, p);
    DescribedResolves(id, e);
  }

  // ---- Bundles ----

  /** The entries in the order of the ids, up to the first that cannot be exported. */
  function Exported(configured: Bootstraps, order: seq<string>): Result<seq<Entry>, Error>
    requires forall id :: id in order ==> id in configured
  {
    if order == [] then Ok([])
    else
      var id := order[|order| - 1];
      var front :- Exported(configured, order[..|order| - 1]);
      var last :- ExportEntry(id, configured[id]);
      Ok(front + [last])
  }

  /** Ids that differ in case or outer space only are the same id to a bundle. */
  function KeyOf(id: string): string {
    Lower(Trim(id))
  }

  function Key(e: Entry): string {
    KeyOf(e.id)
  }

  function SeenKeys(entries: seq<Entry>): Result<set<string>, Error> {
    if entries == [] then Ok({})
    else
      var seen :- SeenKeys(entries[..|entries| - 1]);
      var id :- CanonicalId(entries[|entries| - 1].id);
      if Lower(id) in seen then Err(DuplicateProviderId(id)) else Ok(seen + {Lower(id)})
  }

  /** The way one entry is let in, or refused. */
  type Admit = (string, Entry) -> Result<Bootstrap, Error>

  function Gathered(admit: Admit, entries: seq<Entry>): Result<Bootstraps, Error> {
    if entries == [] then Ok(map[])
    else
      var front :- Gathered(admit, entries[..|entries| - 1]);
      var id :- CanonicalId(entries[|entries| - 1].id);
      var b :- admit(id, entries[|entries| - 1]);
      Ok(front[id := b])
  }

  function Imported(entries: seq<Entry>): Result<Bootstraps, Error> {
    var _ :- SeenKeys(entries);
    Gathered(ImportEntry, entries)
  }

  lemma {:induction false} ExportedMeans(configured: Bootstraps, order: seq<string>)
    requires forall id :: id in order ==> id in configured
    ensures Exported(configured, order).Ok? <==> forall id :: id in order ==> ExportEntry(id, configured[id]).Ok?
    ensures Exported(configured, order).Ok? ==>
              var entries := Exported(configured, order).value;
              |entries| == |order| && forall i :: 0 <= i < |order| ==> ExportEntry(order[i], configured[order[i]]) == Ok(entries[i])
  {
    if order != [] {
      var front, last := order[..|order| - 1], order[|order| - 1];
      ExportedMeans(configured, front);
      assert order == front + [last];
    }
  }

  ghost predicate UniqueKeys(entries: seq<Entry>) {
    forall i, j :: 0 <= i < j < |entries| ==> Key(entries[i]) != Key(entries[j])
  }

  ghost predicate AllNamed(entries: seq<Entry>) {
    forall e :: e in entries ==> Trim(e.id) != ""
  }

  lemma {:induction false} SeenKeysIff(entries: seq<Entry>)
    ensures SeenKeys(entries).Ok? <==> AllNamed(entries) && UniqueKeys(entries)
    ensures SeenKeys(entries).Ok? ==> SeenKeys(entries).value == set e | e in entries :: Key(e)
  {
    if entries != [] {
      var front, last := entries[..|entries| - 1], entries[|entries| - 1];
      SeenKeysIff(front);
      assert entries == front + [last];
      assert UniqueKeys(entries) <==> UniqueKeys(front) && forall e :: e in front ==> Key(e) != Key(last) by {
        UniqueNext(front, last);
      }
    }
  }

  lemma UniqueNext(front: seq<Entry>, last: Entry)
    ensures UniqueKeys(front + [last]) <==> UniqueKeys(front) && forall e :: e in front ==> Key(e) != Key(last)
  {
    var entries := front + [last];
    if UniqueKeys(entries) {
      assert forall i :: 0 <= i < |front| ==> entries[i] == front[i];
      assert entries[|front|] == last;
    }
  }

  lemma {:induction false} GatheredIff(admit: Admit, entries: seq<Entry>)
    requires AllNamed(entries)
    ensures Gathered(admit, entries).Ok? <==> forall e :: e in entries ==> admit(Trim(e.id), e).Ok?
  {
    if entries != [] {
      var front, last := entries[..|entries| - 1], entries[|entries| - 1];
      assert entries == front + [last];
      GatheredIff(admit, front);
    }
  }

  ghost predicate Gives(admit: Admit, entries: seq<Entry>, b: Bootstraps) {
    && b.Keys == (set e | e in entries :: Trim(e.id))
    && forall e :: e in entries ==> admit(Trim(e.id), e) == Ok(b[Trim(e.id)])
  }

  lemma GivesNext(admit: Admit, front: seq<Entry>, last: Entry, b: Bootstraps, more: Bootstrap)
    requires Gives(admit, front, b) && admit(Trim(last.id), last) == Ok(more)
    requires forall e :: e in front ==> Key(e) != Key(last)
    ensures Gives(admit, front + [last], b[Trim(last.id) := more])
  {
    assert forall e :: e in front ==> Trim(e.id) != Trim(last.id) by {
      assert forall e :: e in front ==> Key(e) != Key(last);
    }
  }

  lemma {:induction false} GatheredGives(admit: Admit, entries: seq<Entry>)
    requires Gathered(admit, entries).Ok? && UniqueKeys(entries)
    ensures Gives(admit, entries, Gathered(admit, entries).value)
  {
    if entries != [] {
      var front, last := entries[..|entries| - 1], entries[|entries| - 1];
      assert entries == front + [last];
      UniqueNext(front, last);
      GatheredGives(admit, front);
      GivesNext(admit, front, last, Gathered(admit, front).value, admit(Trim(last.id), last).value);
    }
  }

  /** The bundles that can be imported. */
  ghost predicate Acceptable(entries: seq<Entry>) {
    && AllNamed(entries) && UniqueKeys(entries)
    && forall e :: e in entries ==> Importable(Trim(e.id), e)
  }

  /** A bundle is let in exactly if its ids are all there and differ by more than case and space,
      and every entry is importable. */
  lemma ImportedIff(entries: seq<Entry>)
    ensures Imported(entries).Ok? <==> Acceptable(entries)
  {
    SeenKeysIff(entries);
    if SeenKeys(entries).Ok? {
      GatheredIff(ImportEntry, entries);
      forall e | e in entries ensures ImportEntry(Trim(e.id), e).Ok? <==> Importable(Trim(e.id), e) {
        ImportEntryIff(Trim(e.id), e);
      }
    }
  }

  lemma ImportedGives(entries: seq<Entry>)
    requires Imported(entries).Ok?
    ensures Gives(ImportEntry, entries, Imported(entries).value)
  {
    SeenKeysIff(entries);
    GatheredGives(ImportEntry, entries);
  }

  lemma AllPortable(entries: seq<Entry>, id: string)
    requires Imported(entries).Ok? && id in Imported(entries).value
    ensures Portable(Imported(entries).value[id])
  {
    ImportedGives(entries);
    var e :| e in entries && Trim(e.id) == id;
    ImportedIsPortable(id, e);
  }

  // ---- The loops ----

  method SanitizeEnvRefs(env: Option<seq<string>>) returns (sanitized: seq<string>)
    ensures sanitized == Sanitized(env.GetOr([]))
  {
    sanitized := [];
    var values := env.GetOr([]);
    for i := 0 to |values|
      invariant sanitized == Sanitized(values[..i])
    {
      assert values[..i + 1][..i] == values[..i];
      var value := TrimOption(Some(values[i]));
      if value.Some? {
        assert TrimAll(values[..i + 1]) == TrimAll(values[..i]) + [value.value];
        if value.value !in sanitized {
          sanitized := sanitized + [value.value];
        }
      }
    }
    assert values[..|values|] == values;
  }

  method ExportBundle(configured: Bootstraps, order: seq<string>) returns (r: Result<seq<Entry>, Error>)
    requires forall id :: id in order ==> id in configured
    ensures r == Exported(configured, order)
  {
    var entries := [];
    for i := 0 to |order|
      invariant Exported(configured, order[..i]) == Ok(entries)
    {
      assert order[..i + 1][..i] == order[..i];
      var entry := ExportEntry(order[i], configured[order[i]]);
      if entry.Err? {
        ExportStops(configured, order, i + 1);
        return Err(entry.error);
      }
      entries := entries + [entry.value];
    }
    assert order[..|order|] == order;
    return Ok(entries);
  }

  lemma {:induction false} ExportStops(configured: Bootstraps, order: seq<string>, i: nat)
    requires i <= |order| && (forall id :: id in order ==> id in configured)
    requires Exported(configured, order[..i]).Err?
    ensures Exported(configured, order) == Exported(configured, order[..i])
    decreases |order| - i
  {
    if i < |order| {
      assert order[..i + 1][..i] == order[..i];
      ExportStops(configured, order, i + 1);
    } else {
      assert order[..i] == order;
    }
  }

  method ValidateUniqueIds(entries: seq<Entry>) returns (r: Result<set<string>, Error>)
    ensures r == SeenKeys(entries)
  {
    var seen := {};
    for i := 0 to |entries|
      invariant SeenKeys(entries[..i]) == Ok(seen)
    {
      assert entries[..i + 1][..i] == entries[..i];
      var id := CanonicalId(entries[i].id);
      if id.Err? {
        SeenStops(entries, i + 1);
        return Err(id.error);
      }
      if Lower(id.value) in seen {
        SeenStops(entries, i + 1);
        return Err(DuplicateProviderId(id.value));
      }
      seen := seen + {Lower(id.value)};
    }
    assert entries[..|entries|] == entries;
    return Ok(seen);
  }

  lemma {:induction false} SeenStops(entries: seq<Entry>, i: nat)
    requires i <= |entries| && SeenKeys(entries[..i]).Err?
    ensures SeenKeys(entries) == SeenKeys(entries[..i])
    decreases |entries| - i
  {
    if i < |entries| {
      assert entries[..i + 1][..i] == entries[..i];
      SeenStops(entries, i + 1);
    } else {
      assert entries[..i] == entries;
    }
  }

  /** An import gives what the whole bundle describes or the first error, ids before profiles. */
  method ImportBundle(entries: seq<Entry>) returns (r: Result<Bootstraps, Error>)
    ensures r == Imported(entries)
    ensures r.Ok? <==> Acceptable(entries)
  {
    ImportedIff(entries);
    var unique := ValidateUniqueIds(entries);
    if unique.Err? {
      return Err(unique.error);
    }
    var providers: Bootstraps := map[];
    for i := 0 to |entries|
      invariant Gathered(ImportEntry, entries[..i]) == Ok(providers)
    {
      assert entries[..i + 1][..i] == entries[..i];
      var id := CanonicalId(entries[i].id);
      if id.Err? {
        GatheringStops(ImportEntry, entries, i + 1);
        return Err(id.error);
      }
      var b := ImportEntry(id.value, entries[i]);
      if b.Err? {
        GatheringStops(ImportEntry, entries, i + 1);
        return Err(b.error);
      }
      providers := providers[id.value := b.value];
    }
    assert entries[..|entries|] == entries;
    return Ok(providers);
  }

  lemma {:induction false} GatheringStops(admit: Admit, entries: seq<Entry>, i: nat)
    requires i <= |entries| && Gathered(admit, entries[..i]).Err?
    ensures Gathered(admit, entries) == Gathered(admit, entries[..i])
    decreases |entries| - i
  {
    if i < |entries| {
      assert entries[..i + 1][..i] == entries[..i];
      GatheringStops(admit, entries, i + 1);
    } else {
      assert entries[..i] == entries;
    }
  }
}
