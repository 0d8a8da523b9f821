/** Providers going from one project to another: export there, import here.  An import is written
    back only if all of it went through. */
module ProviderExchange {
  import opened Seqs
  import opened ProviderImport
  import opened ProviderProfile
  import opened ProviderResolver
  import opened ProviderArtifact

  // ---- The two commands ----

  /** The bundle of a project, its ids in the order they are sorted in. */
  function BundleOf(source: Providers, sorted: seq<string>, view: ModelView): Result<seq<Entry>, Error>
    requires forall id :: id in sorted ==> id in source
  {
    Exported(Convert(Some(source), Artifact, view), sorted)
  }

  /** The order in which the imported providers are gone through, if the bundle is let in. */
  ghost predicate OrderFor(entries: seq<Entry>, order: seq<string>) {
    Imported(entries).Ok? ==> Lists(order, Imported(entries).value.Keys)
  }

  ghost predicate Accepted(target: Providers, entries: seq<Entry>, order: seq<string>)
    requires OrderFor(entries, order)
  {
    Imported(entries).Ok? && Apply(target, Imported(entries).value, order).refusal.None?
  }

  /** The project as it is on disk after the import. */
  ghost function After(target: Providers, entries: seq<Entry>, order: seq<string>): Providers
    requires OrderFor(entries, order)
  {
    if Accepted(target, entries, order) then Apply(target, Imported(entries).value, order).providers else target
  }

  ghost predicate Open(target: Providers, entries: seq<Entry>) {
    forall e :: e in entries ==> !Blocked(target, Trim(e.id))
  }

  /** An import goes through exactly if the bundle is acceptable and blocked nowhere. */
  lemma AcceptedIff(target: Providers, entries: seq<Entry>, order: seq<string>)
    requires OrderFor(entries, order)
    ensures Accepted(target, entries, order) <==> Acceptable(entries) && Open(target, entries)
  {
    ImportedIff(entries);
    if Acceptable(entries) {
      var b := Imported(entries).value;
      ApplyMerges(target, b, order);
      ImportedGives(entries);
      NothingBlocked(target, entries, b);
    }
  }

  lemma NothingBlocked(target: Providers, entries: seq<Entry>, b: Bootstraps)
    requires b.Keys == set e | e in entries :: Trim(e.id)
    ensures Open(target, entries) <==> forall id :: id in b ==> !Blocked(target, id)
  {
    if Open(target, entries) {
      forall id | id in b ensures !Blocked(target, id) {
        var e :| e in entries && Trim(e.id) == id;
      }
    } else {
      var e :| e in entries && Blocked(target, Trim(e.id));
      assert Trim(e.id) in b;
    }
  }

  /** An import changes a project wholly or not at all: the imported providers are put in and the
      project reads back as it was with them in it, or it stays as it is. */
  lemma WhollyOrNotAtAll(target: Providers, entries: seq<Entry>, order: seq<string>, view: ModelView)
    requires OrderFor(entries, order)
    ensures var next := After(target, entries, order);
            if Acceptable(entries) && Open(target, entries)
            then Imported(entries).Ok?
                 && Convert(Some(next), Artifact, view) == Convert(Some(target), Artifact, view) + Imported(entries).value
            else next == target
  {
    AcceptedIff(target, entries, order);
    if Accepted(target, entries, order) {
      var b := Imported(entries).value;
      ApplyMerges(target, b, order);
      forall id | id in b ensures !Blocked(target, id) && Portable(b[id]) {
        AllPortable(entries, id);
      }
      ImportReadsBack(target, b, order, view);
    }
  }

  /** The providers that came in are exported again as canonical entries; the others as before. */
  lemma ExportsAfter(target: Providers, entries: seq<Entry>, order: seq<string>, view: ModelView, e: Entry)
    requires OrderFor(entries, order) && Acceptable(entries) && Open(target, entries) && e in entries
    ensures var next := After(target, entries, order);
            && Trim(e.id) in next
            && ExportEntry(Trim(e.id), ToBootstrap(next[Trim(e.id)], Artifact, view)) == Ok(Canonical(e))
            && Resolve(Trim(e.id), ToBootstrap(next[Trim(e.id)], Runtime, view)) == Ok(Declared(e))
  {
    AcceptedIff(target, entries, order);
    var b, id := Imported(entries).value, Trim(e.id);
    ApplyMerges(target, b, order);
    ImportedGives(entries);
    ReexportIsCanonical(e, Find(target, id), view);
    ImportedProfileIsDeclared(id, e, Find(target, id), view);
    assert After(target, entries, order)[id] == ToConfig(b[id], Find(target, id));
  }

  // ---- Keys ----

  /** A bundle says nothing of keys: projects that differ in them export the same, or fail the
      same way. */
  lemma KeysDoNotShow(one: Providers, other: Providers, sorted: seq<string>, view: ModelView)
    requires Lists(sorted, one.Keys) && one.Keys == other.Keys
    requires forall id :: id in one ==> one[id].(apiKey := None, id := None) == other[id].(apiKey := None, id := None)
    ensures BundleOf(one, sorted, view) == BundleOf(other, sorted, view)
  {
    forall id | id in one ensures ToBootstrap(one[id], Artifact, view) == ToBootstrap(other[id], Artifact, view) {
      assert one[id].(apiKey := None, id := None) == other[id].(apiKey := None, id := None);
    }
    assert Convert(Some(one), Artifact, view) == Convert(Some(other), Artifact, view);
  }

  /** Whatever is imported, and whether or not it goes through, a project keeps its own keys and
      gets none. */
  lemma KeysStayHome(target: Providers, entries: seq<Entry>, order: seq<string>, id: string)
    requires OrderFor(entries, order)
    ensures var next := After(target, entries, order);
            && (id in target ==> id in next && next[id].apiKey == target[id].apiKey && next[id].id == target[id].id)
            && (id in next && id !in target ==> next[id].apiKey == None && next[id].id == None)
  {
    if Accepted(target, entries, order) {
      ImportKeeps(target, Imported(entries).value, order, id);
    }
  }

  // ---- What travels ----

  /** Export refuses what an import would refuse to overwrite, for the same reason. */
  lemma NonCoreIsObstacle(p: Provider, view: ModelView)
    ensures NonCore(ToBootstrap(p, Artifact, view)) == Obstacle(Some(p))
  {
    if p.models.Some? && p.models.value != map[] {
      var id :| id in p.models.value;
      assert id in ToBootstrap(p, Artifact, view).models.value;
    }
  }

  predicate Exportable(id: string, p: Provider, view: ModelView) {
    && Trim(id) != "" && Obstacle(Some(p)).None?
    && Resolvable(Trim(id), ToBootstrap(p, Artifact, view))
  }

  /** A provider is exported exactly if it has an id, nothing the format has no place for, and a
      profile that resolves without a key; the entry can be imported exactly if the profile is
      not that of the Anthropic protocol. */
  lemma ExportEntryIff(id: string, p: Provider, view: ModelView)
    ensures var b := ToBootstrap(p, Artifact, view);
            && (ExportEntry(id, b).Ok? <==> Exportable(id, p, view))
            && (ExportEntry(id, b).Ok? ==>
                  var e := ExportEntry(id, b).value;
                  Trim(e.id) == Trim(id) && Canonical(e) == e && (Importable(Trim(id), e) <==> !SpeaksAnthropic(Trim(id), b)))
  {
    var b := ToBootstrap(p, Artifact, view);
    NonCoreIsObstacle(p, view);
    ResolvesIff(Trim(id), b);
    if ExportEntry(id, b).Ok? {
      ExportIsCanonical(id, b);
      SpeaksAnthropicIff(Trim(id), b);
    }
  }

  /** Can be exported, and imported where nothing blocks it. */
  predicate Mobile(id: string, p: Provider, view: ModelView) {
    Exportable(id, p, view) && !SpeaksAnthropic(Trim(id), ToBootstrap(p, Artifact, view))
  }

  predicate KeysDiffer(source: Providers) {
    forall id, other :: id in source && other in source && KeyOf(id) == KeyOf(other) ==> id == other
  }

  /** Every provider is mobile and blocked nowhere, and the ids differ by more than case and
      space. */
  predicate Travels(source: Providers, target: Providers, view: ModelView) {
    && (forall id :: id in source ==> Mobile(id, source[id], view) && !Blocked(target, Trim(id)))
    && KeysDiffer(source)
  }

  /** What of a bundle matters here: its entries are those of the providers, one by one. */
  ghost predicate From(entries: seq<Entry>, source: Providers, sorted: seq<string>, view: ModelView) {
    && |entries| == |sorted|
    && forall i :: 0 <= i < |sorted| ==>
         (sorted[i] in source && ExportEntry(sorted[i], ToBootstrap(source[sorted[i]], Artifact, view)) == Ok(entries[i]))
  }

  lemma BundleIsFrom(source: Providers, sorted: seq<string>, view: ModelView)
    requires Lists(sorted, source.Keys)
    ensures BundleOf(source, sorted, view).Ok? <==> forall id :: id in source ==> Exportable(id, source[id], view)
    ensures BundleOf(source, sorted, view).Ok? ==> From(BundleOf(source, sorted, view).value, source, sorted, view)
  {
    var b := Convert(Some(source), Artifact, view);
    ExportedMeans(b, sorted);
    forall id | id in source ensures ExportEntry(id, b[id]).Ok? <==> Exportable(id, source[id], view) {
      ExportEntryIff(id, source[id], view);
    }
  }

  lemma FromKeys(entries: seq<Entry>, source: Providers, sorted: seq<string>, view: ModelView, i: nat)
    requires From(entries, source, sorted, view) && i < |sorted|
    ensures Trim(entries[i].id) == Trim(sorted[i]) != "" && Canonical(entries[i]) == entries[i]
    ensures Importable(Trim(sorted[i]), entries[i]) <==> Mobile(sorted[i], source[sorted[i]], view)
  {
    ExportEntryIff(sorted[i], source[sorted[i]], view);
  }

  lemma InjectiveIff(ids: seq<string>, keys: seq<string>, key: string -> string)
    requires |keys| == |ids| && Distinct(ids) && forall i :: 0 <= i < |ids| ==> keys[i] == key(ids[i])
    ensures Distinct(keys) <==> forall id, other :: id in ids && other in ids && key(id) == key(other) ==> id == other
  {
    if Distinct(keys) {
      forall id, other | id in ids && other in ids && key(id) == key(other) ensures id == other {
        var i :| 0 <= i < |ids| && ids[i] == id;
        var j :| 0 <= j < |ids| && ids[j] == other;
        assert keys[i] == keys[j];
      }
    }
  }

  function Keys(entries: seq<Entry>): seq<string> {
    seq(|entries|, i requires 0 <= i < |entries| => Key(entries[i]))
  }

  lemma UniqueIff(entries: seq<Entry>, source: Providers, sorted: seq<string>, view: ModelView)
    requires Lists(sorted, source.Keys) && From(entries, source, sorted, view)
    ensures UniqueKeys(entries) <==> KeysDiffer(source)
  {
    forall i | 0 <= i < |sorted| ensures Keys(entries)[i] == KeyOf(sorted[i]) {
      FromKeys(entries, source, sorted, view, i);
    }
    InjectiveIff(sorted, Keys(entries), KeyOf);
    assert UniqueKeys(entries) <==> Distinct(Keys(entries)) by {
      assert forall i :: 0 <= i < |entries| ==> Keys(entries)[i] == Key(entries[i]);
    }
  }

  lemma AcceptableTravels(entries: seq<Entry>, source: Providers, sorted: seq<string>, target: Providers, view: ModelView)
    requires Lists(sorted, source.Keys) && From(entries, source, sorted, view)
    requires Acceptable(entries) && Open(target, entries)
    ensures Travels(source, target, view)
  {
    UniqueIff(entries, source, sorted, view);
    forall id | id in source ensures Mobile(id, source[id], view) && !Blocked(target, Trim(id)) {
      var i :| 0 <= i < |sorted| && sorted[i] == id;
      FromKeys(entries, source, sorted, view, i);
      assert entries[i] in entries;
    }
  }

  lemma TravellersAreAcceptable(entries: seq<Entry>, source: Providers, sorted: seq<string>, target: Providers, view: ModelView)
    requires Lists(sorted, source.Keys) && From(entries, source, sorted, view)
    requires Travels(source, target, view)
    ensures Acceptable(entries) && Open(target, entries)
  {
    UniqueIff(entries, source, sorted, view);
    forall e | e in entries ensures Trim(e.id) != "" && Importable(Trim(e.id), e) && !Blocked(target, Trim(e.id)) {
      var i :| 0 <= i < |entries| && entries[i] == e;
      FromKeys(entries, source, sorted, view, i);
      assert Mobile(sorted[i], source[sorted[i]], view);
    }
  }

  /** What one project exports another takes in exactly if it travels. */
  lemma TravelsIff(source: Providers, sorted: seq<string>, target: Providers, order: seq<string>, view: ModelView)
    requires Lists(sorted, source.Keys)
    requires var r := BundleOf(source, sorted, view); r.Ok? ==> OrderFor(r.value, order)
    ensures var r := BundleOf(source, sorted, view);
            (r.Ok? && Accepted(target, r.value, order)) <==> Travels(source, target, view)
  {
    BundleIsFrom(source, sorted, view);
    var r := BundleOf(source, sorted, view);
    if r.Ok? {
      AcceptedIff(target, r.value, order);
      if Accepted(target, r.value, order) {
        AcceptableTravels(r.value, source, sorted, target, view);
      }
      if Travels(source, target, view) {
        TravellersAreAcceptable(r.value, source, sorted, target, view);
      }
    } else {
      var id :| id in source && !Exportable(id, source[id], view);
      assert !Mobile(id, source[id], view);
    }
  }

  /** What has travelled is in the other project under its trimmed id, exports as the same entry
      as at home, and has there the profile that it is exported with. */
  lemma ArrivesWhole(
    source: Providers, sorted: seq<string>, target: Providers, order: seq<string>, view: ModelView, id: string)
    requires Lists(sorted, source.Keys) && Travels(source, target, view) && id in source
    requires var r := BundleOf(source, sorted, view); r.Ok? ==> OrderFor(r.value, order)
    ensures var r := BundleOf(source, sorted, view);
            r.Ok? &&
            var next, home := After(target, r.value, order), ExportEntry(id, ToBootstrap(source[id], Artifact, view));
            && Trim(id) in next
            && home.Ok? && ExportEntry(Trim(id), ToBootstrap(next[Trim(id)], Artifact, view)) == home
            && Resolve(Trim(id), ToBootstrap(next[Trim(id)], Runtime, view)) == Ok(home.value.profile)
  {
    TravellersExport(source, sorted, target, view);
    var entries := BundleOf(source, sorted, view).value;
    var i :| 0 <= i < |sorted| && sorted[i] == id;
    FromKeys(entries, source, sorted, view, i);
    ExportsAfter(target, entries, order, view, entries[i]);
  }

  lemma TravellersExport(source: Providers, sorted: seq<string>, target: Providers, view: ModelView)
    requires Lists(sorted, source.Keys) && Travels(source, target, view)
    ensures var r := BundleOf(source, sorted, view);
            r.Ok? && From(r.value, source, sorted, view) && Acceptable(r.value) && Open(target, r.value)
  {
    assert forall id :: id in source ==> Mobile(id, source[id], view);
    BundleIsFrom(source, sorted, view);
    TravellersAreAcceptable(BundleOf(source, sorted, view).value, source, sorted, target, view);
  }

  /** A project whose ids are trimmed, sent to an empty one, is exported from there as the very
      same bundle. */
  lemma SameBundle(source: Providers, sorted: seq<string>, order: seq<string>, view: ModelView)
    requires Lists(sorted, source.Keys) && Travels(source, map[], view) && (forall id :: id in source ==> Trim(id) == id)
    requires var r := BundleOf(source, sorted, view); r.Ok? ==> OrderFor(r.value, order)
    ensures var r := BundleOf(source, sorted, view);
            r.Ok? && After(map[], r.value, order).Keys == source.Keys
            && BundleOf(After(map[], r.value, order), sorted, view) == r
  {
    TravellersExport(source, sorted, map[], view);
    var entries := BundleOf(source, sorted, view).value;
    SameKeys(entries, source, sorted, order, view);
    FromAfter(entries, source, sorted, order, view);
    FromIsBundle(entries, After(map[], entries, order), sorted, view);
  }

  lemma SameKeys(entries: seq<Entry>, source: Providers, sorted: seq<string>, order: seq<string>, view: ModelView)
    requires Lists(sorted, source.Keys) && From(entries, source, sorted, view) && OrderFor(entries, order)
    requires Acceptable(entries) && Open(map[], entries) && forall id :: id in source ==> Trim(id) == id
    ensures After(map[], entries, order).Keys == source.Keys
  {
    KeysAfter(map[], entries, order);
    SameIds(entries, source, sorted, view);
  }

  lemma FromAfter(entries: seq<Entry>, source: Providers, sorted: seq<string>, order: seq<string>, view: ModelView)
    requires Lists(sorted, source.Keys) && Travels(source, map[], view) && forall id :: id in source ==> Trim(id) == id
    requires BundleOf(source, sorted, view) == Ok(entries) && OrderFor(entries, order)
    requires From(entries, source, sorted, view)
    ensures From(entries, After(map[], entries, order), sorted, view)
  {
    var next := After(map[], entries, order);
    forall i | 0 <= i < |sorted|
      ensures sorted[i] in next && ExportEntry(sorted[i], ToBootstrap(next[sorted[i]], Artifact, view)) == Ok(entries[i])
    {
      ArrivesWhole(source, sorted, map[], order, view, sorted[i]);
    }
  }

  lemma KeysAfter(target: Providers, entries: seq<Entry>, order: seq<string>)
    requires OrderFor(entries, order) && Acceptable(entries) && Open(target, entries)
    ensures After(target, entries, order).Keys == target.Keys + set e | e in entries :: Trim(e.id)
  {
    AcceptedIff(target, entries, order);
    ApplyMerges(target, Imported(entries).value, order);
    ImportedGives(entries);
  }

  lemma SameIds(entries: seq<Entry>, source: Providers, sorted: seq<string>, view: ModelView)
    requires Lists(sorted, source.Keys) && From(entries, source, sorted, view)
    requires forall id :: id in source ==> Trim(id) == id
    ensures (set e | e in entries :: Trim(e.id)) == source.Keys
  {
    forall i | 0 <= i < |sorted| ensures Trim(entries[i].id) == sorted[i] {
      FromKeys(entries, source, sorted, view, i);
    }
    forall id | id in source ensures exists e :: e in entries && Trim(e.id) == id {
      var i :| 0 <= i < |sorted| && sorted[i] == id;
      assert entries[i] in entries;
    }
  }

  lemma FromIsBundle(entries: seq<Entry>, source: Providers, sorted: seq<string>, view: ModelView)
    requires From(entries, source, sorted, view) && forall id :: id in sorted ==> id in source
    ensures BundleOf(source, sorted, view) == Ok(entries)
  {
    var b := Convert(Some(source), Artifact, view);
    ExportedMeans(b, sorted);
    assert Exported(b, sorted).value == entries;
  }

  /** After an import the whole project can be exported again exactly if what it had besides the
      imported providers can. */
  lemma ExportableAfterIff(
    target: Providers, entries: seq<Entry>, order: seq<string>, sorted: seq<string>, view: ModelView)
    requires OrderFor(entries, order) && Acceptable(entries) && Open(target, entries)
    requires Lists(sorted, After(target, entries, order).Keys)
    ensures BundleOf(After(target, entries, order), sorted, view).Ok?
        <==> forall id :: id in target && (forall e :: e in entries ==> Trim(e.id) != id) ==> Exportable(id, target[id], view)
  {
    var next := After(target, entries, order);
    BundleIsFrom(next, sorted, view);
    KeysAfter(target, entries, order);
    forall e | e in entries ensures Exportable(Trim(e.id), next[Trim(e.id)], view) {
      ExportsAfter(target, entries, order, view, e);
      ExportEntryIff(Trim(e.id), next[Trim(e.id)], view);
    }
    forall id | id in target && (forall e :: e in entries ==> Trim(e.id) != id) ensures id in next && next[id] == target[id] {
      OthersStay(target, entries, order, id);
    }
  }

  lemma OthersStay(target: Providers, entries: seq<Entry>, order: seq<string>, id: string)
    requires OrderFor(entries, order) && Acceptable(entries) && Open(target, entries)
    requires forall e :: e in entries ==> Trim(e.id) != id
    ensures Find(After(target, entries, order), id) == Find(target, id)
  {
    AcceptedIff(target, entries, order);
    ImportedGives(entries);
    assert id !in Imported(entries).value;
    ImportKeeps(target, Imported(entries).value, order, id);
  }

  // ---- What does not ----

  const BARE := Provider(None, None, None, None, None, None, None, None, None, None, None, [], None, [], [])
  const HOME: Providers := map["anthropic" := BARE]

  lemma BareAnthropic(view: ModelView)
    ensures var r := ExportEntry("anthropic", ToBootstrap(BARE, Artifact, view));
            r.Ok? && r.value.profile.shape == Messages && Trim(r.value.id) != "" && Trim(r.value.profile.npm) != ""
  {
    LowerPlain("anthropic");
    TrimEffect("anthropic");
    NpmNamesAreSupported();
    LowerPlain(ANTHROPIC_NPM);
  }

  lemma BundleOfOne(id: string, p: Provider, view: ModelView)
    ensures var r := ExportEntry(id, ToBootstrap(p, Artifact, view));
            r.Ok? ==> BundleOf(map[id := p], [id], view) == Ok([r.value])
  {
    var r := ExportEntry(id, ToBootstrap(p, Artifact, view));
    if r.Ok? {
      FromIsBundle([r.value], map[id := p], [id], view);
    }
  }

  lemma OneRefused(e: Entry)
    requires Trim(e.id) != "" && ImportEntry(Trim(e.id), e).Err?
    ensures Imported([e]) == Err(ImportEntry(Trim(e.id), e).error)
  {
    assert [e][..0] == [] && SeenKeys([]) == Ok({}) && Gathered(ImportEntry, []) == Ok(map[]);
  }

  /** The built-in Anthropic provider is exported and cannot be imported anywhere. */
  lemma AnthropicStaysHome(view: ModelView, target: Providers)
    ensures var r := BundleOf(HOME, ["anthropic"], view);
            r.Ok? && Imported(r.value) == Err(InvalidProfile(UnsupportedValue("api_shape", "anthropic-messages")))
    ensures !Travels(HOME, target, view)
  {
    BareAnthropic(view);
    var e := ExportEntry("anthropic", ToBootstrap(BARE, Artifact, view)).value;
    BundleOfOne("anthropic", BARE, view);
    AnthropicIsRefused(Trim(e.id), e);
    OneRefused(e);
    if Travels(HOME, target, view) {
      TravellersExport(HOME, ["anthropic"], target, view);
      ImportedIff([e]);
    }
  }
}
