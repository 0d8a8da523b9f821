/** Importing provider descriptions into a configuration, and turning a configuration back into
    provider descriptions. */
module ProviderImport {
  import opened Seqs

  // ---- A provider as configured, and as exchanged ----

  datatype Provider = Provider(
    name: Option<string>, id: Option<string>, apiKey: Option<string>, baseUrl: Option<string>,
    models: Option<map<string, string>>, options: Option<map<string, string>>,
    npm: Option<string>, apiStyle: Option<string>, apiShape: Option<string>,
    transport: Option<string>, usageShape: Option<string>,
    quirks: seq<string>, env: Option<seq<string>>, whitelist: seq<string>, blacklist: seq<string>)

  datatype Bootstrap = Bootstrap(
    name: Option<string>, env: Option<seq<string>>, apiKey: Option<string>, api: Option<string>,
    npm: Option<string>, apiStyle: Option<string>, apiShape: Option<string>,
    transport: Option<string>, usageShape: Option<string>, quirks: Option<seq<string>>,
    options: Option<map<string, string>>, models: Option<map<string, string>>,
    blacklist: Option<seq<string>>, whitelist: Option<seq<string>>)

  type Providers = map<string, Provider>
  type Bootstraps = map<string, Bootstrap>

  /** How one model is converted, given the name it has in its provider. */
  type ModelView = (string, string) -> string

  // ---- Import ----

  datatype Field = Options | Models | Whitelist | Blacklist
  datatype Refusal = Refusal(id: string, field: Field)

  /** The first field of an existing provider that an import would lose. */
  function Obstacle(existing: Option<Provider>): Option<Field> {
    if existing.None? then None
    else
      var p := existing.value;
      if p.options.Some? && p.options.value != map[] then Some(Options)
      else if p.models.Some? && p.models.value != map[] then Some(Models)
      else if p.whitelist != [] then Some(Whitelist)
      else if p.blacklist != [] then Some(Blacklist)
      else None
  }

  function Find<T>(m: map<string, T>, id: string): Option<T> {
    if id in m then Some(m[id]) else None
  }

  function ToConfig(imported: Bootstrap, existing: Option<Provider>): Provider {
    Provider(
      imported.name, if existing.Some? then existing.value.id else None,
      if existing.Some? then existing.value.apiKey else None, imported.api, None, None,
      imported.npm, imported.apiStyle, imported.apiShape, imported.transport, imported.usageShape,
      imported.quirks.GetOr([]), imported.env, [], [])
  }

  /** The providers with some of the imported ones put in. */
  function Merged(providers: Providers, imported: Bootstraps, ids: set<string>): Providers
    requires ids <= imported.Keys
  {
    map id | id in providers.Keys + ids ::
      if id in ids then ToConfig(imported[id], Find(providers, id)) else providers[id]
  }

  predicate Distinct<T(==)>(order: seq<T>) {
    forall i, j :: 0 <= i < j < |order| ==> order[i] != order[j]
  }

  /** The order in which a hash map is gone through: every key once. */
  ghost predicate Lists(order: seq<string>, keys: set<string>) {
    (forall id :: id in order <==> id in keys) && Distinct(order)
  }

  predicate Blocked(providers: Providers, id: string) {
    Obstacle(Find(providers, id)).Some?
  }

  datatype Outcome = Outcome(providers: Providers, refusal: Option<Refusal>)

  /** One provider put in, or the import stopped. */
  function ApplyOne(o: Outcome, imported: Bootstraps, id: string): Outcome
    requires id in imported
  {
    var existing := Find(o.providers, id);
    if o.refusal.Some? then o
    else if Obstacle(existing).Some? then o.(refusal := Some(Refusal(id, Obstacle(existing).value)))
    else o.(providers := o.providers[id := ToConfig(imported[id], existing)])
  }

  /** The import as one goes through the imported providers in some order. */
  function Apply(providers: Providers, imported: Bootstraps, order: seq<string>): Outcome
    requires forall id :: id in order ==> id in imported
  {
    if order == [] then Outcome(providers, None)
    else ApplyOne(Apply(providers, imported, order[..|order| - 1]), imported, order[|order| - 1])
  }

  lemma ApplyNext(providers: Providers, imported: Bootstraps, order: seq<string>, i: nat)
    requires i < |order| && forall id :: id in order ==> id in imported
    ensures Apply(providers, imported, order[..i + 1]) == ApplyOne(Apply(providers, imported, order[..i]), imported, order[i])
  {
    assert order[..i + 1][..i] == order[..i];
  }

  lemma {:induction false} RefusalStays(providers: Providers, imported: Bootstraps, order: seq<string>, i: nat)
    requires i <= |order| && (forall id :: id in order ==> id in imported)
    requires Apply(providers, imported, order[..i]).refusal.Some?
    ensures Apply(providers, imported, order) == Apply(providers, imported, order[..i])
    decreases |order| - i
  {
    if i < |order| {
      ApplyNext(providers, imported, order, i);
      RefusalStays(providers, imported, order, i + 1);
    } else {
      assert order[..i] == order;
    }
  }

  function Among(order: seq<string>): set<string> {
    set id | id in order
  }

  /** The refused provider is the first unsafe one, and just those before it are merged. */
  ghost predicate StoppedAt(
    start: Providers, imported: Bootstraps, order: seq<string>, refusal: Refusal, next: Providers)
  {
    exists i | 0 <= i < |order| ::
      && order[i] == refusal.id && Obstacle(Find(start, order[i])) == Some(refusal.field)
      && (forall id :: id in order[..i] ==> id in imported && !Blocked(start, id))
      && next == Merged(start, imported, Among(order[..i]))
  }

  lemma MergedNext(providers: Providers, imported: Bootstraps, done: set<string>, id: string)
    requires done <= imported.Keys && id in imported && id !in done
    ensures Merged(providers, imported, done + {id})
         == Merged(providers, imported, done)[id := ToConfig(imported[id], Find(providers, id))]
  {
  }

  lemma StopsHere(start: Providers, imported: Bootstraps, front: seq<string>, last: string, next: Providers)
    requires Blocked(start, last) && (forall id :: id in front ==> id in imported && !Blocked(start, id))
    requires next == Merged(start, imported, Among(front))
    ensures StoppedAt(start, imported, front + [last], Refusal(last, Obstacle(Find(start, last)).value), next)
  {
    var more := front + [last];
    assert more[..|front|] == front && more[|front|] == last;
  }

  lemma StoppedLonger(
    start: Providers, imported: Bootstraps, order: seq<string>, last: string, refusal: Refusal, next: Providers)
    requires StoppedAt(start, imported, order, refusal, next)
    ensures StoppedAt(start, imported, order + [last], refusal, next)
  {
    var i :| 0 <= i < |order| && order[i] == refusal.id && Obstacle(Find(start, order[i])) == Some(refusal.field)
      && (forall id :: id in order[..i] ==> id in imported && !Blocked(start, id))
      && next == Merged(start, imported, Among(order[..i]));
    var more := order + [last];
    assert more[..i] == order[..i] && more[i] == order[i];
  }

  /** All merged and none unsafe, or stopped at the first unsafe one. */
  ghost predicate Effect(start: Providers, imported: Bootstraps, order: seq<string>, o: Outcome)
    requires forall id :: id in order ==> id in imported
  {
    if o.refusal.Some? then StoppedAt(start, imported, order, o.refusal.value, o.providers)
    else (forall id :: id in order ==> !Blocked(start, id)) && o.providers == Merged(start, imported, Among(order))
  }

  lemma EffectOneMore(start: Providers, imported: Bootstraps, front: seq<string>, last: string, o: Outcome)
    requires (forall id :: id in front ==> id in imported) && last in imported && last !in front
    requires Effect(start, imported, front, o)
    ensures Effect(start, imported, front + [last], ApplyOne(o, imported, last))
  {
    if o.refusal.Some? {
      StoppedLonger(start, imported, front, last, o.refusal.value, o.providers);
    } else {
      assert Find(o.providers, last) == Find(start, last);
      if Blocked(start, last) {
        StopsHere(start, imported, front, last, o.providers);
      } else {
        assert Among(front + [last]) == Among(front) + {last};
        MergedNext(start, imported, Among(front), last);
      }
    }
  }

  /** Going through distinct providers merges them all, or stops at the first unsafe one. */
  lemma {:induction false} ApplyEffect(start: Providers, imported: Bootstraps, order: seq<string>)
    requires Distinct(order) && forall id :: id in order ==> id in imported
    ensures Effect(start, imported, order, Apply(start, imported, order))
  {
    if order == [] {
      assert Merged(start, imported, {}) == start;
    } else {
      var front, last := order[..|order| - 1], order[|order| - 1];
      ApplyEffect(start, imported, front);
      assert order == front + [last];
      EffectOneMore(start, imported, front, last, Apply(start, imported, front));
    }
  }

  lemma ApplyMerges(start: Providers, imported: Bootstraps, order: seq<string>)
    requires Lists(order, imported.Keys)
    ensures var o := Apply(start, imported, order);
            && (o.refusal.None? <==> forall id :: id in imported ==> !Blocked(start, id))
            && (o.refusal.None? ==> o.providers == Merged(start, imported, imported.Keys))
            && (o.refusal.Some? ==> StoppedAt(start, imported, order, o.refusal.value, o.providers))
  {
    ApplyEffect(start, imported, order);
    var o := Apply(start, imported, order);
    assert Among(order) == imported.Keys;
    if o.refusal.Some? {
      var i :| 0 <= i < |order| && order[i] == o.refusal.value.id
        && Obstacle(Find(start, order[i])) == Some(o.refusal.value.field)
        && (forall id :: id in order[..i] ==> id in imported && !Blocked(start, id))
        && o.providers == Merged(start, imported, Among(order[..i]));
      assert order[i] in imported && Blocked(start, order[i]);
    }
  }

  class Config {
    var provider: Option<Providers>

    constructor (provider: Option<Providers>)
      ensures this.provider == provider
    {
      this.provider := provider;
    }

    /** An import stops at the first provider it cannot merge safely, with those before it
        merged; if there is none, all are merged, whatever the order. */
    method ApplyImported(imported: Bootstraps, order: seq<string>) returns (refusal: Option<Refusal>)
      requires Lists(order, imported.Keys)
      modifies this
      ensures provider.Some?
      ensures var start := old(provider).GetOr(map[]);
              && Outcome(provider.value, refusal) == Apply(start, imported, order)
              && (refusal.None? <==> forall id :: id in imported ==> !Blocked(start, id))
              && (refusal.None? ==> provider.value == Merged(start, imported, imported.Keys))
              && (refusal.Some? ==> StoppedAt(start, imported, order, refusal.value, provider.value))
    {
      if provider.None? {
        provider := Some(map[]);
      }
      ghost var start := provider.value;
      refusal := None;
      for i := 0 to |order|
        invariant provider.Some? && refusal == None
        invariant Outcome(provider.value, None) == Apply(start, imported, order[..i])
      {
        var id := order[i];
        var existing := Find(provider.value, id);
        ApplyNext(start, imported, order, i);
        var obstacle := Obstacle(existing);
        if obstacle.Some? {
          refusal := Some(Refusal(id, obstacle.value));
          RefusalStays(start, imported, order, i + 1);
          break;
        }
        provider := Some(provider.value[id := ToConfig(imported[id], existing)]);
      }
      assert order[..|order|] == order;
      ApplyMerges(start, imported, order);
    }
  }

  /** Merging the same again changes nothing. */
  lemma MergedTwice(providers: Providers, imported: Bootstraps)
    ensures var next := Merged(providers, imported, imported.Keys);
            && Merged(next, imported, imported.Keys) == next
            && forall id :: id in imported ==> !Blocked(next, id)
  {
    var next := Merged(providers, imported, imported.Keys);
    forall id | id in imported ensures Merged(next, imported, imported.Keys)[id] == next[id] {
      assert Find(next, id) == Some(next[id]);
    }
  }

  /** Whether an import succeeds, and what it then gives, does not depend on the order. */
  lemma OrderDoesNotMatter(start: Providers, imported: Bootstraps, one: seq<string>, other: seq<string>)
    requires Lists(one, imported.Keys) && Lists(other, imported.Keys)
    ensures var a, b := Apply(start, imported, one), Apply(start, imported, other);
            a.refusal.None? == b.refusal.None? && (a.refusal.None? ==> a == b)
  {
    ApplyMerges(start, imported, one);
    ApplyMerges(start, imported, other);
  }

  /** A second import of the same providers is never refused and changes nothing. */
  lemma ApplyTwice(start: Providers, imported: Bootstraps, one: seq<string>, other: seq<string>)
    requires Lists(one, imported.Keys) && Lists(other, imported.Keys)
    ensures var a := Apply(start, imported, one);
            a.refusal.None? ==> Apply(a.providers, imported, other) == a
  {
    var next := Merged(start, imported, imported.Keys);
    ApplyMerges(start, imported, one);
    ApplyMerges(next, imported, other);
    MergedTwice(start, imported);
  }

  // ---- What an import does ----

  /** A refusal means that an existing provider with one of the imported names has options,
      models or lists of its own. */
  lemma BlockedMeans(providers: Providers, id: string)
    ensures Blocked(providers, id) <==>
              id in providers
              && (|| (providers[id].options.Some? && |providers[id].options.value| > 0)
                  || (providers[id].models.Some? && |providers[id].models.value| > 0)
                  || |providers[id].whitelist| > 0 || |providers[id].blacklist| > 0)
  {
    if id in providers {
      var p := providers[id];
      assert p.options.Some? ==> (p.options.value == map[] <==> |p.options.value| == 0);
      assert p.models.Some? ==> (p.models.value == map[] <==> |p.models.value| == 0);
    }
  }

  /** Stopped or not, an import leaves some of the imported providers merged. */
  lemma ApplyMergesSome(start: Providers, imported: Bootstraps, order: seq<string>) returns (ids: set<string>)
    requires Lists(order, imported.Keys)
    ensures ids <= imported.Keys && Apply(start, imported, order).providers == Merged(start, imported, ids)
  {
    ApplyMerges(start, imported, order);
    var o := Apply(start, imported, order);
    ids := imported.Keys;
    if o.refusal.Some? {
      var i :| 0 <= i < |order| && order[i] == o.refusal.value.id
        && Obstacle(Find(start, order[i])) == Some(o.refusal.value.field)
        && (forall id :: id in order[..i] ==> id in imported && !Blocked(start, id))
        && o.providers == Merged(start, imported, Among(order[..i]));
      ids := Among(order[..i]);
    }
  }

  /** Stopped or not, an import changes only imported providers, and these keep their key and
      their id. */
  lemma ImportKeeps(start: Providers, imported: Bootstraps, order: seq<string>, id: string)
    requires Lists(order, imported.Keys)
    ensures var next := Apply(start, imported, order).providers;
            && (id !in imported ==> Find(next, id) == Find(start, id))
            && (id in start ==> id in next && next[id].apiKey == start[id].apiKey && next[id].id == start[id].id)
            && (id in next && id !in start ==> next[id].apiKey == None && next[id].id == None)
  {
    var ids := ApplyMergesSome(start, imported, order);
  }

  // ---- Conversion ----

  datatype Mode = Runtime | Artifact

  function NonEmpty<T(==)>(items: seq<T>): Option<seq<T>> {
    if items == [] then None else Some(items)
  }

  function ToBootstrap(p: Provider, mode: Mode, view: ModelView): Bootstrap {
    var options := p.options.GetOr(map[]);
    Bootstrap(
      p.name, p.env, if mode == Runtime then p.apiKey else None, p.baseUrl,
      p.npm, p.apiStyle, p.apiShape, p.transport, p.usageShape, NonEmpty(p.quirks),
      if options == map[] then None else Some(options),
      if p.models.None? then None else Some(map id | id in p.models.value :: view(id, p.models.value[id])),
      NonEmpty(p.blacklist), NonEmpty(p.whitelist))
  }

  function Convert(provider: Option<Providers>, mode: Mode, view: ModelView): Bootstraps {
    if provider.None? then map[] else map id | id in provider.value :: ToBootstrap(provider.value[id], mode, view)
  }

  /** The descriptions that a configuration keeps whole: no key, options, models or lists, and no
      list of quirks without any. */
  predicate Portable(b: Bootstrap) {
    && b.apiKey.None? && b.options.None? && b.models.None? && b.blacklist.None? && b.whitelist.None?
    && b.quirks != Some([])
  }

  /** Conversion undoes the import of exactly the portable providers. */
  lemma ConversionUndoesImport(imported: Bootstrap, existing: Option<Provider>, view: ModelView)
    ensures ToBootstrap(ToConfig(imported, existing), Artifact, view) == imported <==> Portable(imported)
  {
  }

  /** An import goes through and reads back as the imported providers, with all the others as
      they were, exactly if none of them is blocked and all of them are portable. */
  lemma ImportReadsBack(providers: Providers, imported: Bootstraps, order: seq<string>, view: ModelView)
    requires Lists(order, imported.Keys)
    ensures var o := Apply(providers, imported, order);
            (o.refusal.None? && Convert(Some(o.providers), Artifact, view) == Convert(Some(providers), Artifact, view) + imported)
            <==> (forall id :: id in imported ==> !Blocked(providers, id) && Portable(imported[id]))
  {
    ApplyMerges(providers, imported, order);
    MergeReadsBack(providers, imported, view);
  }

  lemma MergeReadsBack(providers: Providers, imported: Bootstraps, view: ModelView)
    ensures var next := Some(Merged(providers, imported, imported.Keys));
            (Convert(next, Artifact, view) == Convert(Some(providers), Artifact, view) + imported)
            <==> (forall id :: id in imported ==> Portable(imported[id]))
  {
    var next := Some(Merged(providers, imported, imported.Keys));
    var back, want := Convert(next, Artifact, view), Convert(Some(providers), Artifact, view) + imported;
    assert back.Keys == want.Keys;
    forall id | id in imported ensures back[id] == want[id] <==> Portable(imported[id]) {
      ConversionUndoesImport(imported[id], Find(providers, id), view);
    }
    if back == want {
      forall id | id in imported ensures Portable(imported[id]) {
        assert back[id] == want[id];
      }
    }
  }
}
