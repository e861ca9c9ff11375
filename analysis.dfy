/** The analysis routes: the comma-list splitter of ingredient extraction,
    the cache-or-fetch resolution of a confirmed ingredient list against
    the ingredient store, the personalised report, and the cached
    ingredient lookup. */
module AnalysisRoutes {
  import opened Wrappers
  import opened JsText
  import opened RulesEngine

  // ---------------------------------------------------------------------
  // Extraction: the comma-list splitter

  /** The pieces of `text` between commas, trimmed, empty ones dropped; the
      list `extract-ingredients` returns. */
  function SplitIngredients(text: string): (r: seq<string>)
    ensures forall k :: 0 <= k < |r| ==> r[k] != [] && Trimmed(r[k]) && Free(r[k], ',')
  {
    SplitPiecesFree(text, ',');
    KeepNonEmpty(TrimAll(Split(text, ',')))
  }

  /** `.map(s => s.trim())`. */
  function TrimAll(xs: seq<string>): (r: seq<string>)
    ensures |r| == |xs|
    ensures forall k :: 0 <= k < |xs| ==> r[k] == Trim(xs[k])
  {
    seq(|xs|, k requires 0 <= k < |xs| => Trim(xs[k]))
  }

  /** `.filter(s => s.length > 0)`. */
  function KeepNonEmpty(xs: seq<string>): (r: seq<string>)
    ensures forall k :: 0 <= k < |r| ==> r[k] != [] && r[k] in xs
  {
    if xs == [] then []
    else (if xs[0] != [] then [xs[0]] else []) + KeepNonEmpty(xs[1..])
  }

  /** Every non-empty piece is kept, as often as it occurs, and no empty
      one. */
  lemma {:induction false} KeepNonEmptyCounts(xs: seq<string>)
    ensures forall s :: multiset(KeepNonEmpty(xs))[s] == if s != [] then multiset(xs)[s] else 0
    decreases |xs|
  {
    if xs != [] {
      KeepNonEmptyCounts(xs[1..]);
      assert xs == [xs[0]] + xs[1..];
    }
  }

  /** The filter works piece by piece, so the kept pieces keep their order. */
  lemma {:induction false} KeepNonEmptyConcat(a: seq<string>, b: seq<string>)
    ensures KeepNonEmpty(a + b) == KeepNonEmpty(a) + KeepNonEmpty(b)
    decreases |a|
  {
    if a == [] {
      assert a + b == b;
    } else {
      assert (a + b)[0] == a[0] && (a + b)[1..] == a[1..] + b;
      KeepNonEmptyConcat(a[1..], b);
    }
  }

  /** An element the splitter can return. */
  predicate ListItem(s: string) {
    s != [] && Trimmed(s) && Free(s, ',')
  }

  lemma {:induction false} KeepNonEmptyAll(xs: seq<string>)
    requires forall k :: 0 <= k < |xs| ==> xs[k] != []
    ensures KeepNonEmpty(xs) == xs
    decreases |xs|
  {
    if xs != [] {
      KeepNonEmptyAll(xs[1..]);
    }
  }

  /** Splitting a `", "`- or `","`-joined list of splitter elements gives
      the list back: splitting is a left inverse of joining. */
  lemma SplitIngredientsJoin(xs: seq<string>, sep: string)
    requires sep == ", " || sep == ","
    requires forall k :: 0 <= k < |xs| ==> ListItem(xs[k])
    ensures SplitIngredients(Join(xs, sep)) == xs
  {
    if xs == [] {
      assert Split("", ',') == [""] by { assert Find("", ',') == 0; }
      TrimOfTrimmed("");
      assert TrimAll([""]) == [""];
    } else if sep == "," {
      SplitJoinComma(xs);
    } else {
      SplitJoinCommaSpace(xs);
    }
  }

  lemma SplitJoinComma(xs: seq<string>)
    requires xs != []
    requires forall k :: 0 <= k < |xs| ==> ListItem(xs[k])
    ensures SplitIngredients(Join(xs, ",")) == xs
  {
    SplitJoin(xs, ',');
    TrimAllItems(xs);
    KeepNonEmptyAll(xs);
  }

  /** Trimming leaves splitter elements as they are. */
  lemma TrimAllItems(xs: seq<string>)
    requires forall k :: 0 <= k < |xs| ==> ListItem(xs[k])
    ensures TrimAll(xs) == xs
  {
    forall k | 0 <= k < |xs| ensures Trim(xs[k]) == xs[k] {
      TrimOfTrimmed(xs[k]);
    }
  }

  lemma SplitJoinCommaSpace(xs: seq<string>)
    requires xs != []
    requires forall k :: 0 <= k < |xs| ==> ListItem(xs[k])
    ensures SplitIngredients(Join(xs, ", ")) == xs
  {
    var pieces := [xs[0]] + Padded(xs[1..]);
    SplitCommaSpace(xs);
    assert Split(Join(xs, ", "), ',') == pieces;
    TrimPieces(xs, pieces);
    KeepNonEmptyAll(xs);
  }

  lemma TrimPieces(xs: seq<string>, pieces: seq<string>)
    requires xs != [] && pieces == [xs[0]] + Padded(xs[1..])
    requires forall k :: 0 <= k < |xs| ==> ListItem(xs[k])
    ensures TrimAll(pieces) == xs
  {
    forall k | 0 <= k < |xs| ensures Trim(pieces[k]) == xs[k] {
      if k == 0 {
        TrimOfTrimmed(xs[0]);
      } else {
        assert pieces[k] == Padded(xs[1..])[k - 1];
        TrimBlankFront(xs[k]);
      }
    }
  }

  // ---------------------------------------------------------------------
  // The ingredient store

  /** `ingredientName.toLowerCase().trim()`, the cache key. */
  function Normalize(name: string): (key: string)
    ensures Trimmed(key) && Lower(key) == key
  {
    TrimLower(name);
    LowerIdempotent(Trim(name));
    Trim(Lower(name))
  }

  /** The `trim` and `lowercase` setters of the `ingredient_name` schema
      path, applied when a record is saved. */
  function SchemaKey(name: string): string {
    Lower(Trim(name))
  }

  /** The route's key and the schema's key agree, and a normalised key is
      a fixed point of both, so a record saved under a normalised key is
      found under it. */
  lemma NormalizeIsSchemaKey(name: string)
    ensures Normalize(name) == SchemaKey(name)
    ensures Normalize(Normalize(name)) == Normalize(name)
    ensures SchemaKey(Normalize(name)) == Normalize(name)
  {
    TrimLower(name);
    var n := Normalize(name);
    TrimOfTrimmed(n);
    LowerIdempotent(Trim(name));
    TrimLower(n);
  }

  /** One document of the `Ingredient` collection. */
  datatype StoredIngredient = StoredIngredient(ingredientName: string, analysis: Analysis, lastAnalyzed: int)

  /** The `Ingredient` collection, keyed by `ingredient_name` (a unique
      index). `schemaKey` is what the schema setters make of a name before
      it is stored (`SchemaKey` for this schema); whether the database
      accepts the n-th save is an oracle. */
  class IngredientStore {
    var records: map<string, StoredIngredient>
    var saveAttempts: nat
    const schemaKey: string -> string
    const accepts: nat -> bool

    constructor(records: map<string, StoredIngredient>, accepts: nat -> bool)
      ensures this.records == records && this.saveAttempts == 0
      ensures this.schemaKey == SchemaKey && this.accepts == accepts
    {
      this.records := records;
      this.saveAttempts := 0;
      this.schemaKey := SchemaKey;
      this.accepts := accepts;
    }

    /** `Ingredient.findOne({ ingredient_name: key })`. */
    method FindOne(key: string) returns (r: Option<StoredIngredient>)
      ensures r.Some? <==> key in records
      ensures r.Some? ==> r.value == records[key]
    {
      if key in records {
        r := Some(records[key]);
      } else {
        r := None;
      }
    }

    /** `new Ingredient(doc).save()`: the schema setters normalise the key;
        the save fails when the normalised key is empty (the `required`
        validator), on a duplicate key, or when the database rejects it. */
    method Save(doc: StoredIngredient) returns (ok: bool)
      modifies this
      ensures ok <==> && schemaKey(doc.ingredientName) != ""
                      && schemaKey(doc.ingredientName) !in old(records)
                      && accepts(old(saveAttempts))
      ensures saveAttempts == old(saveAttempts) + 1
      ensures records == if ok then old(records)[schemaKey(doc.ingredientName) := doc.(ingredientName := schemaKey(doc.ingredientName))]
                         else old(records)
    {
      var key := schemaKey(doc.ingredientName);
      ok := key != "" && key !in records && accepts(saveAttempts);
      if ok {
        records := records[key := doc.(ingredientName := key)];
      }
      saveAttempts := saveAttempts + 1;
    }
  }

  /** What `geminiApi.analyzeIngredient` does: return an analysis or throw. */
  datatype EnrichOutcome = Returned(analysis: Analysis) | Threw

  /** The enrichment client, as an oracle from the name and the number of
      earlier calls to an outcome, with a call counter. */
  class Enricher {
    var calls: nat
    const respond: (string, nat) -> EnrichOutcome

    constructor(respond: (string, nat) -> EnrichOutcome)
      ensures this.calls == 0 && this.respond == respond
    {
      this.calls := 0;
      this.respond := respond;
    }

    method AnalyzeIngredient(name: string) returns (outcome: EnrichOutcome)
      modifies this
      ensures outcome == respond(name, old(calls))
      ensures calls == old(calls) + 1
    {
      outcome := respond(name, calls);
      calls := calls + 1;
    }
  }

  /** The minimal record used when enrichment or saving throws. */
  const Fallback: Analysis := Analysis("unknown", ["unanalyzed"], [])

  // ---------------------------------------------------------------------
  // The resolution loop, specified

  /** The store and enricher state the loop reads and writes. */
  datatype Cache = Cache(records: map<string, StoredIngredient>, saveAttempts: nat, calls: nat)

  /** The report entries so far and the state after them. */
  datatype Pass = Pass(entries: seq<IngredientData>, cache: Cache)

  /** What the loop depends on besides its state: the cache key of a name
      (`Normalize` in the route), the enrichment and database oracles, and
      the clock reading stamped on saved records. */
  datatype Env = Env(keyOf: string -> string, respond: (string, nat) -> EnrichOutcome, accepts: nat -> bool, now: int)

  /** One iteration of the loop for `name`. The save of a blank key fails
      validation, like a rejected one. */
  function Step(env: Env, pass: Pass, name: string): Pass
  {
    var key := env.keyOf(name);
    var c := pass.cache;
    if key in c.records then
      Pass(pass.entries + [IngredientData(name, Some(c.records[key].analysis))], c)
    else
      match env.respond(name, c.calls)
      case Threw =>
        Pass(pass.entries + [IngredientData(name, Some(Fallback))], c.(calls := c.calls + 1))
      case Returned(a) =>
        if key != "" && env.accepts(c.saveAttempts) then
          Pass(pass.entries + [IngredientData(name, Some(a))],
               Cache(c.records[key := StoredIngredient(key, a, env.now)], c.saveAttempts + 1, c.calls + 1))
        else
          Pass(pass.entries + [IngredientData(name, Some(Fallback))],
               c.(saveAttempts := c.saveAttempts + 1, calls := c.calls + 1))
  }

  /** The loop over `names` from `init`: one entry per input name, in input
      order, carrying the caller's original name and an analysis. */
  function Run(env: Env, names: seq<string>, init: Cache): (r: Pass)
    ensures |r.entries| == |names|
    ensures forall k :: 0 <= k < |names| ==> r.entries[k].name == names[k] && r.entries[k].analysis.Some?
  {
    if names == [] then Pass([], init)
    else Step(env, Run(env, names[..|names| - 1], init), names[|names| - 1])
  }

  /** The loop's environment in the route. */
  function RouteEnv(store: IngredientStore, enricher: Enricher, now: int): Env {
    Env(Normalize, enricher.respond, store.accepts, now)
  }

  /** The cache-or-fetch loop of `analyze-ingredients`. */
  method Resolve(names: seq<string>, store: IngredientStore, enricher: Enricher, now: int)
    returns (entries: seq<IngredientData>)
    requires store.schemaKey == SchemaKey
    modifies store, enricher
    ensures Pass(entries, Cache(store.records, store.saveAttempts, enricher.calls))
         == Run(RouteEnv(store, enricher, now), names, Cache(old(store.records), old(store.saveAttempts), old(enricher.calls)))
  {
    ghost var env := RouteEnv(store, enricher, now);
    ghost var init := Cache(store.records, store.saveAttempts, enricher.calls);
    entries := [];
    for i := 0 to |names|
      invariant Pass(entries, Cache(store.records, store.saveAttempts, enricher.calls)) == Run(env, names[..i], init)
    {
      assert names[..i + 1][..i] == names[..i];
      entries := ResolveOne(names[i], store, enricher, now, entries);
    }
    assert names[..|names|] == names;
  }

  /** One iteration of the loop: look the key up, and on a miss enrich the
      original name and try to save the answer under the key. */
  method ResolveOne(ingredientName: string, store: IngredientStore, enricher: Enricher, now: int,
                    entries: seq<IngredientData>)
    returns (entries': seq<IngredientData>)
    requires store.schemaKey == SchemaKey
    modifies store, enricher
    ensures Pass(entries', Cache(store.records, store.saveAttempts, enricher.calls))
         == Step(RouteEnv(store, enricher, now),
                 Pass(entries, Cache(old(store.records), old(store.saveAttempts), old(enricher.calls))),
                 ingredientName)
  {
    ghost var env := RouteEnv(store, enricher, now);
    ghost var before := Pass(entries, Cache(store.records, store.saveAttempts, enricher.calls));
    var normalizedName := Normalize(ingredientName);
    assert env.keyOf(ingredientName) == normalizedName;
    var cached := store.FindOne(normalizedName);
    if cached.Some? {
      entries' := entries + [IngredientData(ingredientName, Some(cached.value.analysis))];
      assert Step(env, before, ingredientName) == Pass(entries', before.cache);
      return;
    }
    NormalizeIsSchemaKey(ingredientName);
    entries' := ResolveMiss(ingredientName, normalizedName, store, enricher, now, entries);
  }

  /** A miss: enrich the original name, and try to save the answer under
      the key; the fallback stands in when enrichment throws or the save
      fails. */
  method ResolveMiss(ingredientName: string, normalizedName: string, store: IngredientStore, enricher: Enricher,
                     now: int, entries: seq<IngredientData>)
    returns (entries': seq<IngredientData>)
    requires normalizedName == Normalize(ingredientName) && normalizedName !in store.records
    requires store.schemaKey(normalizedName) == normalizedName
    modifies store, enricher
    ensures Pass(entries', Cache(store.records, store.saveAttempts, enricher.calls))
         == Step(RouteEnv(store, enricher, now),
                 Pass(entries, Cache(old(store.records), old(store.saveAttempts), old(enricher.calls))),
                 ingredientName)
  {
    ghost var env := RouteEnv(store, enricher, now);
    ghost var before := Pass(entries, Cache(store.records, store.saveAttempts, enricher.calls));
    assert env.keyOf(ingredientName) == normalizedName;
    var outcome := enricher.AnalyzeIngredient(ingredientName);
    match outcome {
      case Threw =>
        entries' := entries + [IngredientData(ingredientName, Some(Fallback))];
        assert Step(env, before, ingredientName) == Pass(entries', Cache(store.records, store.saveAttempts, enricher.calls));
      case Returned(analysisData) =>
        var saved := store.Save(StoredIngredient(normalizedName, analysisData, now));
        if saved {
          entries' := entries + [IngredientData(ingredientName, Some(analysisData))];
          assert store.records == before.cache.records[normalizedName := StoredIngredient(normalizedName, analysisData, now)];
          assert Step(env, before, ingredientName) == Pass(entries', Cache(store.records, store.saveAttempts, enricher.calls));
        } else {
          entries' := entries + [IngredientData(ingredientName, Some(Fallback))];
          assert Step(env, before, ingredientName) == Pass(entries', Cache(store.records, store.saveAttempts, enricher.calls));
        }
    }
  }

  // ---------------------------------------------------------------------
  // Properties of the loop

  /** A hit uses the stored analysis as-is and neither enriches nor
      writes. */
  lemma StepHit(env: Env, pass: Pass, name: string)
    requires env.keyOf(name) in pass.cache.records
    ensures Step(env, pass, name).cache == pass.cache
    ensures Step(env, pass, name).entries
         == pass.entries + [IngredientData(name, Some(pass.cache.records[env.keyOf(name)].analysis))]
  {
  }

  /** A miss asks the enricher once, with the original name. When it throws
      the fallback is used and nothing is saved; when it returns, the save
      is attempted and, if the key is not blank and the database accepts
      it, the record is stored under the key and used; otherwise the
      fallback is used. */
  lemma StepMiss(env: Env, pass: Pass, name: string)
    requires env.keyOf(name) !in pass.cache.records
    ensures var after := Step(env, pass, name);
      var key := env.keyOf(name);
      var c := pass.cache;
      && after.cache.calls == c.calls + 1
      && (env.respond(name, c.calls).Threw? ==>
            && after.cache.records == c.records
            && after.cache.saveAttempts == c.saveAttempts
            && after.entries == pass.entries + [IngredientData(name, Some(Fallback))])
      && (env.respond(name, c.calls).Returned? ==>
            var a := env.respond(name, c.calls).analysis;
            && after.cache.saveAttempts == c.saveAttempts + 1
            && (key != "" && env.accepts(c.saveAttempts) ==>
                  && after.cache.records == c.records[key := StoredIngredient(key, a, env.now)]
                  && after.entries == pass.entries + [IngredientData(name, Some(a))])
            && (key == "" || !env.accepts(c.saveAttempts) ==>
                  && after.cache.records == c.records
                  && after.entries == pass.entries + [IngredientData(name, Some(Fallback))]))
  {
  }

  /** The store only grows: no stored record is changed or removed, and the
      counters only grow, the enricher by at most one call per name. */
  lemma {:induction false} RunMonotone(env: Env, names: seq<string>, init: Cache)
    ensures var c := Run(env, names, init).cache;
      && (forall key :: key in init.records ==> key in c.records && c.records[key] == init.records[key])
      && init.saveAttempts <= c.saveAttempts
      && init.calls <= c.calls <= init.calls + |names|
    decreases |names|
  {
    if names != [] {
      RunMonotone(env, names[..|names| - 1], init);
    }
  }

  /** Running a longer prefix only adds records. */
  lemma {:induction false} RunPrefixGrows(env: Env, names: seq<string>, i: nat, j: nat, init: Cache)
    requires i <= j <= |names|
    ensures var ci := Run(env, names[..i], init).cache;
            var cj := Run(env, names[..j], init).cache;
      forall key :: key in ci.records ==> key in cj.records && cj.records[key] == ci.records[key]
    decreases j - i
  {
    if i < j {
      RunPrefixGrows(env, names, i, j - 1, init);
      assert names[..j][..j - 1] == names[..j - 1];
    }
  }

  /** A name whose key was stored earlier in the same pass is a hit: the
      later duplicate uses that record and adds no enrichment call. */
  lemma RepeatIsHit(env: Env, names: seq<string>, i: nat, j: nat, init: Cache)
    requires i < j < |names| && env.keyOf(names[i]) == env.keyOf(names[j])
    requires env.keyOf(names[i]) in Run(env, names[..i + 1], init).cache.records
    ensures var before := Run(env, names[..j], init);
            var after := Run(env, names[..j + 1], init);
      && after.cache == before.cache
      && after.entries[j].analysis == Some(Run(env, names[..i + 1], init).cache.records[env.keyOf(names[i])].analysis)
  {
    RunPrefixGrows(env, names, i + 1, j, init);
    assert names[..j + 1][..j] == names[..j];
  }

  /** The keys of a list of names. */
  function Keys(keyOf: string -> string, names: seq<string>): set<string> {
    set k | 0 <= k < |names| :: keyOf(names[k])
  }

  lemma KeysSnoc(keyOf: string -> string, names: seq<string>)
    requires names != []
    ensures Keys(keyOf, names) == Keys(keyOf, names[..|names| - 1]) + {keyOf(names[|names| - 1])}
  {
    var init := names[..|names| - 1];
    forall key | key in Keys(keyOf, names) ensures key in Keys(keyOf, init) + {keyOf(names[|names| - 1])} {
      var k :| 0 <= k < |names| && keyOf(names[k]) == key;
      if k < |names| - 1 {
        assert init[k] == names[k];
      }
    }
    forall key | key in Keys(keyOf, init) ensures key in Keys(keyOf, names) {
      var k :| 0 <= k < |init| && keyOf(init[k]) == key;
      assert names[k] == init[k];
    }
  }

  /** A blank key is never stored: a name that is blank after trimming is
      answered with the fallback whenever no record sits under the blank
      key, and the pass never adds one. */
  lemma BlankNameFallsBack(env: Env, pass: Pass, name: string)
    requires env.keyOf(name) == "" && "" !in pass.cache.records
    ensures "" !in Step(env, pass, name).cache.records
    ensures Step(env, pass, name).entries == pass.entries + [IngredientData(name, Some(Fallback))]
  {
  }

  lemma {:induction false} RunNeverStoresBlank(env: Env, names: seq<string>, init: Cache)
    requires "" !in init.records
    ensures "" !in Run(env, names, init).cache.records
    decreases |names|
  {
    if names != [] {
      RunNeverStoresBlank(env, names[..|names| - 1], init);
    }
  }

  /** A step whose enrichment returns and whose save is accepted adds its
      key to the store, and costs one call and one save exactly when the
      key was new. */
  lemma StepWithoutFailures(env: Env, pass: Pass, name: string)
    requires env.respond(name, pass.cache.calls).Returned? && env.accepts(pass.cache.saveAttempts)
    ensures var key := env.keyOf(name);
      var c := pass.cache;
      var after := Step(env, pass, name).cache;
      && after.records.Keys == c.records.Keys + ({key} - {""})
      && (key in c.records ==> after.calls == c.calls && after.saveAttempts == c.saveAttempts)
      && (key !in c.records ==> after.calls == c.calls + 1 && after.saveAttempts == c.saveAttempts + 1)
  {
  }

  /** Counting the keys new to `known` after adding `key` to `seen`, when
      `stored` is `known + seen`. */
  lemma NewKeys(known: set<string>, seen: set<string>, key: string)
    ensures key in known + seen ==> (seen + {key}) - known == seen - known
    ensures key !in known + seen ==> |(seen + {key}) - known| == |seen - known| + 1
  {
    if key !in known + seen {
      assert (seen + {key}) - known == (seen - known) + {key};
    }
  }

  /** When enrichment always returns and the database accepts every save,
      the store ends up holding exactly the old keys and the new non-blank
      ones: the schema rejects a blank key. */
  lemma {:induction false} RunKeysWithoutFailures(env: Env, names: seq<string>, init: Cache)
    requires forall n, c :: env.respond(n, c).Returned?
    requires forall a :: env.accepts(a)
    ensures Run(env, names, init).cache.records.Keys == init.records.Keys + (Keys(env.keyOf, names) - {""})
    decreases |names|
  {
    if names == [] {
      assert Keys(env.keyOf, names) == {};
    } else {
      var prefix := names[..|names| - 1];
      RunKeysWithoutFailures(env, prefix, init);
      KeysSnoc(env.keyOf, names);
      StepWithoutFailures(env, Run(env, prefix, init), names[|names| - 1]);
    }
  }

  /** When enrichment always returns, the database accepts every save and
      no name is blank (so no save fails validation), each new key is enriched and saved exactly once per pass: both
      counters grow by the number of distinct keys not already cached. */
  lemma {:induction false} RunWithoutFailures(env: Env, names: seq<string>, init: Cache)
    requires forall n, c :: env.respond(n, c).Returned?
    requires forall a :: env.accepts(a)
    requires forall k :: 0 <= k < |names| ==> env.keyOf(names[k]) != ""
    ensures var c := Run(env, names, init).cache;
      && c.calls == init.calls + |Keys(env.keyOf, names) - init.records.Keys|
      && c.saveAttempts == init.saveAttempts + |Keys(env.keyOf, names) - init.records.Keys|
    decreases |names|
  {
    if names == [] {
      assert Keys(env.keyOf, names) == {};
    } else {
      var prefix := names[..|names| - 1];
      var name := names[|names| - 1];
      var before := Run(env, prefix, init);
      RunWithoutFailures(env, prefix, init);
      RunKeysWithoutFailures(env, prefix, init);
      KeysSnoc(env.keyOf, names);
      assert "" !in Keys(env.keyOf, prefix);
      StepWithoutFailures(env, before, name);
      NewKeys(init.records.Keys, Keys(env.keyOf, prefix), env.keyOf(name));
    }
  }

  /** The production client never throws: it answers a failure with the
      fallback record itself, which is then saved like any other answer, so
      a later pass reads the fallback from the store. */
  lemma FallbackAnswerIsCached(env: Env, pass: Pass, name: string)
    requires env.keyOf(name) !in pass.cache.records
    requires env.respond(name, pass.cache.calls) == Returned(Fallback) && env.accepts(pass.cache.saveAttempts)
    requires env.keyOf(name) != ""
    ensures env.keyOf(name) in Step(env, pass, name).cache.records
    ensures Step(env, pass, name).cache.records[env.keyOf(name)].analysis == Fallback
  {
  }

  // ---------------------------------------------------------------------
  // The report and the request handler

  datatype AnalyzedIngredient = AnalyzedIngredient(name: string, kind: string, tags: seq<string>)

  datatype ProfileSummary = ProfileSummary(ageGroup: string, allergiesCount: nat, conditionsCount: nat,
                                           preferencesCount: nat)

  datatype Report = Report(
    productName: string,
    overallSummary: Summary,
    warnings: seq<Warning>,
    ingredientsAnalyzed: seq<AnalyzedIngredient>,
    totalIngredients: nat,
    analysisTimestamp: string,
    userProfileSummary: ProfileSummary)

  /** `product_name || 'Unknown Product'`: an absent or empty name falls
      back. */
  function ProductName(productName: Option<string>): (r: string)
    ensures r == "Unknown Product" <==> productName.None? || productName.value == "" || productName.value == "Unknown Product"
    ensures productName.Some? && productName.value != "" ==> r == productName.value
  {
    match productName
    case Some(n) => if n != "" then n else "Unknown Product"
    case None => "Unknown Product"
  }

  /** The `ingredients_analyzed` projection. */
  function Project(entries: seq<IngredientData>): (r: seq<AnalyzedIngredient>)
    requires forall k :: 0 <= k < |entries| ==> entries[k].analysis.Some?
    ensures |r| == |entries|
    ensures forall k :: 0 <= k < |entries| ==>
      r[k] == AnalyzedIngredient(entries[k].name, entries[k].analysis.value.kind, entries[k].analysis.value.tags)
  {
    seq(|entries|, k requires 0 <= k < |entries| =>
      AnalyzedIngredient(entries[k].name, entries[k].analysis.value.kind, entries[k].analysis.value.tags))
  }

  /** The report object built after resolution: the ranked warnings and
      their verdict, one analysed ingredient per entry, and the lengths of
      the profile's three lists. */
  function AssembleReport(productName: Option<string>, p: Profile, entries: seq<IngredientData>,
                          timestamp: string): (r: Report)
    requires forall k :: 0 <= k < |entries| ==> entries[k].analysis.Some?
    ensures r.productName == ProductName(productName) && r.analysisTimestamp == timestamp
    ensures r.warnings == Warnings(ConflictRules, p, entries)
    ensures r.overallSummary == GenerateOverallSummary(r.warnings)
    ensures r.ingredientsAnalyzed == Project(entries) && r.totalIngredients == |r.ingredientsAnalyzed|
    ensures r.userProfileSummary.ageGroup == p.ageGroup
    ensures r.userProfileSummary.allergiesCount == |p.allergies|
    ensures r.userProfileSummary.conditionsCount == |p.healthConditions|
    ensures r.userProfileSummary.preferencesCount == |p.dietaryPreferences|
  {
    var warnings := Warnings(ConflictRules, p, entries);
    Report(ProductName(productName), GenerateOverallSummary(warnings), warnings, Project(entries), |entries|,
           timestamp,
           ProfileSummary(p.ageGroup, |p.allergies|, |p.healthConditions|, |p.dietaryPreferences|))
  }

  /** `req.body.ingredients_list`: absent, not an array, or an array. */
  datatype ListField = Missing | NotArray | List(items: seq<string>)

  datatype Response = BadRequest(message: string) | Ok(report: Report)

  const InvalidListMessage := "Valid ingredients list is required"
  const NoProfileMessage := "Health profile not found. Please complete your profile first."

  /** `POST /analyze-ingredients`. The stored profile of the user is
      `profile`; `now` and `timestamp` are the clock readings. */
  method AnalyzeIngredients(list: ListField, productName: Option<string>, profile: Option<Profile>,
                            store: IngredientStore, enricher: Enricher, now: int, timestamp: string)
    returns (response: Response)
    requires store.schemaKey == SchemaKey
    modifies store, enricher
    ensures !list.List? || list.items == [] ==>
      response == BadRequest(InvalidListMessage)
      && store.records == old(store.records) && store.saveAttempts == old(store.saveAttempts)
      && enricher.calls == old(enricher.calls)
    ensures list.List? && list.items != [] && profile.None? ==>
      response == BadRequest(NoProfileMessage)
      && store.records == old(store.records) && store.saveAttempts == old(store.saveAttempts)
      && enricher.calls == old(enricher.calls)
    ensures list.List? && list.items != [] && profile.Some? ==>
      var pass := Run(RouteEnv(store, enricher, now), list.items,
                      Cache(old(store.records), old(store.saveAttempts), old(enricher.calls)));
      && Cache(store.records, store.saveAttempts, enricher.calls) == pass.cache
      && response.Ok?
      && response.report == AssembleReport(productName, profile.value, pass.entries, timestamp)
  {
    if !list.List? || list.items == [] {
      return BadRequest(InvalidListMessage);
    }
    if profile.None? {
      return BadRequest(NoProfileMessage);
    }
    ghost var init := Cache(store.records, store.saveAttempts, enricher.calls);
    var entries := Resolve(list.items, store, enricher, now);
    var warnings := AnalyzeIngredientConflicts(ConflictRules, profile.value, entries);
    var p := profile.value;
    SortIsRanked(Discovered(ConflictRules, p, entries, AllConditions(p)));
    response := Ok(Report(ProductName(productName), GenerateOverallSummary(warnings), warnings, Project(entries),
                          |entries|, timestamp,
                          ProfileSummary(p.ageGroup, |p.allergies|, |p.healthConditions|, |p.dietaryPreferences|)));
  }

  /** The report has one analysed ingredient per requested name, in order,
      named as requested; its verdict is the summary of its warnings, which
      are the discovered ones ranked; its profile counts are the lengths of
      the profile's lists. */
  lemma ReportShape(env: Env, names: seq<string>, init: Cache, productName: Option<string>, p: Profile,
                    timestamp: string)
    ensures var entries := Run(env, names, init).entries;
      var report := AssembleReport(productName, p, entries, timestamp);
      && report.totalIngredients == |names|
      && |report.ingredientsAnalyzed| == |names|
      && (forall k :: 0 <= k < |names| ==> report.ingredientsAnalyzed[k].name == names[k])
      && report.overallSummary == GenerateOverallSummary(report.warnings)
      && multiset(report.warnings) == multiset(Discovered(ConflictRules, p, entries, AllConditions(p)))
      && report.userProfileSummary ==
           ProfileSummary(p.ageGroup, |p.allergies|, |p.healthConditions|, |p.dietaryPreferences|)
  {
    var entries := Run(env, names, init).entries;
    ReportOfEntries(productName, p, entries, timestamp);
  }

  /** The report built from any resolved entries, in terms of the entries. */
  lemma ReportOfEntries(productName: Option<string>, p: Profile, entries: seq<IngredientData>, timestamp: string)
    requires forall k :: 0 <= k < |entries| ==> entries[k].analysis.Some?
    ensures var report := AssembleReport(productName, p, entries, timestamp);
      && report.totalIngredients == |entries|
      && (forall k :: 0 <= k < |entries| ==> report.ingredientsAnalyzed[k].name == entries[k].name)
      && multiset(report.warnings) == multiset(Discovered(ConflictRules, p, entries, AllConditions(p)))
      && report.userProfileSummary ==
           ProfileSummary(p.ageGroup, |p.allergies|, |p.healthConditions|, |p.dietaryPreferences|)
  {
  }

  // ---------------------------------------------------------------------
  // The cached-ingredient lookup

  datatype LookupResponse =
    | NotFound(message: string)
    | Found(name: string, analysis: Analysis, lastAnalyzed: int)

  /** `GET /ingredient/:name`. */
  method GetIngredient(store: IngredientStore, name: string) returns (response: LookupResponse)
    ensures response.NotFound? <==> Normalize(name) !in store.records
    ensures response.NotFound? ==> response.message == "Ingredient not found in cache"
    ensures response.Found? ==>
      var doc := store.records[Normalize(name)];
      response == Found(doc.ingredientName, doc.analysis, doc.lastAnalyzed)
  {
    var ingredient := store.FindOne(Normalize(name));
    if ingredient.None? {
      return NotFound("Ingredient not found in cache");
    }
    var doc := ingredient.value;
    response := Found(doc.ingredientName, doc.analysis, doc.lastAnalyzed);
  }

  /** After a pass, every requested name can be looked up when its record
      was saved in the pass or was already cached. */
  lemma LookupAfterRun(env: Env, names: seq<string>, k: nat, init: Cache)
    requires k < |names|
    requires env.keyOf(names[k]) in Run(env, names[..k + 1], init).cache.records
    ensures env.keyOf(names[k]) in Run(env, names, init).cache.records
  {
    RunPrefixGrows(env, names, k + 1, |names|, init);
    assert names[..|names|] == names;
  }
}
