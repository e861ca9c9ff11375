/** The personalization rules engine: a static table from profile condition
    labels to conflict rules, the cross of every resolved ingredient with
    every profile condition, the severity of each conflict, the stable
    ranking of the warnings, and the overall verdict. */
module RulesEngine {
  import opened Wrappers
  import opened JsText

  datatype Severity = LOW | MEDIUM | HIGH

  /** `priorityOrder` of the sort comparator. */
  function Priority(level: Severity): nat {
    match level
    case HIGH => 3
    case MEDIUM => 2
    case LOW => 1
  }

  /** One entry of `analysis_json.potential_concerns`; an absent (or empty)
      `level` is `None`. */
  datatype Concern = Concern(condition: string, level: Option<Severity>)

  /** `analysis_json`: `type`, `tags`, `potential_concerns`. An absent array
      behaves exactly as an empty one in every test below. */
  datatype Analysis = Analysis(kind: string, tags: seq<string>, concerns: seq<Concern>)

  /** One resolved ingredient: the name as the caller wrote it and its
      analysis, if any. */
  datatype IngredientData = IngredientData(name: string, analysis: Option<Analysis>)

  datatype HealthCondition = HealthCondition(category: string, condition: string)

  /** The stored health profile; its arrays default to empty. */
  datatype Profile = Profile(
    ageGroup: string,
    allergies: seq<string>,
    healthConditions: seq<HealthCondition>,
    dietaryPreferences: seq<string>)

  /** A conflict rule; a rule without `potential_concerns` has `concerns == []`. */
  datatype Rule = Rule(tags: seq<string>, concerns: seq<string>, message: string)

  datatype WarningType =
    | AllergyWarning            // 'allergy'
    | HealthConditionWarning    // 'health_condition'
    | DietaryPreferenceWarning  // 'dietary_preference'
    | GeneralWarning            // 'general'

  datatype Warning = Warning(
    ingredient: string,
    condition: string,
    level: Severity,
    message: string,
    kind: WarningType)

  /** A rule table: what `this.conflictRules[label]` yields. */
  type RuleTable = string -> Option<Rule>

  /** The `conflictRules` object. Its three groups have disjoint labels.
      Labels without an entry (including every property name JavaScript
      objects inherit, whose values have neither `tags` nor
      `potential_concerns` and so can never conflict) give `None`. Every
      rule can fire: it has a tag and a message. */
  function ConflictRules(condition: string): (r: Option<Rule>)
    ensures r.Some? ==> r.value.tags != [] && r.value.message != ""
  {
    if AllergyRules(condition).Some? then AllergyRules(condition)
    else if ConditionRules(condition).Some? then ConditionRules(condition)
    else PreferenceRules(condition)
  }

  /** The allergy-based rules: none has concern labels. */
  function AllergyRules(condition: string): (r: Option<Rule>)
    ensures r.Some? ==> r.value.tags != [] && r.value.message != "" && r.value.concerns == []
  {
    match condition
    case "Milk/Dairy" => Some(Rule(["contains_dairy", "milk", "lactose"], [],
      "Contains dairy products - conflicts with your milk/dairy allergy"))
    case "Eggs" => Some(Rule(["contains_eggs", "egg"], [],
      "Contains eggs - conflicts with your egg allergy"))
    case "Peanuts" => Some(Rule(["contains_peanuts", "peanut"], [],
      "Contains peanuts - conflicts with your peanut allergy"))
    case "Tree Nuts" => Some(Rule(["contains_nuts", "tree_nuts", "almond", "walnut", "cashew"], [],
      "Contains tree nuts - conflicts with your tree nut allergy"))
    case "Fish" => Some(Rule(["contains_fish", "fish"], [],
      "Contains fish - conflicts with your fish allergy"))
    case "Shellfish" => Some(Rule(["contains_shellfish", "shellfish"], [],
      "Contains shellfish - conflicts with your shellfish allergy"))
    case "Wheat/Gluten" => Some(Rule(["contains_gluten", "wheat", "gluten"], [],
      "Contains gluten/wheat - conflicts with your gluten allergy"))
    case "Soy" => Some(Rule(["contains_soy", "soy"], [],
      "Contains soy - conflicts with your soy allergy"))
    case "Sesame" => Some(Rule(["contains_sesame", "sesame"], [],
      "Contains sesame - conflicts with your sesame allergy"))
    case "Sulfites" => Some(Rule(["contains_sulfites", "sulfites"], [],
      "Contains sulfites - conflicts with your sulfite sensitivity"))
    case _ => None
  }

  /** The health-condition-based rules: each has concern labels. */
  function ConditionRules(condition: string): (r: Option<Rule>)
    ensures r.Some? ==> r.value.tags != [] && r.value.message != "" && r.value.concerns != []
  {
    match condition
    case "Type 2 Diabetes" => Some(Rule(["high_sugar", "artificial_sweetener", "high_carb"], ["Diabetes"],
      "May affect blood sugar levels - consider your diabetes management"))
    case "Hypertension" => Some(Rule(["high_sodium", "salt"], ["Hypertension", "High Blood Pressure"],
      "High sodium content - may affect your blood pressure"))
    case "Cardiovascular Disease" => Some(Rule(["high_saturated_fat", "trans_fat", "high_cholesterol"], ["Heart Disease", "Cardiovascular Disease"],
      "May contain ingredients that affect heart health"))
    case "Celiac Disease" => Some(Rule(["contains_gluten", "wheat", "gluten"], ["Celiac Disease"],
      "Contains gluten - strictly avoid with celiac disease"))
    case "High Cholesterol" => Some(Rule(["high_cholesterol", "saturated_fat"], ["High Cholesterol"],
      "May affect cholesterol levels"))
    case "Chronic Kidney Disease" => Some(Rule(["high_sodium", "high_protein", "phosphorus"], ["Kidney Disease"],
      "May contain ingredients to limit with kidney disease"))
    case "GERD/Acid Reflux" => Some(Rule(["acidic", "spicy", "citric_acid"], ["GERD", "Acid Reflux"],
      "May trigger acid reflux symptoms"))
    case "Fatty Liver Disease" => Some(Rule(["high_sugar", "high_fructose", "refined_carbs"], ["Fatty Liver"],
      "High sugar content may worsen fatty liver condition"))
    case "Osteoporosis" => Some(Rule(["high_sodium", "phosphoric_acid"], ["Bone Health"],
      "May affect calcium absorption and bone health"))
    case _ => None
  }

  /** The dietary-preference rules: none has concern labels. */
  function PreferenceRules(condition: string): (r: Option<Rule>)
    ensures r.Some? ==> r.value.tags != [] && r.value.message != "" && r.value.concerns == []
  {
    match condition
    case "Vegetarian" => Some(Rule(["contains_meat", "animal_derived"], [],
      "Contains animal-derived ingredients - not suitable for vegetarian diet"))
    case "Vegan" => Some(Rule(["contains_meat", "contains_dairy", "contains_eggs", "animal_derived", "honey"], [],
      "Contains animal-derived ingredients - not suitable for vegan diet"))
    case "Keto Diet" => Some(Rule(["high_carb", "high_sugar", "starch"], [],
      "High in carbohydrates - may not fit ketogenic diet"))
    case "Low Carb Diet" => Some(Rule(["high_carb", "high_sugar"], [],
      "High in carbohydrates - may not fit low-carb diet"))
    case "Low Sodium Diet" => Some(Rule(["high_sodium", "salt"], [],
      "High sodium content - may not fit low-sodium diet requirements"))
    case _ => None
  }

  /** The allergen labels a stored profile may hold. */
  const AllergenLabels: seq<string> := ["Milk/Dairy", "Eggs", "Peanuts", "Tree Nuts", "Fish",
    "Shellfish", "Wheat/Gluten", "Soy", "Sesame", "Sulfites", "Other"]

  /** Every allergen of the profile schema either has no rule ('Other') or a
      rule without concern labels, so a concern can never lower the HIGH
      severity of an allergy conflict for a stored profile. */
  lemma AllergenRulesHaveNoConcerns(allergen: string)
    requires allergen in AllergenLabels
    ensures ConflictRules(allergen).None? <==> allergen == "Other"
    ensures ConflictRules(allergen).Some? ==> ConflictRules(allergen).value.concerns == []
  {
    assert AllergenLabels == AllergenLabels[..5] + AllergenLabels[5..];
    if allergen in AllergenLabels[..5] {
      FirstAllergenRules(allergen);
    } else {
      LaterAllergenRules(allergen);
    }
  }

  lemma FirstAllergenRules(allergen: string)
    requires allergen in ["Milk/Dairy", "Eggs", "Peanuts", "Tree Nuts", "Fish"]
    ensures ConflictRules(allergen).Some? && ConflictRules(allergen).value.concerns == []
  {
  }

  lemma LaterAllergenRules(allergen: string)
    requires allergen in ["Shellfish", "Wheat/Gluten", "Soy", "Sesame", "Sulfites", "Other"]
    ensures ConflictRules(allergen).None? <==> allergen == "Other"
    ensures ConflictRules(allergen).Some? ==> ConflictRules(allergen).value.concerns == []
  {
  }

  /** Bidirectional case-insensitive substring containment:
      `a.toLowerCase().includes(b.toLowerCase()) || b.toLowerCase().includes(a.toLowerCase())`. */
  predicate Overlaps(a: string, b: string) {
    Contains(Lower(a), Lower(b)) || Contains(Lower(b), Lower(a))
  }

  /** `xs.some(x => Overlaps(x, y))`. */
  function AnyOverlap(xs: seq<string>, y: string): (r: bool)
    ensures r <==> exists j :: 0 <= j < |xs| && Overlaps(xs[j], y)
  {
    if xs == [] then false
    else Overlaps(xs[0], y) || AnyOverlap(xs[1..], y)
  }

  /** `rule.tags.some(ruleTag => tags.some(tag => Overlaps(tag, ruleTag)))`. */
  function TagConflict(ruleTags: seq<string>, tags: seq<string>): (r: bool)
    ensures r <==> exists i, j :: 0 <= i < |ruleTags| && 0 <= j < |tags| && Overlaps(tags[j], ruleTags[i])
  {
    if ruleTags == [] then false
    else AnyOverlap(tags, ruleTags[0]) || TagConflict(ruleTags[1..], tags)
  }

  /** A concern matches a rule when its `condition` overlaps one of the
      rule's concern labels. */
  predicate ConcernMatches(c: Concern, ruleConcerns: seq<string>) {
    AnyOverlap(ruleConcerns, c.condition)
  }

  /** `concerns.find(...)`, as the position of the first matching concern. */
  function FindConcern(concerns: seq<Concern>, ruleConcerns: seq<string>): (r: Option<nat>)
    ensures r.Some? ==> r.value < |concerns| && ConcernMatches(concerns[r.value], ruleConcerns)
    ensures r.Some? ==> forall k :: 0 <= k < r.value ==> !ConcernMatches(concerns[k], ruleConcerns)
    ensures r.None? <==> forall k :: 0 <= k < |concerns| ==> !ConcernMatches(concerns[k], ruleConcerns)
  {
    if concerns == [] then None
    else if ConcernMatches(concerns[0], ruleConcerns) then Some(0)
    else match FindConcern(concerns[1..], ruleConcerns)
      case None => None
      case Some(k) => Some(k + 1)
  }

  /** The labels of the profile's health conditions, in order. */
  function ConditionLabels(hcs: seq<HealthCondition>): (r: seq<string>)
    ensures |r| == |hcs| && forall k :: 0 <= k < |hcs| ==> r[k] == hcs[k].condition
  {
    seq(|hcs|, k requires 0 <= k < |hcs| => hcs[k].condition)
  }

  /** `allConditions`: allergies, then health-condition labels, then dietary
      preferences, duplicates kept. */
  function AllConditions(p: Profile): seq<string> {
    p.allergies + ConditionLabels(p.healthConditions) + p.dietaryPreferences
  }

  /** `getWarningType`: the first profile list, in priority order, that
      holds the condition. */
  function WarningTypeOf(condition: string, p: Profile): (r: WarningType)
    ensures r == AllergyWarning <==> condition in p.allergies
    ensures r == HealthConditionWarning <==>
      condition !in p.allergies
      && exists k :: 0 <= k < |p.healthConditions| && p.healthConditions[k].condition == condition
    ensures r == DietaryPreferenceWarning <==>
      condition !in p.allergies && condition !in ConditionLabels(p.healthConditions)
      && condition in p.dietaryPreferences
    ensures r == GeneralWarning <==> condition !in AllConditions(p)
  {
    if condition in p.allergies then AllergyWarning
    else if condition in ConditionLabels(p.healthConditions) then HealthConditionWarning
    else if condition in p.dietaryPreferences then DietaryPreferenceWarning
    else GeneralWarning
  }

  /** The severity of a conflict on `condition` with a rule and an analysis:
      MEDIUM, raised to HIGH by a tag conflict on an allergy, then
      overwritten by the first matching concern's level (MEDIUM when it
      has none). */
  function ConflictLevel(p: Profile, condition: string, rule: Rule, a: Analysis): (level: Severity)
    ensures FindConcern(a.concerns, rule.concerns).None? ==>
              (level == HIGH <==> TagConflict(rule.tags, a.tags) && condition in p.allergies)
    ensures level == LOW ==> FindConcern(a.concerns, rule.concerns).Some?
    ensures FindConcern(a.concerns, rule.concerns).Some? && a.concerns[FindConcern(a.concerns, rule.concerns).value].level.None? ==>
              level == MEDIUM
  {
    match FindConcern(a.concerns, rule.concerns)
    case Some(k) => a.concerns[k].level.GetOr(MEDIUM)
    case None =>
      if TagConflict(rule.tags, a.tags) && condition in p.allergies then HIGH else MEDIUM
  }

  /** What the iteration for one ingredient and one condition pushes. */
  function PairWarning(rules: RuleTable, p: Profile, ing: IngredientData, condition: string): (r: Option<Warning>)
    ensures ing.analysis.None? || rules(condition).None? ==> r.None?
    ensures r.Some? <==>
      && ing.analysis.Some? && rules(condition).Some?
      && (|| TagConflict(rules(condition).value.tags, ing.analysis.value.tags)
          || FindConcern(ing.analysis.value.concerns, rules(condition).value.concerns).Some?)
    ensures r.Some? ==>
      && r.value.ingredient == ing.name
      && r.value.condition == condition
      && r.value.message == ing.name + ": " + rules(condition).value.message
      && r.value.kind == WarningTypeOf(condition, p)
      && r.value.level == ConflictLevel(p, condition, rules(condition).value, ing.analysis.value)
  {
    match ing.analysis
    case None => None
    case Some(a) =>
      match rules(condition)
      case None => None
      case Some(rule) =>
        if TagConflict(rule.tags, a.tags) || FindConcern(a.concerns, rule.concerns).Some? then
          Some(Warning(ing.name, condition, ConflictLevel(p, condition, rule, a),
                       ing.name + ": " + rule.message, WarningTypeOf(condition, p)))
        else None
  }

  function OptionToSeq<T>(o: Option<T>): seq<T> {
    match o
    case None => []
    case Some(x) => [x]
  }

  /** The warnings one ingredient yields over `conditions`, in order. */
  function PairWarnings(rules: RuleTable, p: Profile, ing: IngredientData, conditions: seq<string>): seq<Warning> {
    if conditions == [] then []
    else PairWarnings(rules, p, ing, conditions[..|conditions| - 1])
         + OptionToSeq(PairWarning(rules, p, ing, conditions[|conditions| - 1]))
  }

  /** All warnings in discovery order: ingredient by ingredient, condition
      by condition. */
  function Discovered(rules: RuleTable, p: Profile, data: seq<IngredientData>, conditions: seq<string>): seq<Warning> {
    if data == [] then []
    else Discovered(rules, p, data[..|data| - 1], conditions) + PairWarnings(rules, p, data[|data| - 1], conditions)
  }

  /** The warnings of one level, in their original order. */
  function Only(ws: seq<Warning>, level: Severity): (r: seq<Warning>)
    ensures forall k :: 0 <= k < |r| ==> r[k].level == level
    ensures |r| <= |ws|
  {
    if ws == [] then []
    else if ws[0].level == level then [ws[0]] + Only(ws[1..], level)
    else Only(ws[1..], level)
  }

  /** A group is empty exactly when no warning has its level. */
  lemma {:induction false} OnlyEmpty(ws: seq<Warning>, level: Severity)
    ensures Only(ws, level) == [] <==> forall k :: 0 <= k < |ws| ==> ws[k].level != level
    decreases |ws|
  {
    if ws != [] {
      OnlyEmpty(ws[1..], level);
      assert forall k :: 1 <= k < |ws| ==> ws[k] == ws[1..][k - 1];
    }
  }

  /** Insertion of `w` ahead of every warning of equal or lower priority. */
  function Insert(w: Warning, sorted: seq<Warning>): (r: seq<Warning>)
    ensures multiset(r) == multiset(sorted) + multiset{w}
  {
    if sorted == [] || Priority(sorted[0].level) <= Priority(w.level) then [w] + sorted
    else
      assert sorted == [sorted[0]] + sorted[1..];
      [sorted[0]] + Insert(w, sorted[1..])
  }

  /** `warnings.sort(byPriorityDescending)`: JavaScript's sort is stable, as
      this insertion sort is. */
  function SortBySeverity(ws: seq<Warning>): (r: seq<Warning>)
    ensures multiset(r) == multiset(ws)
  {
    if ws == [] then []
    else
      assert ws == [ws[0]] + ws[1..];
      Insert(ws[0], SortBySeverity(ws[1..]))
  }

  /** The ranking the stable sort must produce: HIGH warnings, then MEDIUM,
      then LOW, each group in discovery order. */
  function Ranked(ws: seq<Warning>): seq<Warning> {
    Only(ws, HIGH) + (Only(ws, MEDIUM) + Only(ws, LOW))
  }

  predicate SortedBySeverity(ws: seq<Warning>) {
    forall i, j :: 0 <= i < j < |ws| ==> Priority(ws[i].level) >= Priority(ws[j].level)
  }

  /** What `analyzeIngredientConflicts` returns: the discovered warnings,
      ranked. */
  function Warnings(rules: RuleTable, p: Profile, data: seq<IngredientData>): seq<Warning> {
    SortBySeverity(Discovered(rules, p, data, AllConditions(p)))
  }

  /** `analyzeIngredientConflicts`. The result is a permutation of the
      discovered warnings, sorted by decreasing severity, with the warnings
      of each severity in discovery order. */
  method AnalyzeIngredientConflicts(rules: RuleTable, p: Profile, data: seq<IngredientData>) returns (warnings: seq<Warning>)
    ensures warnings == Ranked(Discovered(rules, p, data, AllConditions(p)))
    ensures multiset(warnings) == multiset(Discovered(rules, p, data, AllConditions(p)))
    ensures SortedBySeverity(warnings)
    ensures forall level :: Only(warnings, level) == Only(Discovered(rules, p, data, AllConditions(p)), level)
  {
    var allConditions := CollectConditions(p);
    var discovered := Discover(rules, p, data, allConditions);
    warnings := SortBySeverity(discovered);
    SortIsRanked(discovered);
    RankedIsPermutation(discovered);
    RankedIsSorted(discovered);
    RankedIsStable(discovered);
  }

  /** The nested loops over ingredients and conditions, pushing warnings. */
  method Discover(rules: RuleTable, p: Profile, data: seq<IngredientData>, allConditions: seq<string>) returns (discovered: seq<Warning>)
    ensures discovered == Discovered(rules, p, data, allConditions)
  {
    discovered := [];
    for i := 0 to |data|
      invariant discovered == Discovered(rules, p, data[..i], allConditions)
    {
      var ing := data[i];
      assert data[..i + 1][..i] == data[..i];
      if ing.analysis.None? {
        NoAnalysisNoWarnings(rules, p, ing, allConditions);
      } else {
        for j := 0 to |allConditions|
          invariant discovered == Discovered(rules, p, data[..i], allConditions) + PairWarnings(rules, p, ing, allConditions[..j])
        {
          assert allConditions[..j + 1][..j] == allConditions[..j];
          var found := EvaluatePair(rules, p, ing, allConditions[j]);
          discovered := discovered + OptionToSeq(found);
        }
        assert allConditions[..|allConditions|] == allConditions;
      }
    }
    assert data[..|data|] == data;
  }

  /** The body of the inner loop: the conflict test and its severity for
      one ingredient with an analysis and one condition. */
  method EvaluatePair(rules: RuleTable, p: Profile, ing: IngredientData, condition: string) returns (found: Option<Warning>)
    requires ing.analysis.Some?
    ensures found == PairWarning(rules, p, ing, condition)
  {
    var a := ing.analysis.value;
    var rule := rules(condition);
    found := None;
    if rule.Some? {
      var hasConflict := false;
      var conflictLevel := MEDIUM;
      if TagConflict(rule.value.tags, a.tags) {
        hasConflict := true;
        if condition in p.allergies {
          conflictLevel := HIGH;
        }
      }
      var concern := FindConcern(a.concerns, rule.value.concerns);
      if concern.Some? {
        hasConflict := true;
        conflictLevel := a.concerns[concern.value].level.GetOr(MEDIUM);
      }
      if hasConflict {
        found := Some(Warning(ing.name, condition, conflictLevel,
                              ing.name + ": " + rule.value.message, WarningTypeOf(condition, p)));
      }
    }
  }

  /** The `allConditions` array, built by pushing. */
  method CollectConditions(p: Profile) returns (all: seq<string>)
    ensures all == AllConditions(p)
  {
    all := [];
    for k := 0 to |p.allergies|
      invariant all == p.allergies[..k]
    {
      all := all + [p.allergies[k]];
    }
    for k := 0 to |p.healthConditions|
      invariant all == p.allergies + ConditionLabels(p.healthConditions[..k])
    {
      all := all + [p.healthConditions[k].condition];
    }
    assert p.healthConditions[..|p.healthConditions|] == p.healthConditions;
    for k := 0 to |p.dietaryPreferences|
      invariant all == p.allergies + ConditionLabels(p.healthConditions) + p.dietaryPreferences[..k]
    {
      all := all + [p.dietaryPreferences[k]];
    }
    assert p.dietaryPreferences[..|p.dietaryPreferences|] == p.dietaryPreferences;
  }

  /** An ingredient without `analysis_json` contributes no warning. */
  lemma {:induction false} NoAnalysisNoWarnings(rules: RuleTable, p: Profile, ing: IngredientData, conditions: seq<string>)
    requires ing.analysis.None?
    ensures PairWarnings(rules, p, ing, conditions) == []
    decreases |conditions|
  {
    if conditions != [] {
      NoAnalysisNoWarnings(rules, p, ing, conditions[..|conditions| - 1]);
    }
  }

  // ---------------------------------------------------------------------
  // Warnings per (ingredient, condition) pair

  /** Each condition occurrence adds at most one warning per ingredient, and
      each warning comes from an occurrence it names. */
  lemma {:induction false} PairWarningsBound(rules: RuleTable, p: Profile, ing: IngredientData, conditions: seq<string>)
    ensures |PairWarnings(rules, p, ing, conditions)| <= |conditions|
    ensures forall w :: w in PairWarnings(rules, p, ing, conditions) ==>
              w.ingredient == ing.name && w.condition in conditions && rules(w.condition).Some?
    decreases |conditions|
  {
    if conditions != [] {
      var init := conditions[..|conditions| - 1];
      PairWarningsBound(rules, p, ing, init);
      forall w | w in PairWarnings(rules, p, ing, init)
        ensures w.condition in conditions
      {
        assert w.condition in init;
      }
    }
  }

  /** At most one warning per (ingredient, condition occurrence) pair. */
  lemma {:induction false} DiscoveredBound(rules: RuleTable, p: Profile, data: seq<IngredientData>, conditions: seq<string>)
    ensures |Discovered(rules, p, data, conditions)| <= |data| * |conditions|
    decreases |data|
  {
    if data != [] {
      DiscoveredBound(rules, p, data[..|data| - 1], conditions);
      PairWarningsBound(rules, p, data[|data| - 1], conditions);
      assert |data| * |conditions| == (|data| - 1) * |conditions| + |conditions|;
    }
  }

  /** Conditions the rule table does not know contribute nothing. */
  lemma {:induction false} UnknownConditionsIgnored(rules: RuleTable, p: Profile, ing: IngredientData, conditions: seq<string>, extra: seq<string>)
    requires forall k :: 0 <= k < |extra| ==> rules(extra[k]).None?
    ensures PairWarnings(rules, p, ing, conditions + extra) == PairWarnings(rules, p, ing, conditions)
    decreases |extra|
  {
    if extra != [] {
      var init := extra[..|extra| - 1];
      assert (conditions + extra)[..|conditions + extra| - 1] == conditions + init;
      assert (conditions + extra)[|conditions + extra| - 1] == extra[|extra| - 1];
      UnknownConditionsIgnored(rules, p, ing, conditions, init);
    } else {
      assert conditions + extra == conditions;
    }
  }

  /** The per-pair loop works condition by condition. */
  lemma {:induction false} PairWarningsConcat(rules: RuleTable, p: Profile, ing: IngredientData, a: seq<string>, b: seq<string>)
    ensures PairWarnings(rules, p, ing, a + b) == PairWarnings(rules, p, ing, a) + PairWarnings(rules, p, ing, b)
    decreases |b|
  {
    if b == [] {
      assert a + b == a;
    } else {
      var init := b[..|b| - 1];
      assert (a + b)[..|a + b| - 1] == a + init;
      assert (a + b)[|a + b| - 1] == b[|b| - 1];
      PairWarningsConcat(rules, p, ing, a, init);
    }
  }

  /** Conditions without a rule contribute nothing wherever they stand in
      the list. */
  lemma UnknownConditionsAnywhere(rules: RuleTable, p: Profile, ing: IngredientData, a: seq<string>, extra: seq<string>, b: seq<string>)
    requires forall k :: 0 <= k < |extra| ==> rules(extra[k]).None?
    ensures PairWarnings(rules, p, ing, a + extra + b) == PairWarnings(rules, p, ing, a + b)
  {
    PairWarningsConcat(rules, p, ing, a + extra, b);
    UnknownConditionsIgnored(rules, p, ing, a, extra);
    PairWarningsConcat(rules, p, ing, a, b);
  }

  /** The same for all ingredients: unknown conditions anywhere in the
      collected list leave the discovered warnings as they are. */
  lemma {:induction false} DiscoveredIgnoresUnknown(rules: RuleTable, p: Profile, data: seq<IngredientData>, a: seq<string>, extra: seq<string>, b: seq<string>)
    requires forall k :: 0 <= k < |extra| ==> rules(extra[k]).None?
    ensures Discovered(rules, p, data, a + extra + b) == Discovered(rules, p, data, a + b)
    decreases |data|
  {
    if data != [] {
      DiscoveredIgnoresUnknown(rules, p, data[..|data| - 1], a, extra, b);
      UnknownConditionsAnywhere(rules, p, data[|data| - 1], a, extra, b);
    }
  }

  /** With no tag or concern overlap between any ingredient and the rules of
      the profile's conditions, there is no warning and the verdict is good. */
  lemma {:induction false} NoOverlapNoWarnings(rules: RuleTable, p: Profile, data: seq<IngredientData>, conditions: seq<string>)
    requires forall i, c :: (0 <= i < |data| && c in conditions && data[i].analysis.Some?
                             && rules(c).Some?) ==>
                 && !TagConflict(rules(c).value.tags, data[i].analysis.value.tags)
                 && FindConcern(data[i].analysis.value.concerns, rules(c).value.concerns).None?
    ensures Discovered(rules, p, data, conditions) == []
    ensures GenerateOverallSummary(Discovered(rules, p, data, conditions)).status == Good
    decreases |data|
  {
    if data != [] {
      var init := data[..|data| - 1];
      assert forall i :: 0 <= i < |init| ==> init[i] == data[i];
      NoOverlapNoWarnings(rules, p, init, conditions);
      NoOverlapPair(rules, p, data[|data| - 1], conditions, conditions);
    }
  }

  lemma {:induction false} NoOverlapPair(rules: RuleTable, p: Profile, ing: IngredientData, conditions: seq<string>, all: seq<string>)
    requires forall c :: c in conditions ==> c in all
    requires forall c :: c in all && ing.analysis.Some? && rules(c).Some? ==>
               && !TagConflict(rules(c).value.tags, ing.analysis.value.tags)
               && FindConcern(ing.analysis.value.concerns, rules(c).value.concerns).None?
    ensures PairWarnings(rules, p, ing, conditions) == []
    decreases |conditions|
  {
    if conditions != [] {
      var init := conditions[..|conditions| - 1];
      assert forall c :: c in init ==> c in conditions;
      NoOverlapPair(rules, p, ing, init, all);
      assert conditions[|conditions| - 1] in conditions;
    }
  }

  // ---------------------------------------------------------------------
  // Severity

  /** A tag conflict on an allergy whose rule has no concern labels is
      always HIGH. */
  lemma AllergyTagConflictIsHigh(rules: RuleTable, p: Profile, ing: IngredientData, condition: string)
    requires ing.analysis.Some? && condition in p.allergies
    requires rules(condition).Some? && rules(condition).value.concerns == []
    requires TagConflict(rules(condition).value.tags, ing.analysis.value.tags)
    ensures PairWarning(rules, p, ing, condition).Some?
    ensures PairWarning(rules, p, ing, condition).value.level == HIGH
    ensures PairWarning(rules, p, ing, condition).value.kind == AllergyWarning
  {
  }

  /** The first concern of the analysis that matches a concern label of the
      rule decides the severity: its own level, or MEDIUM when it has none,
      whatever the condition and the tags. */
  lemma {:induction false} FirstConcernSetsLevel(p: Profile, condition: string, rule: Rule, a: Analysis, k: nat)
    requires k < |a.concerns| && ConcernMatches(a.concerns[k], rule.concerns)
    requires forall i :: 0 <= i < k ==> !ConcernMatches(a.concerns[i], rule.concerns)
    ensures ConflictLevel(p, condition, rule, a) == a.concerns[k].level.GetOr(MEDIUM)
  {
    var f := FindConcern(a.concerns, rule.concerns);
    assert f.Some?;
  }

  /** As written, a matching concern's level overwrites the HIGH severity of
      an allergy tag conflict (reachable only for a rule with concern labels,
      which no allergen rule has). */
  lemma {:induction false} ConcernOverridesAllergy(p: Profile, condition: string, rule: Rule, a: Analysis, k: nat)
    requires condition in p.allergies && TagConflict(rule.tags, a.tags)
    requires k < |a.concerns| && ConcernMatches(a.concerns[k], rule.concerns)
    requires forall i :: 0 <= i < k ==> !ConcernMatches(a.concerns[i], rule.concerns)
    ensures ConflictLevel(p, condition, rule, a) == a.concerns[k].level.GetOr(MEDIUM)
  {
    FirstConcernSetsLevel(p, condition, rule, a, k);
  }

  /** Only a matching concern that says LOW can make a warning LOW. */
  lemma LowNeedsLowConcern(p: Profile, condition: string, rule: Rule, a: Analysis)
    requires ConflictLevel(p, condition, rule, a) == LOW
    ensures exists k :: 0 <= k < |a.concerns| && ConcernMatches(a.concerns[k], rule.concerns)
              && a.concerns[k].level == Some(LOW)
  {
    var k := FindConcern(a.concerns, rule.concerns).value;
    assert ConcernMatches(a.concerns[k], rule.concerns);
  }

  /** Every condition the engine iterates over has a specific warning type. */
  lemma CollectedConditionsAreTyped(p: Profile, condition: string)
    requires condition in AllConditions(p)
    ensures WarningTypeOf(condition, p) != GeneralWarning
  {
  }

  // ---------------------------------------------------------------------
  // Ranking

  lemma Assoc(a: seq<Warning>, b: seq<Warning>, c: seq<Warning>)
    ensures a + (b + c) == (a + b) + c
  {
  }

  /** Insertion passes over warnings of strictly higher priority. */
  lemma {:induction false} InsertSkip(w: Warning, a: seq<Warning>, b: seq<Warning>)
    requires forall k :: 0 <= k < |a| ==> Priority(a[k].level) > Priority(w.level)
    ensures Insert(w, a + b) == a + Insert(w, b)
    decreases |a|
  {
    if a == [] {
      assert a + b == b;
    } else {
      var ab := a + b;
      assert ab[0] == a[0];
      assert ab[1..] == a[1..] + b;
      InsertSkip(w, a[1..], b);
      Assoc([a[0]], a[1..], Insert(w, b));
      assert [a[0]] + a[1..] == a;
    }
  }

  lemma InsertHere(w: Warning, b: seq<Warning>)
    requires b == [] || Priority(b[0].level) <= Priority(w.level)
    ensures Insert(w, b) == [w] + b
  {
  }

  /** The stable sort produces exactly the ranking. */
  lemma {:induction false} SortIsRanked(ws: seq<Warning>)
    ensures SortBySeverity(ws) == Ranked(ws)
    decreases |ws|
  {
    if ws != [] {
      var w, rest := ws[0], ws[1..];
      SortIsRanked(rest);
      var h, m, l := Only(rest, HIGH), Only(rest, MEDIUM), Only(rest, LOW);
      assert SortBySeverity(ws) == Insert(w, h + (m + l));
      match w.level {
        case HIGH =>
          InsertHere(w, h + (m + l));
          Assoc([w], h, m + l);
        case MEDIUM =>
          InsertSkip(w, h, m + l);
          assert m + l == [] || (m + l)[0].level != HIGH by {
            if m != [] { assert (m + l)[0] == m[0]; } else { assert m + l == l; }
          }
          InsertHere(w, m + l);
          Assoc([w], m, l);
        case LOW =>
          InsertSkip(w, h, m + l);
          InsertSkip(w, m, l);
          InsertHere(w, l);
      }
    }
  }

  /** Every warning is in exactly one group. */
  lemma {:induction false} GroupsPermutation(ws: seq<Warning>)
    ensures multiset(Only(ws, HIGH)) + multiset(Only(ws, MEDIUM)) + multiset(Only(ws, LOW)) == multiset(ws)
    decreases |ws|
  {
    if ws != [] {
      var w, rest := ws[0], ws[1..];
      GroupsPermutation(rest);
      assert ws == [w] + rest;
      assert multiset(Only(ws, w.level)) == multiset{w} + multiset(Only(rest, w.level));
      forall level | level != w.level ensures Only(ws, level) == Only(rest, level) {
      }
    }
  }

  /** The ranking is a permutation of the discovered warnings. */
  lemma RankedIsPermutation(ws: seq<Warning>)
    ensures multiset(Ranked(ws)) == multiset(ws)
  {
    GroupsPermutation(ws);
  }

  /** The ranking is sorted by decreasing severity. */
  lemma RankedIsSorted(ws: seq<Warning>)
    ensures SortedBySeverity(Ranked(ws))
  {
    var h, m, l := Only(ws, HIGH), Only(ws, MEDIUM), Only(ws, LOW);
    var r := Ranked(ws);
    forall i | 0 <= i < |r|
      ensures Priority(r[i].level) == if i < |h| then 3 else if i < |h| + |m| then 2 else 1
    {
      if i < |h| { assert r[i] == h[i]; }
      else if i < |h| + |m| { assert r[i] == (m + l)[i - |h|] == m[i - |h|]; }
      else { assert r[i] == (m + l)[i - |h|] == l[i - |h| - |m|]; }
    }
  }

  lemma {:induction false} OnlyConcat(a: seq<Warning>, b: seq<Warning>, level: Severity)
    ensures Only(a + b, level) == Only(a, level) + Only(b, level)
    decreases |a|
  {
    if a == [] {
      assert a + b == b;
    } else {
      var ab := a + b;
      assert ab[0] == a[0];
      assert ab[1..] == a[1..] + b;
      OnlyConcat(a[1..], b, level);
      Assoc([a[0]], Only(a[1..], level), Only(b, level));
    }
  }

  lemma {:induction false} OnlyOfOnly(ws: seq<Warning>, kept: Severity, level: Severity)
    ensures Only(Only(ws, kept), level) == if kept == level then Only(ws, level) else []
    decreases |ws|
  {
    if ws != [] {
      OnlyOfOnly(ws[1..], kept, level);
      if ws[0].level == kept {
        var o := Only(ws, kept);
        assert o == [ws[0]] + Only(ws[1..], kept);
        assert o[0] == ws[0] && o[1..] == Only(ws[1..], kept);
      }
    }
  }

  /** Stability: within each severity, the ranking keeps discovery order. */
  lemma RankedIsStable(ws: seq<Warning>)
    ensures forall level :: Only(Ranked(ws), level) == Only(ws, level)
  {
    forall level ensures Only(Ranked(ws), level) == Only(ws, level) {
      var h, m, l := Only(ws, HIGH), Only(ws, MEDIUM), Only(ws, LOW);
      OnlyConcat(h, m + l, level);
      OnlyConcat(m, l, level);
      OnlyOfOnly(ws, HIGH, level);
      OnlyOfOnly(ws, MEDIUM, level);
      OnlyOfOnly(ws, LOW, level);
      var x := Only(ws, level);
      assert x + ([] + []) == x && [] + (x + []) == x && [] + ([] + x) == x;
    }
  }

  // ---------------------------------------------------------------------
  // Overall summary

  datatype Status = Good | NotRecommended | Caution | MinorConcerns

  datatype Summary = Summary(status: Status, message: string, color: string)

  function Plural(n: nat): string {
    if n > 1 then "s" else ""
  }

  /** `generateOverallSummary`. */
  function GenerateOverallSummary(ws: seq<Warning>): (r: Summary)
    ensures r.status == Good <==> ws == []
    ensures r.status == NotRecommended <==> exists k :: 0 <= k < |ws| && ws[k].level == HIGH
    ensures r.status == Caution <==>
      (forall k :: 0 <= k < |ws| ==> ws[k].level != HIGH) && |Only(ws, MEDIUM)| > 2
    ensures r.status == MinorConcerns <==>
      ws != [] && (forall k :: 0 <= k < |ws| ==> ws[k].level != HIGH) && |Only(ws, MEDIUM)| <= 2
    ensures r.status == NotRecommended ==>
      r.message == "Not recommended - contains " + NatToString(|Only(ws, HIGH)|) + " serious concern"
                   + Plural(|Only(ws, HIGH)|) + " for your health profile."
    ensures r.status == Caution ==>
      r.message == "Use caution - contains " + NatToString(|ws|) + " ingredient" + Plural(|ws|)
                   + " that may conflict with your health profile."
  {
    OnlyEmpty(ws, HIGH);
    if |ws| == 0 then
      Summary(Good, "This product appears suitable for your health profile.", "green")
    else
      var high := |Only(ws, HIGH)|;
      var medium := |Only(ws, MEDIUM)|;
      if high > 0 then
        Summary(NotRecommended, "Not recommended - contains " + NatToString(high) + " serious concern"
                                + Plural(high) + " for your health profile.", "red")
      else if medium > 2 then
        Summary(Caution, "Use caution - contains " + NatToString(|ws|) + " ingredient" + Plural(|ws|)
                         + " that may conflict with your health profile.", "orange")
      else
        Summary(MinorConcerns, "Generally okay - minor concerns with " + NatToString(|ws|) + " ingredient"
                               + Plural(|ws|) + ".", "yellow")
  }

  /** Removing one warning from a list removes it from its group. */
  lemma OnlyRemove(b: seq<Warning>, k: nat, level: Severity)
    requires k < |b|
    ensures |Only(b, level)| == |Only(b[..k] + b[k + 1..], level)| + (if b[k].level == level then 1 else 0)
  {
    var tail := [b[k]] + b[k + 1..];
    assert b == b[..k] + tail;
    OnlyConcat(b[..k], tail, level);
    assert tail[0] == b[k] && tail[1..] == b[k + 1..];
    OnlyConcat(b[..k], b[k + 1..], level);
  }

  lemma MultisetRemove(b: seq<Warning>, k: nat)
    requires k < |b|
    ensures multiset(b[..k] + b[k + 1..]) == multiset(b) - multiset{b[k]}
  {
    assert b == b[..k] + [b[k]] + b[k + 1..];
  }

  lemma {:induction false} OnlyCountPermutation(a: seq<Warning>, b: seq<Warning>, level: Severity)
    requires multiset(a) == multiset(b)
    ensures |Only(a, level)| == |Only(b, level)|
    decreases |a|
  {
    if a == [] {
      assert |b| == |multiset(b)| == 0;
    } else {
      var x := a[0];
      assert x in multiset(b);
      var k :| 0 <= k < |b| && b[k] == x;
      MultisetRemove(b, k);
      assert a == [x] + a[1..];
      assert multiset(a[1..]) == multiset(a) - multiset{x};
      OnlyCountPermutation(a[1..], b[..k] + b[k + 1..], level);
      OnlyRemove(b, k, level);
    }
  }

  /** The verdict depends only on the multiset of warnings, so it is the
      same before and after ranking and can be recomputed from a stored
      list in any order. */
  lemma SummaryPermutationInvariant(a: seq<Warning>, b: seq<Warning>)
    requires multiset(a) == multiset(b)
    ensures GenerateOverallSummary(a) == GenerateOverallSummary(b)
  {
    OnlyCountPermutation(a, b, HIGH);
    OnlyCountPermutation(a, b, MEDIUM);
    assert |a| == |multiset(a)| == |multiset(b)| == |b|;
  }
}
