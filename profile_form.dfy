/** The health-profile form: the list toggles behind the check boxes, the
    accordion that keeps at most one section open, the nested (per
    category) and flat forms of the health conditions, the condition count,
    and the guards in front of the save request. */
module ProfileForm {
  import opened Wrappers
  import opened JsObject
  import RulesEngine

  /** The keys of `nutritionConditions` and of `expandedSections`, in
      declaration order. */
  const CategoryKeys: seq<string> :=
    ["undernutrition", "micronutrientDeficiency", "overnutrition", "chronicDiseases", "lifestyle", "specialNeeds"]

  /** `nutritionConditions`: the selected condition names of each category,
      in the order of `CategoryKeys`. */
  type Nested = n: seq<seq<string>> | |n| == 6 witness [[], [], [], [], [], []]

  const NoConditions: Nested := [[], [], [], [], [], []]

  lemma CategoryKeysDistinct()
    ensures |CategoryKeys| == 6
    ensures forall i, j :: 0 <= i < j < 6 ==> CategoryKeys[i] != CategoryKeys[j]
  {
  }

  lemma SameKey(i: nat, j: nat)
    requires i < 6 && j < 6
    ensures CategoryKeys[i] == CategoryKeys[j] <==> i == j
  {
    CategoryKeysDistinct();
  }

  /** The position of `category` among the keys, if it is one. */
  function CategoryIndex(category: string): (r: int)
    ensures -1 <= r < 6
    ensures r >= 0 ==> CategoryKeys[r] == category
    ensures r == -1 <==> category !in CategoryKeys
  {
    if category == "undernutrition" then 0
    else if category == "micronutrientDeficiency" then 1
    else if category == "overnutrition" then 2
    else if category == "chronicDiseases" then 3
    else if category == "lifestyle" then 4
    else if category == "specialNeeds" then 5
    else -1
  }

  // ---------------------------------------------------------------------
  // The check-box toggles

  /** `xs.filter(item => item !== x)`. */
  function Without(xs: seq<string>, x: string): (r: seq<string>)
    ensures x !in r
    ensures forall y :: y != x ==> multiset(r)[y] == multiset(xs)[y]
    ensures |r| == |xs| - multiset(xs)[x]
  {
    if xs == [] then []
    else
      assert xs == [xs[0]] + xs[1..];
      (if xs[0] != x then [xs[0]] else []) + Without(xs[1..], x)
  }

  /** `prev.includes(x) ? prev.filter(item => item !== x) : [...prev, x]`,
      the update of `handleAllergyChange` and, per category, of
      `handleNutritionConditionChange`. A present item is removed with all
      its copies and every other item keeps its count; an absent one is
      appended. */
  function Toggle(xs: seq<string>, x: string): (r: seq<string>)
    ensures x in xs ==> x !in r && forall y :: y != x ==> multiset(r)[y] == multiset(xs)[y]
    ensures x !in xs ==> r == xs + [x]
  {
    if x in xs then Without(xs, x) else xs + [x]
  }

  /** Removing an item keeps the order of the others: the filter works
      piece by piece. */
  lemma {:induction false} WithoutConcat(a: seq<string>, b: seq<string>, x: string)
    ensures Without(a + b, x) == Without(a, x) + Without(b, x)
    decreases |a|
  {
    if a == [] {
      assert a + b == b;
    } else {
      assert (a + b)[0] == a[0] && (a + b)[1..] == a[1..] + b;
      WithoutConcat(a[1..], b, x);
    }
  }

  lemma {:induction false} WithoutAbsent(xs: seq<string>, x: string)
    requires x !in xs
    ensures Without(xs, x) == xs
    decreases |xs|
  {
    if xs != [] {
      WithoutAbsent(xs[1..], x);
    }
  }

  /** Ticking an unticked box and unticking it again restores the list. */
  lemma ToggleTwice(xs: seq<string>, x: string)
    requires x !in xs
    ensures Toggle(Toggle(xs, x), x) == xs
  {
    WithoutConcat(xs, [x], x);
    WithoutAbsent(xs, x);
  }

  /** Unticking a ticked box and ticking it again moves it to the end. */
  lemma ToggleTwicePresent(xs: seq<string>, x: string)
    requires x in xs
    ensures Toggle(Toggle(xs, x), x) == Without(xs, x) + [x]
  {
  }

  /** `handleNutritionConditionChange(category, conditionName)`: the
      toggle applied to that category; every other category is unchanged.
      The check boxes pass only the six keys. */
  function HandleNutritionConditionChange(n: Nested, category: string, conditionName: string): (r: Nested)
    requires category in CategoryKeys
    ensures forall i :: 0 <= i < 6 && CategoryKeys[i] != category ==> r[i] == n[i]
    ensures r[CategoryIndex(category)] == Toggle(n[CategoryIndex(category)], conditionName)
  {
    var i := CategoryIndex(category);
    n[i := Toggle(n[i], conditionName)]
  }

  // ---------------------------------------------------------------------
  // The accordion

  /** At most one section is open. */
  predicate AtMostOneOpen(sections: seq<Entry<bool>>) {
    forall i, j :: 0 <= i < |sections| && 0 <= j < |sections| && sections[i].value && sections[j].value ==> i == j
  }

  /** `toggleSection(section)`: the keys of the previous state are visited
      in order and the accumulator gets, for each, the negated flag of
      `section` or `false`. */
  method ToggleSection(prev: seq<Entry<bool>>, section: string) returns (next: seq<Entry<bool>>)
    requires DistinctKeys(prev)
    ensures |next| == |prev| && DistinctKeys(next)
    ensures forall i :: 0 <= i < |prev| ==> next[i].key == prev[i].key
    ensures forall i :: 0 <= i < |prev| ==> (next[i].value <==> prev[i].key == section && !prev[i].value)
    ensures AtMostOneOpen(next)
  {
    next := [];
    for i := 0 to |prev|
      invariant |next| == i
      invariant forall k :: 0 <= k < i ==> next[k] == Entry(prev[k].key, prev[k].key == section && !prev[k].value)
    {
      var key := prev[i].key;
      assert !HasKey(next, key);
      ghost var before := next;
      next := Set(next, key, key == section && !prev[i].value);
      assert next == before + [Entry(key, key == section && !prev[i].value)];
    }
  }

  // ---------------------------------------------------------------------
  // Nested and flat conditions

  /** The conditions of `category` in a flat list, in order. */
  function ConditionsOf(flat: seq<RulesEngine.HealthCondition>, category: string): (r: seq<string>)
    ensures |r| <= |flat|
  {
    if flat == [] then []
    else
      var last := flat[|flat| - 1];
      ConditionsOf(flat[..|flat| - 1], category) + (if last.category == category then [last.condition] else [])
  }

  /** The nested form of a flat list: each category's conditions in order;
      entries of any other category are dropped. */
  function Grouped(flat: seq<RulesEngine.HealthCondition>): (r: Nested)
    ensures forall i :: 0 <= i < 6 ==> r[i] == ConditionsOf(flat, CategoryKeys[i])
  {
    seq(6, i requires 0 <= i < 6 => ConditionsOf(flat, CategoryKeys[i]))
  }

  /** Loading a stored profile: each `health_conditions` entry is pushed
      onto the list of its category, if that is one of the six. */
  method LoadConditions(healthConditions: seq<RulesEngine.HealthCondition>) returns (conditions: Nested)
    ensures conditions == Grouped(healthConditions)
  {
    conditions := NoConditions;
    for k := 0 to |healthConditions|
      invariant forall i :: 0 <= i < 6 ==> conditions[i] == ConditionsOf(healthConditions[..k], CategoryKeys[i])
    {
      var hc := healthConditions[k];
      assert healthConditions[..k + 1][..k] == healthConditions[..k];
      var i := CategoryIndex(hc.category);
      if i >= 0 {
        conditions := conditions[i := conditions[i] + [hc.condition]];
      }
    }
    assert healthConditions[..|healthConditions|] == healthConditions;
  }

  /** The entries of one category. */
  function Tagged(category: string, conditions: seq<string>): (r: seq<RulesEngine.HealthCondition>)
    ensures |r| == |conditions|
    ensures forall k :: 0 <= k < |conditions| ==> r[k] == RulesEngine.HealthCondition(category, conditions[k])
  {
    seq(|conditions|, k requires 0 <= k < |conditions| => RulesEngine.HealthCondition(category, conditions[k]))
  }

  /** The entries of the first `c` categories, in key order. */
  function FlatUpTo(n: Nested, c: nat): seq<RulesEngine.HealthCondition>
    requires c <= 6
  {
    if c == 0 then [] else FlatUpTo(n, c - 1) + Tagged(CategoryKeys[c - 1], n[c - 1])
  }

  /** The flat `health_conditions` of the save request. */
  function Flat(n: Nested): seq<RulesEngine.HealthCondition> {
    FlatUpTo(n, 6)
  }

  /** Submitting: every category's conditions, in key order, each pushed as
      `{ category, condition }`. */
  method FlattenConditions(n: Nested) returns (healthConditions: seq<RulesEngine.HealthCondition>)
    ensures healthConditions == Flat(n)
  {
    healthConditions := [];
    for c := 0 to 6
      invariant healthConditions == FlatUpTo(n, c)
    {
      var category := CategoryKeys[c];
      for k := 0 to |n[c]|
        invariant healthConditions == FlatUpTo(n, c) + Tagged(category, n[c][..k])
      {
        healthConditions := healthConditions + [RulesEngine.HealthCondition(category, n[c][k])];
      }
      assert n[c][..|n[c]|] == n[c];
    }
  }

  lemma {:induction false} ConditionsOfConcat(a: seq<RulesEngine.HealthCondition>, b: seq<RulesEngine.HealthCondition>,
                                              category: string)
    ensures ConditionsOf(a + b, category) == ConditionsOf(a, category) + ConditionsOf(b, category)
    decreases |b|
  {
    if b == [] {
      assert a + b == a;
    } else {
      assert (a + b)[..|a + b| - 1] == a + b[..|b| - 1];
      assert (a + b)[|a + b| - 1] == b[|b| - 1];
      ConditionsOfConcat(a, b[..|b| - 1], category);
    }
  }

  lemma {:induction false} ConditionsOfTagged(tag: string, conditions: seq<string>, category: string)
    ensures ConditionsOf(Tagged(tag, conditions), category) == if tag == category then conditions else []
    decreases |conditions|
  {
    if conditions != [] {
      var init := conditions[..|conditions| - 1];
      assert Tagged(tag, conditions)[..|conditions| - 1] == Tagged(tag, init);
      ConditionsOfTagged(tag, init, category);
    }
  }

  lemma {:induction false} ConditionsOfFlatUpTo(n: Nested, c: nat, i: nat)
    requires c <= 6 && i < 6
    ensures ConditionsOf(FlatUpTo(n, c), CategoryKeys[i]) == if i < c then n[i] else []
  {
    if c > 0 {
      var key := CategoryKeys[i];
      ConditionsOfFlatUpTo(n, c - 1, i);
      ConditionsOfConcat(FlatUpTo(n, c - 1), Tagged(CategoryKeys[c - 1], n[c - 1]), key);
      ConditionsOfTagged(CategoryKeys[c - 1], n[c - 1], key);
      SameKey(c - 1, i);
    }
  }

  /** Loading what was submitted gives the form's conditions back:
      nested, then flat, then nested is the identity. */
  lemma GroupedFlat(n: Nested)
    ensures Grouped(Flat(n)) == n
  {
    forall i | 0 <= i < 6 ensures Grouped(Flat(n))[i] == n[i] {
      ConditionsOfFlatUpTo(n, 6, i);
    }
  }

  /** The flat list is ordered by category: every entry of an earlier key
      comes before every entry of a later one. */
  lemma {:induction false} FlatUpToCategories(n: Nested, c: nat)
    requires c <= 6
    ensures forall k :: 0 <= k < |FlatUpTo(n, c)| ==> 0 <= CategoryIndex(FlatUpTo(n, c)[k].category) < c
    ensures forall k, l :: 0 <= k < l < |FlatUpTo(n, c)| ==>
              CategoryIndex(FlatUpTo(n, c)[k].category) <= CategoryIndex(FlatUpTo(n, c)[l].category)
  {
    if c > 0 {
      FlatUpToCategories(n, c - 1);
      var prefix := FlatUpTo(n, c - 1);
      var tail := Tagged(CategoryKeys[c - 1], n[c - 1]);
      assert FlatUpTo(n, c) == prefix + tail;
      assert forall k :: 0 <= k < |tail| ==> CategoryIndex(tail[k].category) == c - 1;
    }
  }

  // ---------------------------------------------------------------------
  // The condition count

  /** The lengths of the first `c` lists, added up. */
  function SumUpTo(n: Nested, c: nat): nat
    requires c <= 6
  {
    if c == 0 then 0 else SumUpTo(n, c - 1) + |n[c - 1]|
  }

  /** `getTotalConditions`: the lengths of all six lists, added up. The
      count shown is the number of entries the save request holds. */
  function GetTotalConditions(n: Nested): (total: nat)
    ensures total == |Flat(n)|
  {
    SumIsFlatLength(n, 6);
    SumUpTo(n, 6)
  }

  lemma {:induction false} SumIsFlatLength(n: Nested, c: nat)
    requires c <= 6
    ensures SumUpTo(n, c) == |FlatUpTo(n, c)|
  {
    if c > 0 {
      SumIsFlatLength(n, c - 1);
    }
  }

  // ---------------------------------------------------------------------
  // Load and submit

  /** The fields of the form that reach the save request. */
  datatype FormState = FormState(
    ageGroup: string,
    activityLevel: string,
    allergies: seq<string>,
    conditions: Nested,
    additionalInfo: string)

  /** The `profileData` object sent to the profile service. */
  datatype ProfileData = ProfileData(
    ageGroup: string,
    activityLevel: string,
    allergies: seq<string>,
    healthConditions: seq<RulesEngine.HealthCondition>,
    dietaryPreferences: seq<string>,
    additionalInfo: string)

  /** Loading an existing profile into the form; absent strings and arrays
      read as empty. */
  function LoadForm(existing: ProfileData): FormState {
    FormState(existing.ageGroup, existing.activityLevel, existing.allergies, Grouped(existing.healthConditions),
              existing.additionalInfo)
  }

  datatype SubmitOutcome = SubmitError(message: string) | SaveProfile(data: ProfileData)

  const MissingAgeMessage := "Please select your age group"
  const MissingActivityMessage := "Please select your activity level"

  /** `handleSubmit` up to the save request: a missing age group, checked
      first, or a missing activity level sets the error and sends nothing;
      otherwise the request carries the flattened conditions and no dietary
      preferences, and loading it gives the form back. */
  function HandleSubmit(form: FormState): (r: SubmitOutcome)
    ensures r.SubmitError? <==> form.ageGroup == "" || form.activityLevel == ""
    ensures form.ageGroup == "" ==> r == SubmitError(MissingAgeMessage)
    ensures form.ageGroup != "" && form.activityLevel == "" ==> r == SubmitError(MissingActivityMessage)
    ensures r.SaveProfile? ==> r.data.dietaryPreferences == [] && LoadForm(r.data) == form
    ensures r.SaveProfile? ==> |r.data.healthConditions| == GetTotalConditions(form.conditions)
  {
    if form.ageGroup == "" then SubmitError(MissingAgeMessage)
    else if form.activityLevel == "" then SubmitError(MissingActivityMessage)
    else
      GroupedFlat(form.conditions);
      SaveProfile(ProfileData(form.ageGroup, form.activityLevel, form.allergies, Flat(form.conditions), [],
                              form.additionalInfo))
  }

  /** The profile the rules engine reads from a saved form. */
  function EngineProfile(data: ProfileData): RulesEngine.Profile {
    RulesEngine.Profile(data.ageGroup, data.allergies, data.healthConditions, data.dietaryPreferences)
  }

  /** The form never sends dietary preferences, so for a profile it saved
      even the lifestyle choices are typed as health conditions. */
  lemma SubmittedConditionsAreHealthConditions(form: FormState, condition: string)
    requires HandleSubmit(form).SaveProfile?
    requires condition !in form.allergies
    requires exists k :: 0 <= k < |form.conditions[4]| && form.conditions[4][k] == condition
    ensures RulesEngine.WarningTypeOf(condition, EngineProfile(HandleSubmit(form).data))
         == RulesEngine.HealthConditionWarning
  {
    var data := HandleSubmit(form).data;
    var k :| 0 <= k < |form.conditions[4]| && form.conditions[4][k] == condition;
    var prefix := FlatUpTo(form.conditions, 4);
    assert FlatUpTo(form.conditions, 5) == prefix + Tagged("lifestyle", form.conditions[4]);
    assert Flat(form.conditions) == FlatUpTo(form.conditions, 5) + Tagged("specialNeeds", form.conditions[5]);
    assert data.healthConditions[|prefix| + k].condition == condition;
  }

  // ---------------------------------------------------------------------
  // The answer to the save request

  /** What the profile service answers: the stored profile, or a failure
      that may carry a server message. */
  datatype SaveResponse = Saved(profile: ProfileData) | SaveFailed(serverMessage: Option<string>)

  datatype SaveOutcome = ProfileSaved(profile: ProfileData) | SaveError(message: string)

  const SaveFailedMessage := "Failed to save profile. Please try again."

  /** The rest of `handleSubmit`: on success the stored profile is handed
      to `onProfileSaved`; on failure the server's message is shown, or the
      fixed one when there is none or it is empty. */
  function OnSaveResponse(response: SaveResponse): (r: SaveOutcome)
    ensures response.Saved? <==> r.ProfileSaved?
    ensures response.Saved? ==> r.profile == response.profile
    ensures response.SaveFailed? ==> r.message != ""
    ensures response.SaveFailed? && response.serverMessage.Some? && response.serverMessage.value != "" ==>
              r.message == response.serverMessage.value
    ensures response.SaveFailed? && (response.serverMessage.None? || response.serverMessage.value == "") ==>
              r.message == SaveFailedMessage
  {
    match response
    case Saved(profile) => ProfileSaved(profile)
    case SaveFailed(message) =>
      SaveError(if message.Some? && message.value != "" then message.value else SaveFailedMessage)
  }
}
