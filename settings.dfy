/**
 * The profile form of the settings page (src/app/settings/page.tsx): six
 * comma-separated list fields, two number fields and four selects, each
 * handler replacing one key of the profile. Loading and saving the profile
 * through the database is not modelled.
 */
module Settings {
  import opened Common
  import opened Profile
  import opened CommaList

  /** The keys edited through a select. */
  const SelectFields: set<Field> := {ActivityLevel, CookingExperience, MealPlanPreference, CookingTime}

  /** The form's profile before the stored one arrives: empty lists, everything else undefined. */
  const Initial: UserProfile :=
    Empty.(dietaryPreferences := Some([]), allergies := Some([]), healthGoals := Some([]),
           medicalConditions := Some([]), favoriteCuisines := Some([]), dislikedIngredients := Some([]))

  /** The option values of each select, the empty placeholder first. */
  const ActivityOptions: seq<string> := ["", "sedentary", "light", "moderate", "active", "very_active"]
  const ExperienceOptions: seq<string> := ["", "beginner", "intermediate", "advanced"]
  const MealPlanOptions: seq<string> := ["", "balanced", "high_protein", "low_carb", "vegetarian", "vegan"]
  const CookingTimeOptions: seq<string> := ["", "quick", "moderate", "lengthy"]

  /** The text a list field shows. */
  function ShownList(p: UserProfile, f: Field): (text: string)
    requires f in ListFields
    ensures Get(p, f).items.None? ==> text == []
  {
    Render(Get(p, f).items)
  }

  /** A list field's change handler: the typed text parsed into the field. */
  function EditList(p: UserProfile, f: Field, text: string): (r: UserProfile)
    requires f in ListFields
    ensures Get(r, f) == List(Some(Parse(text)))
    ensures SameExcept(r, p, f)
  {
    Set(p, f, List(Some(Parse(text))))
  }

  /** `handleNumberInput`: empty text stores `undefined`, other text its parsed number. */
  function SetNumber(p: UserProfile, f: Field, text: string, parsed: Num): (r: UserProfile)
    requires f in NumberFields
    ensures text == [] ==> Get(r, f) == Number(None)
    ensures text != [] ==> Get(r, f) == Number(Some(parsed))
    ensures SameExcept(r, p, f)
  {
    Set(p, f, Number(if text == [] then None else Some(parsed)))
  }

  /** The four select handlers: the placeholder `''` stores `undefined`, any other option itself. */
  function SetSelect(p: UserProfile, f: Field, value: string): (r: UserProfile)
    requires f in SelectFields
    ensures value == [] ==> Get(r, f) == Text(None)
    ensures value != [] ==> Get(r, f) == Text(Some(value))
    ensures SameExcept(r, p, f)
  {
    Set(p, f, Text(AsOption(value)))
  }

  /** `value || undefined` for a string. */
  function AsOption(s: string): (r: Option<string>)
    ensures s == [] <==> r.None?
    ensures r.Some? ==> r.value == s
  {
    if s == [] then None else Some(s)
  }

  /** The option a select shows: `value || ''`. */
  function ShownSelect(p: UserProfile, f: Field): (text: string)
    requires f in SelectFields
    ensures Get(p, f).text.None? ==> text == []
  {
    OrElse(Get(p, f).text, [])
  }

  /**
   * The form before the stored profile arrives: each list field holds an empty
   * list and shows empty text, each number field is undefined, and each select
   * is undefined and shows its placeholder.
   */
  lemma {:induction false} InitialFormIsBlank(f: Field)
    ensures f in ListFields ==> Get(Initial, f) == List(Some([])) && ShownList(Initial, f) == []
    ensures f in NumberFields ==> Get(Initial, f) == Number(None)
    ensures f in SelectFields ==> Get(Initial, f) == Text(None) && ShownSelect(Initial, f) == []
  {
  }

  /** A select shows the option just chosen, the placeholder included. */
  lemma {:induction false} SelectShowsChoice(p: UserProfile, f: Field, value: string)
    requires f in SelectFields
    ensures ShownSelect(SetSelect(p, f, value), f) == value
  {
  }

  /**
   * Re-submitting a list field's text unchanged changes nothing: after an
   * edit, parsing the text the field now shows gives back the same profile.
   */
  lemma {:induction false} ReEditIsStable(p: UserProfile, f: Field, text: string)
    requires f in ListFields
    ensures var q := EditList(p, f, text); EditList(q, f, ShownList(q, f)) == q
  {
    var q := EditList(p, f, text);
    var r := EditList(q, f, ShownList(q, f));
    ParseRenderParse(text);
    forall g ensures Get(r, g) == Get(q, g) {
    }
    Extensionality(r, q);
  }

  /** Each select offers exactly the values of its type union, besides the placeholder. */
  lemma SelectsOfferTheUnions()
    ensures Offered(ActivityOptions) == ActivityLevels
    ensures Offered(ExperienceOptions) == CookingExperiences
    ensures Offered(MealPlanOptions) == MealPlanPreferences
    ensures Offered(CookingTimeOptions) == CookingTimes
  {
  }
}
