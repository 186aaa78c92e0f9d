/**
 * The three-step onboarding wizard (src/components/OnboardingModal.tsx): the
 * step shown, the error line, the saving flag and the profile being filled in.
 * Saving is split at its one `await`: `Next` on the last step hands the payload
 * to the page's save callback and `SaveFinished` applies its outcome. The
 * form's option values are modelled as strings, because some of them lie
 * outside the profile's type unions.
 */
module Onboarding {
  import opened Common
  import opened Profile

  const TotalSteps: int := 3

  /**
   * An update in the shape of `Partial<UserProfile>`: the keys it holds, each
   * with its value (`undefined` included).
   */
  type Patch = map<Field, Value>

  /** Every value in the patch has its key's type. */
  predicate WellTyped(u: Patch)
  {
    forall f :: f in u ==> Fits(f, u[f])
  }

  /** Copies into `p` the keys of `u` that are listed in `keys`. */
  function CopyKeys(p: UserProfile, u: Patch, keys: seq<Field>): (r: UserProfile)
    requires WellTyped(u)
    ensures forall f :: Get(r, f) == if f in u && f in keys then u[f] else Get(p, f)
  {
    if keys == [] then p
    else
      var q := CopyKeys(p, u, keys[1..]);
      if keys[0] in u then Set(q, keys[0], u[keys[0]]) else q
  }

  /** `{ ...p, ...u }`: the keys of `u` take its values, every other key keeps its own. */
  function Merge(p: UserProfile, u: Patch): (r: UserProfile)
    requires WellTyped(u)
    ensures forall f :: Get(r, f) == if f in u then u[f] else Get(p, f)
  {
    AllFieldsListed();
    CopyKeys(p, u, AllFields)
  }

  /** Merging nothing changes nothing. */
  lemma {:induction false} MergeEmpty(p: UserProfile)
    ensures Merge(p, map[]) == p
  {
    Extensionality(Merge(p, map[]), p);
  }

  /** Two updates in a row are one update with their keys combined, the later one winning. */
  lemma {:induction false} MergeTwice(p: UserProfile, a: Patch, b: Patch)
    requires WellTyped(a) && WellTyped(b)
    ensures WellTyped(a + b)
    ensures Merge(Merge(p, a), b) == Merge(p, a + b)
  {
    Extensionality(Merge(Merge(p, a), b), Merge(p, a + b));
  }

  /** Repeating an update changes nothing more. */
  lemma {:induction false} MergeIdempotent(p: UserProfile, u: Patch)
    requires WellTyped(u)
    ensures Merge(Merge(p, u), u) == Merge(p, u)
  {
    MergeTwice(p, u, u);
    assert u + u == u;
  }

  /** The profile the wizard starts from. */
  const Initial: UserProfile :=
    Empty.(dietaryPreferences := Some([]), allergies := Some([]), healthGoals := Some([]),
           medicalConditions := Some([]), favoriteCuisines := Some([]), dislikedIngredients := Some([]),
           activityLevel := Some("moderate"), mealPlanPreference := Some("balanced"),
           cookingExperience := Some("beginner"))

  /** The eleven keys the wizard saves. */
  const PayloadFields: set<Field> :=
    { DietaryPreferences, Allergies, HealthGoals, WeightInKg, HeightInCm, ActivityLevel,
      MedicalConditions, FavoriteCuisines, DislikedIngredients, MealPlanPreference, CookingExperience }

  /** The object handed to the save callback: the eleven saved keys copied, every other key absent. */
  function Payload(p: UserProfile): (r: UserProfile)
    ensures forall f :: f in PayloadFields ==> Get(r, f) == Get(p, f)
    ensures forall f :: f !in PayloadFields ==> Get(r, f) == Undefined(f)
  {
    Empty.(dietaryPreferences := p.dietaryPreferences, allergies := p.allergies, healthGoals := p.healthGoals,
           weightInKg := p.weightInKg, heightInCm := p.heightInCm, activityLevel := p.activityLevel,
           medicalConditions := p.medicalConditions, favoriteCuisines := p.favoriteCuisines,
           dislikedIngredients := p.dislikedIngredients, mealPlanPreference := p.mealPlanPreference,
           cookingExperience := p.cookingExperience)
  }

  /** The saved object never carries a cooking time, an id, an owner or a timestamp, whatever the form holds. */
  lemma {:induction false} PayloadOmitsCookingTime(p: UserProfile)
    ensures Payload(p).cookingTime.None?
    ensures Payload(p).id.None? && Payload(p).userId.None?
    ensures Payload(p).createdAt.None? && Payload(p).updatedAt.None?
  {
    assert Get(Payload(p), CookingTime) == Undefined(CookingTime);
    assert Get(Payload(p), Id) == Undefined(Id) && Get(Payload(p), UserId) == Undefined(UserId);
    assert Get(Payload(p), CreatedAt) == Undefined(CreatedAt) && Get(Payload(p), UpdatedAt) == Undefined(UpdatedAt);
  }

  /** How the save callback ended. */
  datatype SaveOutcome = Saved | SaveThrew(err: Thrown)

  /** The option values of the wizard's single-choice selects. */
  const ActivityOptions: seq<string> := ["sedentary", "light", "moderate", "very_active", "extra_active"]
  const ExperienceOptions: seq<string> := ["beginner", "intermediate", "advanced"]
  const MealPlanOptions: seq<string> := ["balanced", "low_carb", "high_protein", "vegetarian", "vegan", "keto"]

  /**
   * The wizard's selects disagree with the type unions: the activity select
   * offers `extra_active`, which is not an `ActivityLevel`, and cannot store
   * `active`, which is; the meal-plan select offers `keto`, which is not a
   * `MealPlanPreference`. The experience select agrees with its union.
   */
  lemma OptionsOutsideUnions()
    ensures "extra_active" in Offered(ActivityOptions) && "extra_active" !in ActivityLevels
    ensures "active" in ActivityLevels && "active" !in Offered(ActivityOptions)
    ensures "keto" in Offered(MealPlanOptions) && "keto" !in MealPlanPreferences
    ensures Offered(MealPlanOptions) - {"keto"} == MealPlanPreferences
    ensures Offered(ExperienceOptions) == CookingExperiences
  {
    assert ActivityOptions[4] == "extra_active";
    assert MealPlanOptions[5] == "keto";
  }

  /** A single-choice select's change handler: the chosen option stored as it is. */
  function ChoicePatch(f: Field, option: string): (u: Patch)
    requires f in {ActivityLevel, CookingExperience, MealPlanPreference}
    ensures WellTyped(u) && u.Keys == {f} && u[f] == Text(Some(option))
  {
    map[f := Text(Some(option))]
  }

  /**
   * A list's change handler: for a multiple-choice select the selected options
   * in order, for the allergies text field `CommaList.Parse` of the text.
   */
  function ListPatch(f: Field, items: seq<string>): (u: Patch)
    requires f in ListFields
    ensures WellTyped(u) && u.Keys == {f} && u[f] == List(Some(items))
  {
    map[f := List(Some(items))]
  }

  class Wizard {
    var step: int
    var error: Option<string>
    var isSubmitting: bool
    var profile: UserProfile
    /** Set once the save callback has succeeded and `onClose` has been called. */
    var closed: bool

    /** The step lies in 1..3, and a save runs only from the last step. */
    ghost predicate Valid()
      reads this
    {
      1 <= step <= TotalSteps && (isSubmitting ==> step == TotalSteps)
    }

    constructor ()
      ensures Valid()
      ensures step == 1 && error.None? && !isSubmitting && profile == Initial && !closed
    {
      step := 1;
      error := None;
      isSubmitting := false;
      profile := Initial;
      closed := false;
    }

    /**
     * `handleNext`: clears the error; below the last step it moves one step on;
     * on the last step it starts saving and returns the payload handed to the
     * save callback, leaving the step as it is. The button is disabled while
     * saving.
     */
    method Next() returns (payload: Option<UserProfile>)
      requires Valid() && !isSubmitting
      modifies this
      ensures Valid() && error.None? && profile == old(profile) && closed == old(closed)
      ensures old(step) < TotalSteps ==> step == old(step) + 1 && payload.None? && !isSubmitting
      ensures old(step) == TotalSteps ==> step == old(step) && payload == Some(Payload(profile)) && isSubmitting
    {
      error := None;
      if step < TotalSteps {
        step := step + 1;
        payload := None;
      } else {
        isSubmitting := true;
        error := None;
        payload := Some(Payload(profile));
      }
    }

    /**
     * The rest of `handleSubmit`: success calls `onClose`; failure shows the
     * exception's message, or a fixed text for a thrown non-`Error`; saving
     * ends either way.
     */
    method SaveFinished(outcome: SaveOutcome)
      requires Valid() && isSubmitting
      modifies this
      ensures Valid() && !isSubmitting && step == old(step) && profile == old(profile)
      ensures outcome.Saved? ==> closed && error == old(error)
      ensures outcome.SaveThrew? ==>
        closed == old(closed) && error == Some(MessageOr(outcome.err, "Failed to save profile. Please try again."))
    {
      if outcome.Saved? {
        closed := true;
      } else {
        error := Some(MessageOr(outcome.err, "Failed to save profile. Please try again."));
      }
      isSubmitting := false;
    }

    /** `handleBack`: clears the error and moves one step back, never below the first. */
    method Back()
      requires Valid() && !isSubmitting
      modifies this
      ensures Valid() && error.None? && profile == old(profile) && closed == old(closed) && !isSubmitting
      ensures old(step) > 1 ==> step == old(step) - 1
      ensures old(step) == 1 ==> step == 1
    {
      error := None;
      if step > 1 {
        step := step - 1;
      }
    }

    /** `updateProfile`: clears the error and merges the update into the profile. */
    method Update(u: Patch)
      requires Valid() && WellTyped(u)
      modifies this
      ensures Valid() && error.None? && step == old(step) && isSubmitting == old(isSubmitting) && closed == old(closed)
      ensures profile == Merge(old(profile), u)
    {
      error := None;
      profile := Merge(profile, u);
    }
  }

  /**
   * The form's answers reach the save callback: after an update, the payload
   * carries the updated value of every saved key and the earlier value of every
   * other saved key.
   */
  lemma {:induction false} UpdatedAnswersAreSaved(p: UserProfile, u: Patch)
    requires WellTyped(u)
    ensures forall f :: f in PayloadFields ==>
      Get(Payload(Merge(p, u)), f) == if f in u then u[f] else Get(p, f)
  {
  }
}
