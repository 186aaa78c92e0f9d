/**
 * The user profile record shared by the chat route, the onboarding wizard and
 * the settings page (src/types/database.ts). Every field of the source's
 * interface is optional, so every field here is an `Option`.
 *
 * The four enumerated fields are kept as strings: the onboarding form offers
 * values outside the type unions ('extra_active', 'keto'), and the source only
 * casts the selected string. The unions themselves are the sets below.
 */
module Profile {
  import opened Common

  /** The `ActivityLevel` union. */
  const ActivityLevels: set<string> := {"sedentary", "light", "moderate", "active", "very_active"}
  /** The `CookingExperience` union. */
  const CookingExperiences: set<string> := {"beginner", "intermediate", "advanced"}
  /** The `MealPlanPreference` union. */
  const MealPlanPreferences: set<string> := {"balanced", "high_protein", "low_carb", "vegetarian", "vegan"}
  /** The `CookingTime` union. */
  const CookingTimes: set<string> := {"quick", "moderate", "lengthy"}

  /** The values a select's options can store: every option but the empty placeholder. */
  function Offered(options: seq<string>): (values: set<string>)
    ensures forall v :: v in values <==> v in options && v != []
  {
    set v | v in options && v != []
  }

  /** A number held by the profile (weight, height); its float parsing is not modelled. */
  type Num = real

  datatype UserProfile = UserProfile(
    id: Option<string>,
    userId: Option<string>,
    dietaryPreferences: Option<seq<string>>,
    allergies: Option<seq<string>>,
    healthGoals: Option<seq<string>>,
    medicalConditions: Option<seq<string>>,
    favoriteCuisines: Option<seq<string>>,
    dislikedIngredients: Option<seq<string>>,
    weightInKg: Option<Num>,
    heightInCm: Option<Num>,
    activityLevel: Option<string>,
    cookingExperience: Option<string>,
    mealPlanPreference: Option<string>,
    cookingTime: Option<string>,
    createdAt: Option<string>,
    updatedAt: Option<string>)

  /** The profile with every field `undefined` (`{}`). */
  const Empty: UserProfile :=
    UserProfile(None, None, None, None, None, None, None, None, None, None, None, None, None, None, None, None)

  /** The profile's keys. */
  datatype Field =
    | Id | UserId
    | DietaryPreferences | Allergies | HealthGoals | MedicalConditions | FavoriteCuisines | DislikedIngredients
    | WeightInKg | HeightInCm
    | ActivityLevel | CookingExperience | MealPlanPreference | CookingTime
    | CreatedAt | UpdatedAt

  /** Every key, in the interface's order. */
  const AllFields: seq<Field> :=
    [ Id, UserId, DietaryPreferences, Allergies, HealthGoals, MedicalConditions, FavoriteCuisines,
      DislikedIngredients, WeightInKg, HeightInCm, ActivityLevel, CookingExperience, MealPlanPreference,
      CookingTime, CreatedAt, UpdatedAt ]

  lemma AllFieldsListed()
    ensures forall f :: f in AllFields
  {
    forall f ensures f in AllFields {
      match f
      case Id => assert AllFields[0] == f;
      case UserId => assert AllFields[1] == f;
      case DietaryPreferences => assert AllFields[2] == f;
      case Allergies => assert AllFields[3] == f;
      case HealthGoals => assert AllFields[4] == f;
      case MedicalConditions => assert AllFields[5] == f;
      case FavoriteCuisines => assert AllFields[6] == f;
      case DislikedIngredients => assert AllFields[7] == f;
      case WeightInKg => assert AllFields[8] == f;
      case HeightInCm => assert AllFields[9] == f;
      case ActivityLevel => assert AllFields[10] == f;
      case CookingExperience => assert AllFields[11] == f;
      case MealPlanPreference => assert AllFields[12] == f;
      case CookingTime => assert AllFields[13] == f;
      case CreatedAt => assert AllFields[14] == f;
      case UpdatedAt => assert AllFields[15] == f;
    }
  }

  /** The value held under one key, `None` standing for `undefined`. */
  datatype Value = Text(text: Option<string>) | Number(number: Option<Num>) | List(items: Option<seq<string>>)

  /** The keys holding a list of strings. */
  const ListFields: set<Field> :=
    {DietaryPreferences, Allergies, HealthGoals, MedicalConditions, FavoriteCuisines, DislikedIngredients}
  /** The keys holding a number. */
  const NumberFields: set<Field> := {WeightInKg, HeightInCm}

  /** `v` has the type the interface gives key `f`. */
  predicate Fits(f: Field, v: Value)
  {
    if f in ListFields then v.List? else if f in NumberFields then v.Number? else v.Text?
  }

  /** `undefined` at key `f`. */
  function Undefined(f: Field): (v: Value)
    ensures Fits(f, v)
  {
    if f in ListFields then List(None) else if f in NumberFields then Number(None) else Text(None)
  }

  /** `p[f]`. */
  function Get(p: UserProfile, f: Field): (v: Value)
    ensures Fits(f, v)
  {
    match f
    case Id => Text(p.id)
    case UserId => Text(p.userId)
    case DietaryPreferences => List(p.dietaryPreferences)
    case Allergies => List(p.allergies)
    case HealthGoals => List(p.healthGoals)
    case MedicalConditions => List(p.medicalConditions)
    case FavoriteCuisines => List(p.favoriteCuisines)
    case DislikedIngredients => List(p.dislikedIngredients)
    case WeightInKg => Number(p.weightInKg)
    case HeightInCm => Number(p.heightInCm)
    case ActivityLevel => Text(p.activityLevel)
    case CookingExperience => Text(p.cookingExperience)
    case MealPlanPreference => Text(p.mealPlanPreference)
    case CookingTime => Text(p.cookingTime)
    case CreatedAt => Text(p.createdAt)
    case UpdatedAt => Text(p.updatedAt)
  }

  /** Two profiles with the same value under every key are the same profile. */
  lemma {:induction false} Extensionality(p: UserProfile, q: UserProfile)
    requires forall f :: Get(p, f) == Get(q, f)
    ensures p == q
  {
    assert p.id == q.id by { assert Get(p, Id) == Get(q, Id); }
    assert p.userId == q.userId by { assert Get(p, UserId) == Get(q, UserId); }
    assert p.dietaryPreferences == q.dietaryPreferences by { assert Get(p, DietaryPreferences) == Get(q, DietaryPreferences); }
    assert p.allergies == q.allergies by { assert Get(p, Allergies) == Get(q, Allergies); }
    assert p.healthGoals == q.healthGoals by { assert Get(p, HealthGoals) == Get(q, HealthGoals); }
    assert p.medicalConditions == q.medicalConditions by { assert Get(p, MedicalConditions) == Get(q, MedicalConditions); }
    assert p.favoriteCuisines == q.favoriteCuisines by { assert Get(p, FavoriteCuisines) == Get(q, FavoriteCuisines); }
    assert p.dislikedIngredients == q.dislikedIngredients by { assert Get(p, DislikedIngredients) == Get(q, DislikedIngredients); }
    assert p.weightInKg == q.weightInKg by { assert Get(p, WeightInKg) == Get(q, WeightInKg); }
    assert p.heightInCm == q.heightInCm by { assert Get(p, HeightInCm) == Get(q, HeightInCm); }
    assert p.activityLevel == q.activityLevel by { assert Get(p, ActivityLevel) == Get(q, ActivityLevel); }
    assert p.cookingExperience == q.cookingExperience by { assert Get(p, CookingExperience) == Get(q, CookingExperience); }
    assert p.mealPlanPreference == q.mealPlanPreference by { assert Get(p, MealPlanPreference) == Get(q, MealPlanPreference); }
    assert p.cookingTime == q.cookingTime by { assert Get(p, CookingTime) == Get(q, CookingTime); }
    assert p.createdAt == q.createdAt by { assert Get(p, CreatedAt) == Get(q, CreatedAt); }
    assert p.updatedAt == q.updatedAt by { assert Get(p, UpdatedAt) == Get(q, UpdatedAt); }
  }

  /** Every key other than `f` holds the same value in `p` and `q`. */
  predicate SameExcept(p: UserProfile, q: UserProfile, f: Field)
  {
    forall g :: g != f ==> Get(p, g) == Get(q, g)
  }

  /** `{...p, [f]: v}`: the profile with key `f` replaced and every other key kept. */
  function Set(p: UserProfile, f: Field, v: Value): (r: UserProfile)
    requires Fits(f, v)
    ensures Get(r, f) == v
    ensures SameExcept(r, p, f)
  {
    match f
    case Id => p.(id := v.text)
    case UserId => p.(userId := v.text)
    case DietaryPreferences => p.(dietaryPreferences := v.items)
    case Allergies => p.(allergies := v.items)
    case HealthGoals => p.(healthGoals := v.items)
    case MedicalConditions => p.(medicalConditions := v.items)
    case FavoriteCuisines => p.(favoriteCuisines := v.items)
    case DislikedIngredients => p.(dislikedIngredients := v.items)
    case WeightInKg => p.(weightInKg := v.number)
    case HeightInCm => p.(heightInCm := v.number)
    case ActivityLevel => p.(activityLevel := v.text)
    case CookingExperience => p.(cookingExperience := v.text)
    case MealPlanPreference => p.(mealPlanPreference := v.text)
    case CookingTime => p.(cookingTime := v.text)
    case CreatedAt => p.(createdAt := v.text)
    case UpdatedAt => p.(updatedAt := v.text)
  }
}
