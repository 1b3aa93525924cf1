/** The filter selector of the restaurant finder: the fixed catalogues the form
    offers, the query payload it builds on submit, and the state behind its
    food-type multi-select. */
module FilterForm {

  /** A JSON value that may be `null`. */
  datatype Nullable<T> = Null | Value(value: T)

  /** One entry of the budget drop-down; the "any" entry has no bounds. */
  datatype Bucket = Bucket(min: Nullable<int>, max: Nullable<int>, name: string)

  const RunnerTypes: seq<string> := ["Fun Run", "Mini Marathon", "Half Marathon", "Marathon"]

  const BudgetRanges: seq<Bucket> := [
    Bucket(Null, Null, "Any Budget"),
    Bucket(Value(0), Value(300), "0 - 300 Baht"),
    Bucket(Value(301), Value(600), "301 - 600 Baht"),
    Bucket(Value(601), Value(900), "601 - 900 Baht"),
    Bucket(Value(901), Value(1200), "901 - 1200 Baht"),
    Bucket(Value(1201), Value(1500), "1201 - 1500 Baht"),
    Bucket(Value(1501), Value(1800), "1501 - 1800 Baht"),
    Bucket(Value(1801), Value(2100), "1801 - 2100 Baht"),
    Bucket(Value(2101), Value(999999), "More than 2100 Baht")
  ]

  const RestaurantTypes: seq<string> :=
    ["Any Type", "Kiosk_Type", "Fast_Dining_Type", "Casual_Dining_Type", "Fine_Dining_Type"]

  const FoodTypes: seq<string> := [
    "ALaCarte_Type", "Bakery_Cake_Type", "Breakfast_Type", "BubbleMilkTea_Type",
    "Buffet_Type", "CleanFood_Salad_Type", "Dessert_Type", "Dimsum_Type",
    "DrinksJuice_Type", "FastFood_Type", "Grill_Type", "GrilledPork_Type",
    "IceCream_Type", "Noodles_Type", "Omakase_Type", "OneDishMeal_Type",
    "Pizza_Type", "Ramen_Type", "Seafood_Type", "Shabu_Sukiyaki_Type",
    "Steak_Type", "Sushi_Type", "VegatarianFood_Type", "Vegatarian_Jay_Type",
    "Burger_Type"
  ]

  /** The runner-type value that stands for "no constraint". */
  const AnyRunner: string := "Any"

  /** The restaurant-type value that stands for "no constraint". */
  const AnyRestaurantType: string := "Any Type"

  /** The runner-type drop-down never offers its sentinel, so it never yields
      a `null` runner type; the restaurant-type drop-down does offer its own. */
  lemma SentinelsInCatalogues()
    ensures AnyRunner !in RunnerTypes
    ensures AnyRestaurantType in RestaurantTypes
  {
  }

  /** The record handed to the search on submit. */
  datatype Payload = Payload(
    runnerType: Nullable<string>,
    budgetMin: Nullable<int>,
    budgetMax: Nullable<int>,
    restaurantType: Nullable<string>,
    foodTypes: Nullable<seq<string>>)

  predicate NoDuplicates<T(==)>(s: seq<T>)
  {
    forall i, j :: 0 <= i < j < |s| ==> s[i] != s[j]
  }

  // ---------------------------------------------------------------------------
  // Budget lookup

  /** `budgetRanges.find(range => range.label === key)`: the first bucket
      carrying the label, or nothing. */
  function FindBucket(ranges: seq<Bucket>, key: string): (r: Nullable<Bucket>)
    ensures r.Value? ==> r.value in ranges && r.value.name == key
    ensures r.Null? <==> forall b :: b in ranges ==> b.name != key
  {
    if ranges == [] then Null
    else if ranges[0].name == key then Value(ranges[0])
    else FindBucket(ranges[1..], key)
  }

  /** The found bucket is the FIRST one carrying the label. */
  lemma {:induction false} FindBucketFirst(ranges: seq<Bucket>, key: string, i: nat)
    requires i < |ranges| && ranges[i].name == key
    requires forall j :: 0 <= j < i ==> ranges[j].name != key
    ensures FindBucket(ranges, key) == Value(ranges[i])
  {
    if i > 0 {
      assert ranges[0].name != key;
      FindBucketFirst(ranges[1..], key, i - 1);
    }
  }

  /** The (min, max) bounds sent for a budget label: the found bucket's, or
      `{ min: null, max: null }` when no bucket carries the label. */
  function SelectedBudget(key: string): (Nullable<int>, Nullable<int>)
  {
    match FindBucket(BudgetRanges, key)
    case Value(b) => (b.min, b.max)
    case Null => (Null, Null)
  }

  lemma BudgetLabelsDistinct()
    ensures forall i, j :: 0 <= i < j < |BudgetRanges| ==> BudgetRanges[i].name != BudgetRanges[j].name
  {
  }

  /** Every catalogue label yields exactly that bucket's declared bounds. */
  lemma BudgetOfCatalogueLabel(i: nat)
    requires i < |BudgetRanges|
    ensures SelectedBudget(BudgetRanges[i].name) == (BudgetRanges[i].min, BudgetRanges[i].max)
  {
    BudgetLabelsDistinct();
    FindBucketFirst(BudgetRanges, BudgetRanges[i].name, i);
  }

  /** "Any Budget" places no constraint on either bound. */
  lemma AnyBudgetUnbounded()
    ensures SelectedBudget("Any Budget") == (Null, Null)
  {
    BudgetOfCatalogueLabel(0);
  }

  /** A label outside the catalogue, such as the form's initial `""`, degrades
      to no constraint rather than failing. */
  lemma UnmatchedBudget(key: string)
    requires forall b :: b in BudgetRanges ==> b.name != key
    ensures SelectedBudget(key) == (Null, Null)
  {
  }

  /** The numeric buckets are non-empty, ascending and leave no gap. */
  lemma BucketsContiguous()
    ensures forall i :: 1 <= i < |BudgetRanges| ==>
      BudgetRanges[i].min.Value? && BudgetRanges[i].max.Value? &&
      BudgetRanges[i].min.value <= BudgetRanges[i].max.value
    ensures forall i :: 1 <= i < |BudgetRanges| - 1 ==>
      BudgetRanges[i].max.value + 1 == BudgetRanges[i + 1].min.value
  {
  }

  // ---------------------------------------------------------------------------
  // Payload construction

  /** The payload of `handleSubmit`: sentinels become `null`, the budget label
      is looked up, and an empty food selection becomes `null`. */
  function BuildPayload(runnerType: string, budget: string, restaurantType: string,
                        selectedFoodTypes: seq<string>): (p: Payload)
    ensures p.runnerType.Null? <==> runnerType == AnyRunner
    ensures p.runnerType.Value? ==> p.runnerType.value == runnerType
    ensures p.restaurantType.Null? <==> restaurantType == AnyRestaurantType
    ensures p.restaurantType.Value? ==> p.restaurantType.value == restaurantType
    ensures (p.budgetMin, p.budgetMax) == SelectedBudget(budget)
    ensures p.foodTypes.Null? <==> selectedFoodTypes == []
    ensures p.foodTypes.Value? ==> p.foodTypes.value == selectedFoodTypes
  {
    var bounds := SelectedBudget(budget);
    Payload(
      if runnerType == AnyRunner then Null else Value(runnerType),
      bounds.0,
      bounds.1,
      if restaurantType == AnyRestaurantType then Null else Value(restaurantType),
      if |selectedFoodTypes| > 0 then Value(selectedFoodTypes) else Null)
  }

  /** Submitting the untouched form: the unselected drop-downs are sent as the
      empty string, not as `null`; only the budget and food types are `null`. */
  lemma UntouchedFormPayload()
    ensures BuildPayload("", "", "", []) == Payload(Value(""), Null, Null, Value(""), Null)
  {
    UnmatchedBudget("");
  }

  // ---------------------------------------------------------------------------
  // Food-type selection edits

  /** `s.filter(t => t !== type)`. */
  function Without(s: seq<string>, t: string): (r: seq<string>)
    ensures forall x :: x in r <==> x in s && x != t
    ensures |r| <= |s|
  {
    if s == [] then []
    else if s[0] == t then Without(s[1..], t)
    else [s[0]] + Without(s[1..], t)
  }

  /** Filtering distributes over concatenation, so the kept items keep their
      relative order. */
  lemma {:induction false} WithoutAppend(a: seq<string>, b: seq<string>, t: string)
    ensures Without(a + b, t) == Without(a, t) + Without(b, t)
  {
    if a == [] {
      assert a + b == b;
    } else {
      assert (a + b)[0] == a[0];
      assert (a + b)[1..] == a[1..] + b;
      WithoutAppend(a[1..], b, t);
    }
  }

  /** Removing an absent item changes nothing. */
  lemma {:induction false} WithoutAbsent(s: seq<string>, t: string)
    requires t !in s
    ensures Without(s, t) == s
  {
    if s != [] {
      WithoutAbsent(s[1..], t);
    }
  }

  /** Removing keeps a selection duplicate-free. */
  lemma {:induction false} WithoutNoDuplicates(s: seq<string>, t: string)
    requires NoDuplicates(s)
    ensures NoDuplicates(Without(s, t))
  {
    if s != [] {
      assert NoDuplicates(s[1..]) by {
        forall i, j | 0 <= i < j < |s[1..]| ensures s[1..][i] != s[1..][j] {
          assert s[i + 1] != s[j + 1];
        }
      }
      WithoutNoDuplicates(s[1..], t);
      var rest := Without(s[1..], t);
      if s[0] != t {
        assert s[0] !in rest;
        var r := [s[0]] + rest;
        forall i, j | 0 <= i < j < |r| ensures r[i] != r[j] {
          if i == 0 {
            assert r[j] == rest[j - 1];
          } else {
            assert r[i] == rest[i - 1] && r[j] == rest[j - 1];
          }
        }
      }
    }
  }

  /** Checking a food type and then unchecking it restores the selection. */
  lemma CheckThenUncheck(s: seq<string>, t: string)
    requires t !in s
    ensures Without(s + [t], t) == s
  {
    WithoutAppend(s, [t], t);
    WithoutAbsent(s, t);
    assert Without([t], t) == [];
  }

  /** Appending an absent item keeps a selection duplicate-free. */
  lemma AppendNoDuplicates(s: seq<string>, t: string)
    requires NoDuplicates(s) && t !in s
    ensures NoDuplicates(s + [t])
  {
    var r := s + [t];
    forall i, j | 0 <= i < j < |r| ensures r[i] != r[j] {
      if j == |s| {
        assert r[i] == s[i];
      } else {
        assert r[i] == s[i] && r[j] == s[j];
      }
    }
  }

  /** A number that tells the food-type names apart: the length, the first
      letter and the letter before the `_Type` suffix. Comparing these numbers
      is far cheaper for the solver than comparing the names themselves. */
  function Fingerprint(x: string): int
  {
    if |x| < 6 then 0 else |x| * 65536 + (x[0] as int) * 256 + (x[|x| - 6] as int)
  }

  const FoodFingerprints: seq<int> := [
    868709, 1065573, 934516, 1196641, 737908, 1327972, 803956, 738413,
    1066085, 869988, 673644, 1066859, 870765, 806515, 806757, 1068908,
    675937, 676462, 807780, 1266537, 676715, 676713, 1267300, 1267321,
    737906
  ]

  lemma FoodFingerprintValuesHead()
    ensures forall i :: 0 <= i < 8 ==> Fingerprint(FoodTypes[i]) == FoodFingerprints[i]
  {
    assert seq(8, i requires 0 <= i < 8 => Fingerprint(FoodTypes[0 + i])) == FoodFingerprints[0..8];
  }

  lemma FoodFingerprintValuesMiddle()
    ensures forall i :: 8 <= i < 16 ==> Fingerprint(FoodTypes[i]) == FoodFingerprints[i]
  {
    assert seq(8, i requires 0 <= i < 8 => Fingerprint(FoodTypes[8 + i])) == FoodFingerprints[8..16];
  }

  lemma FoodFingerprintValuesTail()
    ensures forall i :: 16 <= i < |FoodTypes| ==> Fingerprint(FoodTypes[i]) == FoodFingerprints[i]
  {
    assert seq(9, i requires 0 <= i < 9 => Fingerprint(FoodTypes[16 + i])) == FoodFingerprints[16..25];
  }

  lemma FoodFingerprintsDistinct()
    ensures NoDuplicates(FoodFingerprints)
  {
  }

  /** The catalogue names every food type once. */
  lemma FoodTypesDistinct()
    ensures NoDuplicates(FoodTypes)
  {
    FoodFingerprintValuesHead();
    FoodFingerprintValuesMiddle();
    FoodFingerprintValuesTail();
    FoodFingerprintsDistinct();
    forall i, j | 0 <= i < j < |FoodTypes| ensures FoodTypes[i] != FoodTypes[j] {
      assert FoodFingerprints[i] != FoodFingerprints[j];
    }
  }

  /** The form's state: the three drop-down values and the food-type
      multi-select with its "select all" flag. */
  class FilterState {
    var runnerType: string
    var budget: string
    var restaurantType: string
    var selectedFoodTypes: seq<string>
    var selectAll: bool

    /** The selection only ever holds catalogue items, each at most once, and
        the "select all" flag is only raised while the whole catalogue is
        selected. */
    ghost predicate Valid()
      reads this
    {
      (forall t :: t in selectedFoodTypes ==> t in FoodTypes) &&
      NoDuplicates(selectedFoodTypes) &&
      (selectAll ==> selectedFoodTypes == FoodTypes)
    }

    constructor ()
      ensures Valid()
      ensures runnerType == "" && budget == "" && restaurantType == ""
      ensures selectedFoodTypes == [] && !selectAll
    {
      runnerType, budget, restaurantType := "", "", "";
      selectedFoodTypes, selectAll := [], false;
    }

    /** `onValueChange` of the runner-type drop-down. */
    method SetRunnerType(value: string)
      requires Valid()
      modifies this
      ensures Valid()
      ensures runnerType == value
      ensures budget == old(budget) && restaurantType == old(restaurantType)
      ensures selectedFoodTypes == old(selectedFoodTypes) && selectAll == old(selectAll)
    {
      runnerType := value;
    }

    /** `onValueChange` of the budget drop-down (its values are bucket labels). */
    method SetBudget(value: string)
      requires Valid()
      modifies this
      ensures Valid()
      ensures budget == value
      ensures runnerType == old(runnerType) && restaurantType == old(restaurantType)
      ensures selectedFoodTypes == old(selectedFoodTypes) && selectAll == old(selectAll)
    {
      budget := value;
    }

    /** `onValueChange` of the restaurant-type drop-down. */
    method SetRestaurantType(value: string)
      requires Valid()
      modifies this
      ensures Valid()
      ensures restaurantType == value
      ensures runnerType == old(runnerType) && budget == old(budget)
      ensures selectedFoodTypes == old(selectedFoodTypes) && selectAll == old(selectAll)
    {
      restaurantType := value;
    }

    /** `handleSelectAll`: on selects the whole catalogue in catalogue order,
        off empties the selection. */
    method SelectAll(checked: bool)
      modifies this
      ensures Valid()
      ensures selectAll == checked
      ensures selectedFoodTypes == if checked then FoodTypes else []
      ensures runnerType == old(runnerType) && budget == old(budget)
      ensures restaurantType == old(restaurantType)
    {
      FoodTypesDistinct();
      selectAll := checked;
      selectedFoodTypes := if checked then FoodTypes else [];
    }

    /** `handleClearFoodTypes`: empties the selection and lowers the flag. */
    method ClearFoodTypes()
      modifies this
      ensures Valid()
      ensures selectedFoodTypes == [] && !selectAll
      ensures runnerType == old(runnerType) && budget == old(budget)
      ensures restaurantType == old(restaurantType)
    {
      selectedFoodTypes := [];
      selectAll := false;
    }

    /** The `onCheckedChange` of the checkbox for `foodType`. The checkbox is
        rendered checked exactly when `foodType` is selected, so it reports
        `checked` as the negation of that. Checking appends at the end and
        leaves the flag alone; unchecking removes the item and lowers the flag. */
    method ToggleFoodType(foodType: string, checked: bool)
      requires Valid()
      requires foodType in FoodTypes
      requires checked == (foodType !in selectedFoodTypes)
      modifies this
      ensures Valid()
      ensures checked ==> selectedFoodTypes == old(selectedFoodTypes) + [foodType]
      ensures checked ==> selectAll == old(selectAll)
      ensures !checked ==> selectedFoodTypes == Without(old(selectedFoodTypes), foodType)
      ensures !checked ==> !selectAll
      ensures runnerType == old(runnerType) && budget == old(budget)
      ensures restaurantType == old(restaurantType)
    {
      if checked {
        AppendNoDuplicates(selectedFoodTypes, foodType);
        selectedFoodTypes := selectedFoodTypes + [foodType];
      } else {
        WithoutNoDuplicates(selectedFoodTypes, foodType);
        selectedFoodTypes := Without(selectedFoodTypes, foodType);
      }
      if !checked {
        selectAll := false;
      }
    }

    /** `handleSubmit`: the payload for the current selections. */
    method Submit() returns (p: Payload)
      ensures p == BuildPayload(runnerType, budget, restaurantType, selectedFoodTypes)
    {
      p := BuildPayload(runnerType, budget, restaurantType, selectedFoodTypes);
    }
  }
}
