/** The preference form (components/InputForm.tsx): the initial preferences, the update of
    one field from its control, the submission, and the grid of the budget slider. */
module InputForm {
  import opened Wrappers
  import opened Types
  import opened Strings

  const BudgetMin := 5000
  const BudgetMax := 100000
  const BudgetStep := 2500

  /** The preferences the form starts with. */
  const DefaultPreferences := UserPreferences(15000, Standard, Standard, Daily, AnySize, AnyOs)

  lemma DefaultPreferencesCodes()
    ensures DefaultPreferences.budget == 15000
    ensures PriorityCode(DefaultPreferences.camera) == "standart"
    ensures PriorityCode(DefaultPreferences.battery) == "standart"
    ensures UsageCode(DefaultPreferences.performance) == "gunluk"
    ensures ScreenSizeCode(DefaultPreferences.screenSize) == "farketmez"
    ensures OsChoiceCode(DefaultPreferences.os) == "farketmez"
  {
  }

  /** The `name` of the control an input event comes from. */
  datatype Field = BudgetField | CameraField | BatteryField | PerformanceField | ScreenSizeField | OsField

  /** What the control named `field` can deliver: the slider's decimal digits, or the
      value of one of the select's options. */
  predicate ValidInput(field: Field, value: string) {
    match field
    case BudgetField => IsDigits(value)
    case CameraField => ParsePriority(value).Some?
    case BatteryField => ParsePriority(value).Some?
    case PerformanceField => ParseUsage(value).Some?
    case ScreenSizeField => ParseScreenSize(value).Some?
    case OsField => ParseOsChoice(value).Some?
  }

  /** `handleChange`'s update: the named field takes the value, read as a number for the
      budget; every other field keeps its value. */
  function WithInput(p: UserPreferences, field: Field, value: string): (r: UserPreferences)
    requires ValidInput(field, value)
    ensures r.budget == if field == BudgetField then DecimalValue(value) else p.budget
    ensures PriorityCode(r.camera) == if field == CameraField then value else PriorityCode(p.camera)
    ensures PriorityCode(r.battery) == if field == BatteryField then value else PriorityCode(p.battery)
    ensures UsageCode(r.performance) == if field == PerformanceField then value else UsageCode(p.performance)
    ensures ScreenSizeCode(r.screenSize) == if field == ScreenSizeField then value else ScreenSizeCode(p.screenSize)
    ensures OsChoiceCode(r.os) == if field == OsField then value else OsChoiceCode(p.os)
  {
    match field
    case BudgetField => p.(budget := DecimalValue(value))
    case CameraField => p.(camera := ParsePriority(value).value)
    case BatteryField => p.(battery := ParsePriority(value).value)
    case PerformanceField => p.(performance := ParseUsage(value).value)
    case ScreenSizeField => p.(screenSize := ParseScreenSize(value).value)
    case OsField => p.(os := ParseOsChoice(value).value)
  }

  /** Choosing an option sets that preference to the option's meaning; moving the slider to
      a number sets the budget to that number. */
  lemma WithInputOfChoice(p: UserPreferences, c: Priority, u: Usage, z: ScreenSize, o: OsChoice, n: nat)
    ensures WithInput(p, CameraField, PriorityCode(c)) == p.(camera := c)
    ensures WithInput(p, BatteryField, PriorityCode(c)) == p.(battery := c)
    ensures WithInput(p, PerformanceField, UsageCode(u)) == p.(performance := u)
    ensures WithInput(p, ScreenSizeField, ScreenSizeCode(z)) == p.(screenSize := z)
    ensures WithInput(p, OsField, OsChoiceCode(o)) == p.(os := o)
    ensures WithInput(p, BudgetField, Decimal(n)) == p.(budget := n)
  {
    DecimalRoundTrip(n);
  }

  /** `Array.from({ length: (100000 - 5000) / 2500 + 1 }, (_, i) => 5000 + i * 2500)`. */
  function BudgetSteps(): (steps: seq<int>)
    ensures |steps| == 39
    ensures forall i | 0 <= i < |steps| :: steps[i] == BudgetMin + i * BudgetStep
  {
    seq((BudgetMax - BudgetMin) / BudgetStep + 1, i => BudgetMin + i * BudgetStep)
  }

  /** The steps run from the slider's minimum to its maximum, rising by one slider step
      each, and hold exactly the values the slider can take. */
  lemma BudgetStepsMatchSlider()
    ensures BudgetSteps()[0] == BudgetMin && BudgetSteps()[|BudgetSteps()| - 1] == BudgetMax
    ensures forall i | 0 < i < |BudgetSteps()| :: BudgetSteps()[i] == BudgetSteps()[i - 1] + BudgetStep
    ensures forall b :: b in BudgetSteps() <==> BudgetMin <= b <= BudgetMax && (b - BudgetMin) % BudgetStep == 0
  {
    var steps := BudgetSteps();
    forall b ensures b in steps <==> BudgetMin <= b <= BudgetMax && (b - BudgetMin) % BudgetStep == 0 {
      if BudgetMin <= b <= BudgetMax && (b - BudgetMin) % BudgetStep == 0 {
        var i := (b - BudgetMin) / BudgetStep;
        assert steps[i] == b;
      }
    }
  }

  /** The form's state. */
  class Form {
    var preferences: UserPreferences

    constructor ()
      ensures preferences == DefaultPreferences
    {
      preferences := DefaultPreferences;
    }

    /** `handleChange`. */
    method HandleChange(field: Field, value: string)
      requires ValidInput(field, value)
      modifies this
      ensures preferences == WithInput(old(preferences), field, value)
    {
      preferences := WithInput(preferences, field, value);
    }

    /** `handleSubmit`: the current preferences go out unchanged; while a search is loading
        the submit button is disabled and nothing is sent. */
    method HandleSubmit(isLoading: bool) returns (submitted: Option<UserPreferences>)
      ensures submitted.None? <==> isLoading
      ensures submitted.Some? ==> submitted.value == preferences
    {
      if isLoading {
        return None;
      }
      submitted := Some(preferences);
    }
  }
}
