/** The records exchanged between the preference form, the recommendation service and
    the views: the user's preferences and one recommended phone (types.ts). */
module Types {
  import opened Wrappers

  /** Camera and battery priority: 'oncelikli' | 'standart' | 'onemsiz'. */
  datatype Priority = Prioritized | Standard | Unimportant

  /** Expected performance: 'oyun' | 'gunluk' | 'temel'. */
  datatype Usage = Gaming | Daily | Basic

  /** Preferred screen size: 'buyuk' | 'kompakt' | 'farketmez'. */
  datatype ScreenSize = Large | Compact | AnySize

  /** Preferred operating system: 'android' | 'ios' | 'farketmez'. */
  datatype OsChoice = Android | Ios | AnyOs

  datatype UserPreferences = UserPreferences(
    budget: int,
    camera: Priority,
    battery: Priority,
    performance: Usage,
    screenSize: ScreenSize,
    os: OsChoice)

  datatype Specs = Specs(
    display: string,
    battery: string,
    camera: string,
    processor: string,
    ram: string,
    storage: string)

  datatype PhoneRecommendation = PhoneRecommendation(
    model: string,
    brand: string,
    os: string,
    estimatedPrice: string,
    summary: string,
    pros: seq<string>,
    cons: seq<string>,
    specs: Specs,
    matchScore: int,
    mismatchReason: Option<string>)

  /** `list.some(p => p.model === model)`: phones are identified by their model name. */
  predicate HasModel(list: seq<PhoneRecommendation>, model: string) {
    exists i | 0 <= i < |list| :: list[i].model == model
  }

  /** The string value of each preference as the form's controls and the prompt carry it. */
  function PriorityCode(p: Priority): string {
    match p
    case Prioritized => "oncelikli"
    case Standard => "standart"
    case Unimportant => "onemsiz"
  }

  function UsageCode(u: Usage): string {
    match u
    case Gaming => "oyun"
    case Daily => "gunluk"
    case Basic => "temel"
  }

  function ScreenSizeCode(s: ScreenSize): string {
    match s
    case Large => "buyuk"
    case Compact => "kompakt"
    case AnySize => "farketmez"
  }

  function OsChoiceCode(o: OsChoice): string {
    match o
    case Android => "android"
    case Ios => "ios"
    case AnyOs => "farketmez"
  }

  /** The value of the option chosen in a select, read back as a preference. */
  function ParsePriority(s: string): (r: Option<Priority>)
    ensures r.Some? ==> PriorityCode(r.value) == s
    ensures forall p: Priority :: s == PriorityCode(p) ==> r == Some(p)
  {
    if s == "oncelikli" then Some(Prioritized)
    else if s == "standart" then Some(Standard)
    else if s == "onemsiz" then Some(Unimportant)
    else None
  }

  function ParseUsage(s: string): (r: Option<Usage>)
    ensures r.Some? ==> UsageCode(r.value) == s
    ensures forall u: Usage :: s == UsageCode(u) ==> r == Some(u)
  {
    if s == "oyun" then Some(Gaming)
    else if s == "gunluk" then Some(Daily)
    else if s == "temel" then Some(Basic)
    else None
  }

  function ParseScreenSize(s: string): (r: Option<ScreenSize>)
    ensures r.Some? ==> ScreenSizeCode(r.value) == s
    ensures forall z: ScreenSize :: s == ScreenSizeCode(z) ==> r == Some(z)
  {
    if s == "buyuk" then Some(Large)
    else if s == "kompakt" then Some(Compact)
    else if s == "farketmez" then Some(AnySize)
    else None
  }

  function ParseOsChoice(s: string): (r: Option<OsChoice>)
    ensures r.Some? ==> OsChoiceCode(r.value) == s
    ensures forall o: OsChoice :: s == OsChoiceCode(o) ==> r == Some(o)
  {
    if s == "android" then Some(Android)
    else if s == "ios" then Some(Ios)
    else if s == "farketmez" then Some(AnyOs)
    else None
  }
}
