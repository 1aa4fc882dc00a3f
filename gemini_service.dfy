/** The client of the generative-AI service (services/geminiService.ts). Each remote call
    is a function-typed parameter from the request prompt to what came back: `None` when
    the call or the parsing of its JSON reply threw, `Some(reply)` otherwise. What this
    module decides is everything around that call: which preference fields the prompt
    carries, the order of the returned list, the fixed error messages, the bullet lines of
    a feature comparison and the data URL of a generated image. */
module GeminiService {
  import opened Wrappers
  import opened Types
  import opened Strings
  import opened Ranking

  const RecommendationsFailed := "Yapay zeka modelinden tavsiye alınamadı."
  const SimilarFailed := "Yapay zeka modelinden benzer modeller alınamadı."
  const ComparisonFailed := "Yapay zeka modelinden karşılaştırma alınamadı."

  /** The prefix of the URL a generated image is returned as. */
  const DataUrlPrefix := "data:image/png;base64,"

  /** The fields of a recommendation in the response schema, and those it marks required:
      every field but `mismatchReason`. */
  const RecommendationFields: seq<string> :=
    ["model", "brand", "os", "estimatedPrice", "summary", "pros", "cons", "specs",
     "matchScore", "mismatchReason"]
  const RecommendationRequired: seq<string> :=
    ["model", "brand", "os", "estimatedPrice", "summary", "pros", "cons", "specs", "matchScore"]

  /** The fields of `specs` in the response schema; all six are required. */
  const SpecsFields: seq<string> := ["display", "battery", "camera", "processor", "ram", "storage"]
  const SpecsRequired: seq<string> := ["display", "battery", "camera", "processor", "ram", "storage"]

  lemma SchemaRequiredFields()
    ensures forall f :: f in RecommendationRequired <==> f in RecommendationFields && f != "mismatchReason"
    ensures forall f :: f in SpecsRequired <==> f in SpecsFields
  {
  }

  /** The lines of the prompt that carry the user's preferences: the budget and the five
      option values, each after its own label. */
  function PreferenceLines(p: UserPreferences): seq<string> {
    [ "- Bütçe: Maksimum " + IntToString(p.budget) + " TL",
      "- Kamera Önceliği: " + PriorityCode(p.camera),
      "- Batarya Ömrü Önceliği: " + PriorityCode(p.battery),
      "- Performans Beklentisi: " + UsageCode(p.performance) + PerformanceHint,
      "- Ekran Boyutu Terhi: " + ScreenSizeCode(p.screenSize),
      "- İşletim Sistemi Terhi: " + OsChoiceCode(p.os) ]
  }

  /** The question that follows the performance value on its line. */
  const PerformanceHint := " (Oyun odaklı mı, " + "günlük kullanım mı, " + "temel işlevler mi?)"

  /** The request for five recommendations. The fixed instructions around the preference
      lines are kept only as opening and closing text. */
  const RecommendationsIntro := "Kullanıcı Tercihleri:\n"
  const RecommendationsOutro := "\nLütfen bu kriterlere en uygun, güncel ve Türkiye'de bulunabilir 5 farklı telefon öner."

  function BuildPrompt(p: UserPreferences): (prompt: string) {
    RecommendationsIntro + Join(PreferenceLines(p), "\n") + RecommendationsOutro
  }

  /** The prompt carries every preference field, one per line, in a fixed order: the lines
      between the opening and closing text split back into exactly the six field lines. */
  lemma BuildPromptCarriesPreferences(p: UserPreferences)
    ensures StartsWith(BuildPrompt(p), RecommendationsIntro)
    ensures var body := BuildPrompt(p)[|RecommendationsIntro|..|BuildPrompt(p)| - |RecommendationsOutro|];
            Split(body, "\n") == PreferenceLines(p)
  {
    var lines := PreferenceLines(p);
    var body := Join(lines, "\n");
    var prompt := BuildPrompt(p);
    assert prompt == RecommendationsIntro + body + RecommendationsOutro;
    assert prompt[..|RecommendationsIntro|] == RecommendationsIntro;
    assert prompt[|RecommendationsIntro|..|prompt| - |RecommendationsOutro|] == body;
    PreferenceLinesUnbroken(p);
    forall k | 0 <= k < |lines| ensures !Contains(lines[k], "\n") {
      LineFree(lines[k]);
    }
    SplitJoin(lines, "\n");
  }

  predicate Unbroken(s: string) {
    forall i | 0 <= i < |s| :: s[i] != '\n'
  }

  lemma ConcatUnbroken(a: string, b: string)
    requires Unbroken(a) && Unbroken(b)
    ensures Unbroken(a + b)
  {
    forall i | 0 <= i < |a + b| ensures (a + b)[i] != '\n' {
      if i >= |a| {
        assert (a + b)[i] == b[i - |a|];
      }
    }
  }

  lemma PreferenceLinesUnbroken(p: UserPreferences)
    ensures forall k | 0 <= k < |PreferenceLines(p)| :: Unbroken(PreferenceLines(p)[k])
  {
    BudgetLineUnbroken(p.budget);
    PriorityLinesUnbroken(p.camera, p.battery);
    UsageLineUnbroken(p.performance);
    ChoiceLinesUnbroken(p.screenSize, p.os);
  }

  lemma BudgetLineUnbroken(budget: int)
    ensures Unbroken("- Bütçe: Maksimum " + IntToString(budget) + " TL")
  {
    var digits := IntToString(budget);
    assert Unbroken(digits) by {
      if budget < 0 {
        ConcatUnbroken("-", Decimal(-budget));
      }
    }
    ConcatUnbroken("- Bütçe: Maksimum ", digits);
    ConcatUnbroken("- Bütçe: Maksimum " + digits, " TL");
  }

  lemma PriorityLinesUnbroken(camera: Priority, battery: Priority)
    ensures Unbroken("- Kamera Önceliği: " + PriorityCode(camera))
    ensures Unbroken("- Batarya Ömrü Önceliği: " + PriorityCode(battery))
  {
    ConcatUnbroken("- Kamera Önceliği: ", PriorityCode(camera));
    ConcatUnbroken("- Batarya Ömrü Önceliği: ", PriorityCode(battery));
  }

  lemma UsageLineUnbroken(performance: Usage)
    ensures Unbroken("- Performans Beklentisi: " + UsageCode(performance) + PerformanceHint)
  {
    ConcatUnbroken("- Performans Beklentisi: ", UsageCode(performance));
    HintUnbroken();
    ConcatUnbroken("- Performans Beklentisi: " + UsageCode(performance), PerformanceHint);
  }

  lemma HintUnbroken()
    ensures Unbroken(PerformanceHint)
  {
    ConcatUnbroken(" (Oyun odaklı mı, ", "günlük kullanım mı, ");
    ConcatUnbroken(" (Oyun odaklı mı, " + "günlük kullanım mı, ", "temel işlevler mi?)");
  }

  lemma ChoiceLinesUnbroken(screenSize: ScreenSize, os: OsChoice)
    ensures Unbroken("- Ekran Boyutu Terhi: " + ScreenSizeCode(screenSize))
    ensures Unbroken("- İşletim Sistemi Terhi: " + OsChoiceCode(os))
  {
    ConcatUnbroken("- Ekran Boyutu Terhi: ", ScreenSizeCode(screenSize));
    ConcatUnbroken("- İşletim Sistemi Terhi: ", OsChoiceCode(os));
  }

  /** A line without a line-break character does not contain the separator "\n". */
  lemma LineFree(line: string)
    requires Unbroken(line)
    ensures !Contains(line, "\n")
  {
    forall i | 0 <= i <= |line| ensures !StartsWith(line[i..], "\n") {
      if i < |line| {
        assert line[i..][..1] == [line[i]];
      }
    }
  }

  /** `getPhoneRecommendations`: the parsed reply sorted by descending match score, or
      the fixed error when the call or the parsing fails. */
  method GetPhoneRecommendations(p: UserPreferences, generate: string -> Option<seq<PhoneRecommendation>>)
    returns (r: Result<seq<PhoneRecommendation>, string>)
    ensures generate(BuildPrompt(p)).None? ==> r == Failure(RecommendationsFailed)
    ensures generate(BuildPrompt(p)).Some? ==>
      r.Success? && r.value == SortByScore(generate(BuildPrompt(p)).value)
      && SortedByScore(r.value) && multiset(r.value) == multiset(generate(BuildPrompt(p)).value)
  {
    var reply := generate(BuildPrompt(p));
    if reply.None? {
      return Failure(RecommendationsFailed);
    }
    var a := SeqToArray(reply.value);
    SortInPlace(a);
    SortByScoreSorted(reply.value);
    r := Success(a[..]);
  }

  /** The request for three phones similar to a reference phone: its model, price range,
      processor, camera and battery. */
  function SimilarPrompt(phone: PhoneRecommendation): (prompt: string) {
    "Referans Telefon:\n- Model: " + phone.model
    + "\n- Fiyat Aralığı: " + phone.estimatedPrice
    + "\n- İşlemci: " + phone.specs.processor
    + "\n- Kamera: " + phone.specs.camera
    + "\n- Batarya: " + phone.specs.battery
  }

  /** `getSimilarPhones`: the same ordering as for recommendations, and its own message. */
  method GetSimilarPhones(phone: PhoneRecommendation, generate: string -> Option<seq<PhoneRecommendation>>)
    returns (r: Result<seq<PhoneRecommendation>, string>)
    ensures generate(SimilarPrompt(phone)).None? ==> r == Failure(SimilarFailed)
    ensures generate(SimilarPrompt(phone)).Some? ==>
      r.Success? && r.value == SortByScore(generate(SimilarPrompt(phone)).value)
      && SortedByScore(r.value) && multiset(r.value) == multiset(generate(SimilarPrompt(phone)).value)
  {
    var reply := generate(SimilarPrompt(phone));
    if reply.None? {
      return Failure(SimilarFailed);
    }
    var a := SeqToArray(reply.value);
    SortInPlace(a);
    SortByScoreSorted(reply.value);
    r := Success(a[..]);
  }

  /** The array `JSON.parse` builds from a reply. */
  method SeqToArray(s: seq<PhoneRecommendation>) returns (a: array<PhoneRecommendation>)
    ensures fresh(a) && a[..] == s
  {
    a := new PhoneRecommendation[|s|](i requires 0 <= i < |s| => s[i]);
  }

  /** One phone's value for the feature being compared. */
  datatype FeatureValue = FeatureValue(model: string, value: string)

  /** `- ${model}: ${value}`. */
  function FeatureLine(f: FeatureValue): string {
    "- " + f.model + ": " + f.value
  }

  /** The entries of a feature comparison, one line each, joined by line breaks. */
  function FeatureLines(values: seq<FeatureValue>): (text: string) {
    Join(seq(|values|, i requires 0 <= i < |values| => FeatureLine(values[i])), "\n")
  }

  /** Reading the lines back: when no model name or value holds a line break, the text
      splits into exactly one line per entry, in entry order, each naming its phone. */
  lemma FeatureLinesOnePerEntry(values: seq<FeatureValue>)
    requires |values| >= 1
    requires forall k | 0 <= k < |values| :: Unbroken(values[k].model) && Unbroken(values[k].value)
    ensures |Split(FeatureLines(values), "\n")| == |values|
    ensures forall k | 0 <= k < |values| ::
      Split(FeatureLines(values), "\n")[k] == "- " + values[k].model + ": " + values[k].value
  {
    var lines := seq(|values|, i requires 0 <= i < |values| => FeatureLine(values[i]));
    forall k | 0 <= k < |lines| ensures !Contains(lines[k], "\n") {
      ConcatUnbroken("- ", values[k].model);
      ConcatUnbroken("- " + values[k].model, ": ");
      ConcatUnbroken("- " + values[k].model + ": ", values[k].value);
      LineFree(lines[k]);
    }
    SplitJoin(lines, "\n");
  }

  /** The request for a comparison of one feature: its name and the entries' lines. */
  function ComparePrompt(featureName: string, values: seq<FeatureValue>): string {
    "Karşılaştırılacak Özellik: \"" + featureName + "\"\n\nTelefonlar ve Özellik Değerleri:\n"
    + FeatureLines(values)
  }

  /** `comparePhoneFeatures`: the reply text exactly as it came back, or the fixed error. */
  function ComparePhoneFeatures(featureName: string, values: seq<FeatureValue>,
                                generate: string -> Option<string>): (r: Result<string, string>)
    ensures r.Success? <==> generate(ComparePrompt(featureName, values)).Some?
    ensures r.Success? ==> r.value == generate(ComparePrompt(featureName, values)).value
    ensures r.Failure? ==> r.error == ComparisonFailed
  {
    match generate(ComparePrompt(featureName, values))
    case Some(text) => Success(text)
    case None => Failure(ComparisonFailed)
  }

  /** A part of a generated response; `inlineData` carries base64 image data. */
  datatype Part = Part(text: Option<string>, inlineData: Option<string>)
  datatype Candidate = Candidate(parts: seq<Part>)

  /** Why no image came back: the call threw, the response had no candidate (reading
      `candidates[0]` threw), or no part of the first candidate carried inline data. */
  datatype ImageError = CallFailed | NoCandidate | NoImageData

  function ImagePrompt(phoneModel: string): string {
    "A professional, high-quality product photograph of the " + phoneModel + " smartphone."
  }

  /** Part `i` is the first part that carries inline data. */
  predicate FirstImageAt(parts: seq<Part>, i: int) {
    0 <= i < |parts| && parts[i].inlineData.Some?
    && forall j | 0 <= j < i :: parts[j].inlineData.None?
  }

  /** The scan over the parts of the first candidate, returning at the first part that
      carries inline data. */
  method FirstInlineImage(parts: seq<Part>) returns (url: Option<string>)
    ensures url.None? <==> forall i | 0 <= i < |parts| :: parts[i].inlineData.None?
    ensures url.Some? ==> exists i ::
      FirstImageAt(parts, i) && url.value == DataUrlPrefix + parts[i].inlineData.value
  {
    var i := 0;
    while i < |parts|
      invariant 0 <= i <= |parts|
      invariant forall j | 0 <= j < i :: parts[j].inlineData.None?
    {
      if parts[i].inlineData.Some? {
        assert FirstImageAt(parts, i);
        return Some(DataUrlPrefix + parts[i].inlineData.value);
      }
      i := i + 1;
    }
    return None;
  }

  /** `generatePhoneImage`: a data URL built from the first part with inline data. */
  method GeneratePhoneImage(phoneModel: string, generate: string -> Option<seq<Candidate>>)
    returns (r: Result<string, ImageError>)
    ensures generate(ImagePrompt(phoneModel)).None? ==> r == Failure(CallFailed)
    ensures generate(ImagePrompt(phoneModel)) == Some([]) ==> r == Failure(NoCandidate)
    ensures r.Success? ==> StartsWith(r.value, DataUrlPrefix)
    ensures r.Success? ==>
      var reply := generate(ImagePrompt(phoneModel));
      reply.Some? && reply.value != []
      && exists i :: FirstImageAt(reply.value[0].parts, i)
                     && r.value == DataUrlPrefix + reply.value[0].parts[i].inlineData.value
    ensures r.Success? <==>
      (generate(ImagePrompt(phoneModel)).Some? && generate(ImagePrompt(phoneModel)).value != []
       && exists i | 0 <= i < |generate(ImagePrompt(phoneModel)).value[0].parts| ::
            generate(ImagePrompt(phoneModel)).value[0].parts[i].inlineData.Some?)
  {
    var reply := generate(ImagePrompt(phoneModel));
    if reply.None? {
      return Failure(CallFailed);
    }
    if reply.value == [] {
      return Failure(NoCandidate);
    }
    var url := FirstInlineImage(reply.value[0].parts);
    if url.None? {
      return Failure(NoImageData);
    }
    r := Success(url.value);
  }
}
