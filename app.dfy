/** The application state controller (App.tsx): the recommendation list, the loading and
    error flags, the comparison selection, the favourites, the brand/OS filters and the
    similar-phones dialog. Every handler becomes a method of `AppState`; the list updates
    the handlers hand to React are the pure functions before it. */
module App {
  import opened Wrappers
  import opened Types
  import opened Ranking
  import opened GeminiService

  /** The message shown when a search fails. */
  const SearchFailed := "Tavsiyeler alınırken bir hata oluştu. Lütfen tekrar deneyin."

  /** The largest number of phones the comparison holds. */
  const MaxCompared := 3

  /** The filter value that lets every brand or every operating system through. */
  const All := "all"

  // ---------------------------------------------------------------- comparison list

  /** At most three phones, no two of the same model. */
  predicate ComparisonValid(list: seq<PhoneRecommendation>) {
    |list| <= MaxCompared
    && forall i, j | 0 <= i < j < |list| :: list[i].model != list[j].model
  }

  /** `handleAddToComparison`'s update: a full list is left as it is (and the user is
      told), so is a list that already holds the model; otherwise the phone goes last. */
  function AddedToComparison(list: seq<PhoneRecommendation>, phone: PhoneRecommendation): (r: seq<PhoneRecommendation>)
    ensures ComparisonValid(list) ==> ComparisonValid(r)
    ensures r == list || r == list + [phone]
    ensures r == list + [phone] <==> |list| < MaxCompared && !HasModel(list, phone.model)
    ensures HasModel(r, phone.model) <==> HasModel(list, phone.model) || |list| < MaxCompared
  {
    if |list| >= MaxCompared then list
    else if HasModel(list, phone.model) then list
    else
      assert (list + [phone])[|list|] == phone;
      list + [phone]
  }

  /** `prevList.filter(p => p.model !== phoneModel)`. */
  function WithoutModel(list: seq<PhoneRecommendation>, model: string): seq<PhoneRecommendation>
  {
    if list == [] then []
    else if list[0].model == model then WithoutModel(list[1..], model)
    else [list[0]] + WithoutModel(list[1..], model)
  }

  /** The kept entries are exactly the entries of another model. */
  lemma {:induction false} WithoutModelMembers(list: seq<PhoneRecommendation>, model: string)
    ensures forall p :: p in WithoutModel(list, model) <==> p in list && p.model != model
  {
    if list != [] {
      WithoutModelMembers(list[1..], model);
      assert list == [list[0]] + list[1..];
    }
  }

  /** Removing a model from a valid comparison list keeps it valid and drops exactly the
      one entry of that model, if there is one. */
  lemma {:induction false} RemoveKeepsComparisonValid(list: seq<PhoneRecommendation>, model: string)
    requires ComparisonValid(list)
    ensures ComparisonValid(WithoutModel(list, model))
    ensures !HasModel(WithoutModel(list, model), model)
    ensures |WithoutModel(list, model)| == if HasModel(list, model) then |list| - 1 else |list|
  {
    if list != [] {
      var tail := list[1..];
      ValidTail(list);
      RemoveKeepsComparisonValid(tail, model);
      HasModelTail(list, model);
      if list[0].model == model {
        WithoutAbsent(tail, model);
      } else {
        var r := [list[0]] + WithoutModel(tail, model);
        WithoutModelMembers(tail, model);
        forall j | 0 < j < |r| ensures r[0].model != r[j].model {
          assert r[j] in WithoutModel(tail, model);
          var k :| 0 <= k < |tail| && tail[k] == r[j];
        }
      }
    }
  }

  /** The tail of a valid list is valid and does not hold the head's model. */
  lemma ValidTail(list: seq<PhoneRecommendation>)
    requires ComparisonValid(list) && list != []
    ensures ComparisonValid(list[1..]) && !HasModel(list[1..], list[0].model)
  {
    var tail := list[1..];
    forall i, j | 0 <= i < j < |tail| ensures tail[i].model != tail[j].model {
      assert list[i + 1].model != list[j + 1].model;
    }
    forall i | 0 <= i < |tail| ensures tail[i].model != list[0].model {
      assert list[0].model != list[i + 1].model;
    }
  }

  /** A list holds a model when its head or its tail does. */
  lemma HasModelTail(list: seq<PhoneRecommendation>, model: string)
    requires list != []
    ensures HasModel(list, model) <==> list[0].model == model || HasModel(list[1..], model)
  {
    if HasModel(list, model) && list[0].model != model {
      var k :| 0 <= k < |list| && list[k].model == model;
      assert list[1..][k - 1].model == model;
    }
    if HasModel(list[1..], model) {
      var k :| 0 <= k < |list[1..]| && list[1..][k].model == model;
      assert list[k + 1].model == model;
    }
  }

  lemma WithoutModelCons(x: PhoneRecommendation, s: seq<PhoneRecommendation>, model: string)
    ensures WithoutModel([x] + s, model) == (if x.model == model then [] else [x]) + WithoutModel(s, model)
  {
    assert ([x] + s)[0] == x && ([x] + s)[1..] == s;
  }

  /** Removing a model the list does not hold changes nothing. */
  lemma {:induction false} WithoutAbsent(list: seq<PhoneRecommendation>, model: string)
    requires !HasModel(list, model)
    ensures WithoutModel(list, model) == list
  {
    if list != [] {
      assert list[0].model != model;
      assert !HasModel(list[1..], model) by {
        forall i | 0 <= i < |list[1..]| ensures list[1..][i].model != model {
          assert list[1..][i] == list[i + 1];
        }
      }
      WithoutAbsent(list[1..], model);
      assert list == [list[0]] + list[1..];
    }
  }

  /** Removal keeps the order of the entries it keeps: removing from a concatenation is
      removing from each part. */
  lemma {:induction false} WithoutModelAppend(a: seq<PhoneRecommendation>, b: seq<PhoneRecommendation>, model: string)
    ensures WithoutModel(a + b, model) == WithoutModel(a, model) + WithoutModel(b, model)
  {
    if a == [] {
      assert a + b == b;
    } else {
      var x, t := a[0], a[1..];
      WithoutModelAppend(t, b, model);
      assert a == [x] + t && a + b == [x] + (t + b);
      WithoutModelCons(x, t, model);
      WithoutModelCons(x, t + b, model);
    }
  }

  // ---------------------------------------------------------------- favourites

  /** `prev.filter(model => model !== phoneModel)`. */
  function Without(favs: seq<string>, model: string): (r: seq<string>)
    ensures model !in r
    ensures forall m :: m in r <==> m in favs && m != model
  {
    if favs == [] then []
    else if favs[0] == model then Without(favs[1..], model)
    else [favs[0]] + Without(favs[1..], model)
  }

  /** `handleToggleFavorite`'s update: a model in the favourites is removed, any other is
      appended. */
  function ToggledFavorite(favs: seq<string>, model: string): (r: seq<string>)
    ensures model in r <==> model !in favs
    ensures forall m :: m != model ==> (m in r <==> m in favs)
  {
    if model in favs then Without(favs, model) else favs + [model]
  }

  lemma {:induction false} WithoutAbsentModel(favs: seq<string>, model: string)
    requires model !in favs
    ensures Without(favs, model) == favs
  {
    if favs != [] {
      WithoutAbsentModel(favs[1..], model);
      assert favs == [favs[0]] + favs[1..];
    }
  }

  lemma {:induction false} WithoutAppended(favs: seq<string>, model: string)
    requires model !in favs
    ensures Without(favs + [model], model) == favs
  {
    if favs == [] {
      assert [model][1..] == [];
    } else {
      WithoutAppended(favs[1..], model);
      assert (favs + [model])[1..] == favs[1..] + [model];
      assert favs == [favs[0]] + favs[1..];
    }
  }

  /** Toggling a model twice gives back the same set of favourites; when the model was not
      a favourite, it gives back the very same list. */
  lemma ToggleTwice(favs: seq<string>, model: string)
    ensures (set m | m in ToggledFavorite(ToggledFavorite(favs, model), model)) == (set m | m in favs)
    ensures model !in favs ==> ToggledFavorite(ToggledFavorite(favs, model), model) == favs
  {
    if model !in favs {
      WithoutAppended(favs, model);
    }
  }

  // ---------------------------------------------------------------- filters

  datatype ActiveFilters = ActiveFilters(brand: string, os: string)
  datatype FilterAxis = BrandAxis | OsAxis

  const NoFilters := ActiveFilters(All, All)

  /** A phone passes when each axis is "all" or equals the phone's value on it. */
  predicate Matches(phone: PhoneRecommendation, f: ActiveFilters) {
    (f.brand == All || phone.brand == f.brand) && (f.os == All || phone.os == f.os)
  }

  /** `filteredRecommendations`: the phones that pass the filters, in list order. */
  function Filtered(recs: seq<PhoneRecommendation>, f: ActiveFilters): seq<PhoneRecommendation>
  {
    if recs == [] then []
    else if Matches(recs[0], f) then [recs[0]] + Filtered(recs[1..], f)
    else Filtered(recs[1..], f)
  }

  /** The filtered list holds exactly the phones that pass both axes. */
  lemma {:induction false} FilteredMembers(recs: seq<PhoneRecommendation>, f: ActiveFilters)
    ensures forall p :: p in Filtered(recs, f) <==> p in recs && Matches(p, f)
  {
    if recs != [] {
      FilteredMembers(recs[1..], f);
      assert recs == [recs[0]] + recs[1..];
    }
  }

  /** Filtering keeps order: filtering a concatenation is filtering each part. */
  lemma {:induction false} FilteredAppend(a: seq<PhoneRecommendation>, b: seq<PhoneRecommendation>, f: ActiveFilters)
    ensures Filtered(a + b, f) == Filtered(a, f) + Filtered(b, f)
  {
    if a == [] {
      assert a + b == b;
    } else {
      var x, t := a[0], a[1..];
      FilteredAppend(t, b, f);
      assert a == [x] + t && a + b == [x] + (t + b);
      FilteredCons(x, t, f);
      FilteredCons(x, t + b, f);
    }
  }

  lemma FilteredCons(x: PhoneRecommendation, s: seq<PhoneRecommendation>, f: ActiveFilters)
    ensures Filtered([x] + s, f) == (if Matches(x, f) then [x] else []) + Filtered(s, f)
  {
    assert ([x] + s)[0] == x && ([x] + s)[1..] == s;
  }

  /** With both axes at "all" the whole list is shown. */
  lemma {:induction false} FilteredNoFilters(recs: seq<PhoneRecommendation>)
    ensures Filtered(recs, NoFilters) == recs
  {
    if recs != [] {
      FilteredNoFilters(recs[1..]);
      assert recs == [recs[0]] + recs[1..];
    }
  }

  /** The filtered list of a list sorted by score is still sorted by score. */
  lemma {:induction false} FilteredSorted(recs: seq<PhoneRecommendation>, f: ActiveFilters)
    requires SortedByScore(recs)
    ensures SortedByScore(Filtered(recs, f))
  {
    if recs != [] {
      var tail := recs[1..];
      assert SortedByScore(tail) by {
        forall i, j | 0 <= i < j < |tail| ensures tail[i].matchScore >= tail[j].matchScore {
          assert tail[i] == recs[i + 1] && tail[j] == recs[j + 1];
        }
      }
      FilteredSorted(tail, f);
      var r := Filtered(recs, f);
      if Matches(recs[0], f) {
        FilteredMembers(tail, f);
        forall j | 0 < j < |r| ensures r[0].matchScore >= r[j].matchScore {
          assert r[j] in Filtered(tail, f);
          var k :| 0 <= k < |tail| && tail[k] == r[j];
          assert recs[k + 1] == r[j];
        }
      }
    }
  }

  /** `handleFilterChange`: only the named axis changes. */
  function WithFilter(f: ActiveFilters, axis: FilterAxis, value: string): (r: ActiveFilters)
    ensures axis == BrandAxis ==> r.brand == value && r.os == f.os
    ensures axis == OsAxis ==> r.os == value && r.brand == f.brand
  {
    match axis
    case BrandAxis => f.(brand := value)
    case OsAxis => f.(os := value)
  }

  // ---------------------------------------------------------------- the controller

  /** All of the controller's state at one moment. */
  datatype Snapshot = Snapshot(
    recommendations: seq<PhoneRecommendation>,
    isLoading: bool,
    error: Option<string>,
    isFormSubmitted: bool,
    comparisonList: seq<PhoneRecommendation>,
    favorites: seq<string>,
    activeFilters: ActiveFilters,
    similarPhones: seq<PhoneRecommendation>,
    isSimilarLoading: bool,
    similarModalTarget: Option<PhoneRecommendation>,
    storedFavorites: seq<string>)

  class AppState {
    var recommendations: seq<PhoneRecommendation>
    var isLoading: bool
    var error: Option<string>
    var isFormSubmitted: bool
    var comparisonList: seq<PhoneRecommendation>
    var favorites: seq<string>
    var activeFilters: ActiveFilters
    var similarPhones: seq<PhoneRecommendation>
    var isSimilarLoading: bool
    var similarModalTarget: Option<PhoneRecommendation>
    /** What the browser's storage holds under the favourites key. */
    var storedFavorites: seq<string>

    function State(): Snapshot
      reads this
    {
      Snapshot(recommendations, isLoading, error, isFormSubmitted, comparisonList, favorites,
               activeFilters, similarPhones, isSimilarLoading, similarModalTarget, storedFavorites)
    }

    /** The comparison list is within bounds, the stored favourites mirror the favourites,
        the recommendations are sorted, and before the first search nothing has been
        loaded or has failed. */
    ghost predicate Valid()
      reads this
    {
      ComparisonValid(comparisonList)
      && storedFavorites == favorites
      && SortedByScore(recommendations)
      && (!isFormSubmitted ==> recommendations == [] && error.None? && !isLoading)
    }

    /** Mounting: the favourites come from storage, or are empty when storage held
        nothing readable. */
    constructor (stored: Option<seq<string>>)
      ensures Valid()
      ensures recommendations == [] && !isLoading && error.None? && !isFormSubmitted
      ensures comparisonList == [] && activeFilters == NoFilters
      ensures similarPhones == [] && !isSimilarLoading && similarModalTarget.None?
      ensures favorites == (if stored.Some? then stored.value else [])
    {
      recommendations, isLoading, error, isFormSubmitted := [], false, None, false;
      comparisonList := [];
      favorites := if stored.Some? then stored.value else [];
      activeFilters := NoFilters;
      similarPhones, isSimilarLoading, similarModalTarget := [], false, None;
      storedFavorites := favorites;
    }

    /** `filteredRecommendations`. */
    function FilteredRecommendations(): (r: seq<PhoneRecommendation>)
      reads this
      ensures forall p :: p in r <==> p in recommendations && Matches(p, activeFilters)
    {
      FilteredMembers(recommendations, activeFilters);
      Filtered(recommendations, activeFilters)
    }

    /** The start of `handleGenerateRecommendations`: loading, no error, submitted, no
        comparison, no filters; the list itself stays until the reply arrives. */
    method SubmitSearch()
      requires Valid()
      modifies this
      ensures Valid()
      ensures State() == old(State()).(isLoading := true, error := None, isFormSubmitted := true,
                                       comparisonList := [], activeFilters := NoFilters)
    {
      isLoading := true;
      error := None;
      isFormSubmitted := true;
      comparisonList := [];
      activeFilters := NoFilters;
    }

    /** The rest of `handleGenerateRecommendations`, once `getPhoneRecommendations`
        settles: on success the result, sorted once more, replaces the list; on failure
        the list stays and the error is set. Loading ends either way. */
    method CompleteSearch(outcome: Result<seq<PhoneRecommendation>, string>)
      requires Valid() && isFormSubmitted
      modifies this
      ensures Valid()
      ensures outcome.Success? ==>
        State() == old(State()).(recommendations := SortByScore(outcome.value), isLoading := false)
      ensures outcome.Failure? ==>
        State() == old(State()).(error := Some(SearchFailed), isLoading := false)
    {
      if outcome.Success? {
        var a := SeqToArray(outcome.value);
        SortInPlace(a);
        SortByScoreSorted(outcome.value);
        recommendations := a[..];
      } else {
        error := Some(SearchFailed);
      }
      isLoading := false;
    }

    /** `handleAddToComparison`; `notified` is the alert of a full list. */
    method AddToComparison(phone: PhoneRecommendation) returns (notified: bool)
      requires Valid()
      modifies this
      ensures Valid()
      ensures notified <==> |old(comparisonList)| >= MaxCompared
      ensures State() == old(State()).(comparisonList := AddedToComparison(old(comparisonList), phone))
    {
      notified := |comparisonList| >= MaxCompared;
      comparisonList := AddedToComparison(comparisonList, phone);
    }

    /** `handleRemoveFromComparison`. */
    method RemoveFromComparison(model: string)
      requires Valid()
      modifies this
      ensures Valid()
      ensures State() == old(State()).(comparisonList := WithoutModel(old(comparisonList), model))
    {
      RemoveKeepsComparisonValid(comparisonList, model);
      comparisonList := WithoutModel(comparisonList, model);
    }

    /** `handleClearComparison`. */
    method ClearComparison()
      requires Valid()
      modifies this
      ensures Valid()
      ensures State() == old(State()).(comparisonList := [])
    {
      comparisonList := [];
    }

    /** `handleToggleFavorite`, followed by the write of the favourites to storage. */
    method ToggleFavorite(model: string)
      requires Valid()
      modifies this
      ensures Valid()
      ensures State() == old(State()).(favorites := ToggledFavorite(old(favorites), model),
                                       storedFavorites := ToggledFavorite(old(favorites), model))
    {
      favorites := ToggledFavorite(favorites, model);
      storedFavorites := favorites;
    }

    /** `handleFilterChange`. */
    method FilterChange(axis: FilterAxis, value: string)
      requires Valid()
      modifies this
      ensures Valid()
      ensures State() == old(State()).(activeFilters := WithFilter(old(activeFilters), axis, value))
    {
      activeFilters := WithFilter(activeFilters, axis, value);
    }

    /** `handleClearFilters`. */
    method ClearFilters()
      requires Valid()
      modifies this
      ensures Valid()
      ensures State() == old(State()).(activeFilters := NoFilters)
    {
      activeFilters := NoFilters;
    }

    /** The start of `handleShowSimilar`: the dialog opens on the phone, empty and loading. */
    method ShowSimilar(phone: PhoneRecommendation)
      requires Valid()
      modifies this
      ensures Valid()
      ensures State() == old(State()).(similarModalTarget := Some(phone), isSimilarLoading := true,
                                       similarPhones := [])
    {
      similarModalTarget := Some(phone);
      isSimilarLoading := true;
      similarPhones := [];
    }

    /** The rest of `handleShowSimilar`, once `getSimilarPhones` settles: the result is
        stored on success, nothing on failure, and loading ends. The write does not check
        that the dialog is still open on the same phone: a reply arriving after the dialog
        was closed still fills `similarPhones`. */
    method CompleteShowSimilar(outcome: Result<seq<PhoneRecommendation>, string>)
      requires Valid()
      modifies this
      ensures Valid()
      ensures outcome.Success? ==>
        State() == old(State()).(similarPhones := outcome.value, isSimilarLoading := false)
      ensures outcome.Failure? ==> State() == old(State()).(isSimilarLoading := false)
    {
      if outcome.Success? {
        similarPhones := outcome.value;
      }
      isSimilarLoading := false;
    }

    /** `handleCloseSimilarModal`. */
    method CloseSimilarModal()
      requires Valid()
      modifies this
      ensures Valid()
      ensures State() == old(State()).(similarModalTarget := None, similarPhones := [])
    {
      similarModalTarget := None;
      similarPhones := [];
    }
  }
}
