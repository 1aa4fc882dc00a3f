/** The results area (components/Results.tsx): which one of its views is shown, and for the
    listing, the filter panel and one card per filtered recommendation with the card's
    comparison and favourite flags. */
module Results {
  import opened Wrappers
  import opened Types
  import opened App
  import opened FilterControls

  /** What the listing hands to each card besides its callbacks. */
  datatype CardProps = CardProps(recommendation: PhoneRecommendation, isInComparison: bool, isFavorite: bool)

  /** The views, in the order the component tries them. */
  datatype View =
    | Placeholder
    | Loading
    | ErrorBanner(message: string)
    | NoResults
    | Listing(filters: Option<FilterPanel>, cards: seq<CardProps>, noMatch: bool)

  /** `if (error)`: a string error counts only when it is not empty. */
  predicate ErrorShown(error: Option<string>) {
    error.Some? && error.value != ""
  }

  /** The card list: one card per filtered recommendation, in filtered order. */
  function Cards(filtered: seq<PhoneRecommendation>, comparisonList: seq<PhoneRecommendation>,
                 favorites: seq<string>): (cards: seq<CardProps>)
    ensures |cards| == |filtered|
    ensures forall i | 0 <= i < |cards| :: cards[i].recommendation == filtered[i]
    ensures forall i | 0 <= i < |cards| ::
      (cards[i].isInComparison <==> exists p | p in comparisonList :: p.model == filtered[i].model)
    ensures forall i | 0 <= i < |cards| :: (cards[i].isFavorite <==> filtered[i].model in favorites)
  {
    if filtered == [] then []
    else
      var rec := filtered[0];
      assert HasModel(comparisonList, rec.model) <==> exists p | p in comparisonList :: p.model == rec.model by {
        if HasModel(comparisonList, rec.model) {
          var k :| 0 <= k < |comparisonList| && comparisonList[k].model == rec.model;
          assert comparisonList[k] in comparisonList;
        }
      }
      [CardProps(rec, HasModel(comparisonList, rec.model), rec.model in favorites)]
      + Cards(filtered[1..], comparisonList, favorites)
  }

  /** `Results`: the placeholder before the first search, then the loading skeletons, then
      a non-empty error, then the empty-result message, and otherwise the filter panel
      (built from the unfiltered list) with the cards and, when no card is left, the
      no-match message. */
  function ResultsView(recommendations: seq<PhoneRecommendation>, filtered: seq<PhoneRecommendation>,
                       isLoading: bool, error: Option<string>, isInitialState: bool,
                       comparisonList: seq<PhoneRecommendation>, favorites: seq<string>,
                       activeFilters: ActiveFilters): (v: View)
    ensures isInitialState ==> v == Placeholder
    ensures v == Loading <==> !isInitialState && isLoading
    ensures v.ErrorBanner? <==> !isInitialState && !isLoading && ErrorShown(error)
    ensures v.ErrorBanner? ==> v.message == error.value
    ensures v == NoResults <==> !isInitialState && !isLoading && !ErrorShown(error) && recommendations == []
    ensures v.Listing? <==> !isInitialState && !isLoading && !ErrorShown(error) && recommendations != []
    ensures v.Listing? ==> v.filters.Some? && v.filters == Render(recommendations, activeFilters)
    ensures v.Listing? ==> v.cards == Cards(filtered, comparisonList, favorites)
    ensures v.Listing? ==> (v.noMatch <==> filtered == [])
  {
    if isInitialState then Placeholder
    else if isLoading then Loading
    else if ErrorShown(error) then ErrorBanner(error.value)
    else if recommendations == [] then NoResults
    else Listing(Render(recommendations, activeFilters), Cards(filtered, comparisonList, favorites), filtered == [])
  }

  /** The view the controller's state selects: before any search the placeholder shows,
      and a failed search shows its message even while the earlier list is still held. */
  lemma AppView(recs: seq<PhoneRecommendation>, isLoading: bool, error: Option<string>, isFormSubmitted: bool,
                comparisonList: seq<PhoneRecommendation>, favorites: seq<string>, f: ActiveFilters)
    ensures !isFormSubmitted ==>
      ResultsView(recs, Filtered(recs, f), isLoading, error, !isFormSubmitted, comparisonList, favorites, f) == Placeholder
    ensures isFormSubmitted && !isLoading && error == Some(SearchFailed) ==>
      ResultsView(recs, Filtered(recs, f), isLoading, error, !isFormSubmitted, comparisonList, favorites, f)
        == ErrorBanner(SearchFailed)
  {
  }

  /** With no filter set, the listing shows a card for every recommendation, in list order,
      and never the no-match message. */
  lemma UnfilteredListing(recs: seq<PhoneRecommendation>, comparisonList: seq<PhoneRecommendation>,
                          favorites: seq<string>)
    requires recs != []
    ensures var v := ResultsView(recs, Filtered(recs, NoFilters), false, None, false, comparisonList, favorites, NoFilters);
            v.Listing? && |v.cards| == |recs| && !v.noMatch
            && forall i | 0 <= i < |recs| :: v.cards[i].recommendation == recs[i]
  {
    FilteredNoFilters(recs);
  }

  /** A card's compare button is enabled (`disabled={isInComparison}`) exactly when its
      model is not in the comparison; pressing it on a list with room then adds the phone
      at the end. */
  lemma CompareEnabledAdds(cards: seq<CardProps>, filtered: seq<PhoneRecommendation>,
                           comparisonList: seq<PhoneRecommendation>, favorites: seq<string>, i: nat)
    requires cards == Cards(filtered, comparisonList, favorites)
    requires i < |cards|
    ensures !cards[i].isInComparison <==> !HasModel(comparisonList, filtered[i].model)
    ensures !cards[i].isInComparison && |comparisonList| < MaxCompared ==>
      AddedToComparison(comparisonList, cards[i].recommendation) == comparisonList + [filtered[i]]
  {
    if HasModel(comparisonList, filtered[i].model) {
      var k :| 0 <= k < |comparisonList| && comparisonList[k].model == filtered[i].model;
      assert comparisonList[k] in comparisonList;
    }
  }
}
