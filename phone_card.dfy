/** One recommendation card (components/PhoneCard.tsx): its generated picture, fetched
    whenever the card's model changes and written only while that fetch is still current,
    the fallback picture used when generation fails, and the details overlay. */
module PhoneCard {
  import opened Wrappers
  import opened Strings
  import opened GeminiService

  const FallbackPrefix := "https://picsum.photos/seed/"
  const FallbackSuffix := "/600/400"

  /** `model.replace(/\s+/g, '')`. */
  function FallbackSeed(model: string): (seed: string)
    ensures forall i | 0 <= i < |seed| :: !IsSpace(seed[i])
    ensures |seed| <= |model|
  {
    RemoveSpacesNoSpaces(model);
    RemoveSpaces(model)
  }

  /** The placeholder picture for a model: the seed between a fixed prefix and suffix. */
  function FallbackUrl(model: string): (url: string)
    ensures StartsWith(url, FallbackPrefix)
    ensures |url| == |FallbackPrefix| + |FallbackSeed(model)| + |FallbackSuffix|
    ensures url[|FallbackPrefix|..|url| - |FallbackSuffix|] == FallbackSeed(model)
    ensures url[|url| - |FallbackSuffix|..] == FallbackSuffix
  {
    var url := FallbackPrefix + FallbackSeed(model) + FallbackSuffix;
    assert url[..|FallbackPrefix|] == FallbackPrefix;
    assert url[|FallbackPrefix|..|url| - |FallbackSuffix|] == FallbackSeed(model);
    url
  }

  /** Two models get the same placeholder exactly when they agree once their whitespace
      is removed: the URL carries the whole seed. */
  lemma FallbackUrlIdentifiesSeed(a: string, b: string)
    ensures FallbackUrl(a) == FallbackUrl(b) <==> FallbackSeed(a) == FallbackSeed(b)
  {
  }

  /** A model without whitespace is its own seed, and a seed is its own seed. */
  lemma FallbackSeedFixedPoints(model: string)
    ensures (forall i | 0 <= i < |model| :: !IsSpace(model[i])) ==> FallbackSeed(model) == model
    ensures FallbackSeed(FallbackSeed(model)) == FallbackSeed(model)
  {
    if forall i | 0 <= i < |model| :: !IsSpace(model[i]) {
      RemoveSpacesKeepsOthers(model);
    }
    RemoveSpacesKeepsOthers(FallbackSeed(model));
  }

  /** The words of a model name run together in its seed: the whitespace between two parts
      is dropped and the characters of each are kept, in order. */
  lemma FallbackSeedJoinsWords(a: string, b: string)
    ensures FallbackSeed(a + " " + b) == FallbackSeed(a) + FallbackSeed(b)
  {
    RemoveSpacesAppend(a + " ", b);
    RemoveSpacesAppend(a, " ");
    assert IsSpace(' ');
    assert RemoveSpaces(" ") == [];
  }

  /** One run of the image effect: the model it fetches for and the `isMounted` flag its
      cleanup clears. */
  class ImageRequest {
    const subject: string
    var isMounted: bool

    constructor (subject: string)
      ensures this.subject == subject && isMounted
    {
      this.subject := subject;
      isMounted := true;
    }
  }

  class Card {
    var model: string
    var imageUrl: Option<string>
    var isImageLoading: bool
    var isExpanded: bool
    /** The effect run that belongs to the current model. */
    var request: ImageRequest

    ghost predicate Valid()
      reads this
    {
      request.subject == model
    }

    /** Mounting: the picture starts loading for the card's model. */
    constructor (model: string)
      ensures Valid() && this.model == model
      ensures imageUrl.None? && isImageLoading && !isExpanded
      ensures fresh(request) && request.isMounted
    {
      this.model := model;
      imageUrl := None;
      isImageLoading := true;
      isExpanded := false;
      request := new ImageRequest(model);
    }

    /** A new `recommendation.model`: the previous run is cleaned up and a new one starts
        with no picture, loading. The same model leaves everything as it is. */
    method ChangeModel(newModel: string)
      requires Valid()
      modifies this, request
      ensures Valid() && model == newModel && isExpanded == old(isExpanded)
      ensures newModel == old(model) ==>
        request == old(request) && request.isMounted == old(request.isMounted)
        && imageUrl == old(imageUrl) && isImageLoading == old(isImageLoading)
      ensures newModel != old(model) ==>
        !old(request).isMounted && fresh(request) && request.isMounted
        && imageUrl.None? && isImageLoading
    {
      if newModel != model {
        request.isMounted := false;
        model := newModel;
        isImageLoading := true;
        imageUrl := None;
        request := new ImageRequest(newModel);
      }
    }

    /** Unmounting runs the cleanup of the current run. */
    method Unmount()
      requires Valid()
      modifies request
      ensures Valid() && !request.isMounted
    {
      request.isMounted := false;
    }

    /** `fetchImage` settling for run `req`: while the run is current, the generated URL or,
        on failure, the placeholder for the run's model is shown and loading ends; once the
        run was cleaned up, nothing changes. */
    method CompleteImage(req: ImageRequest, outcome: Result<string, ImageError>)
      requires Valid()
      modifies this
      ensures Valid()
      ensures !req.isMounted ==> unchanged(this)
      ensures req.isMounted ==>
        imageUrl == Some(if outcome.Success? then outcome.value else FallbackUrl(req.subject))
        && !isImageLoading
        && model == old(model) && isExpanded == old(isExpanded) && request == old(request)
    {
      if req.isMounted {
        if outcome.Success? {
          imageUrl := Some(outcome.value);
        } else {
          imageUrl := Some(FallbackUrl(req.subject));
        }
        isImageLoading := false;
      }
    }

    /** `toggleExpand`. */
    method ToggleExpand()
      requires Valid()
      modifies this
      ensures Valid()
      ensures isExpanded == !old(isExpanded)
      ensures model == old(model) && imageUrl == old(imageUrl)
              && isImageLoading == old(isImageLoading) && request == old(request)
    {
      isExpanded := !isExpanded;
    }
  }
}
