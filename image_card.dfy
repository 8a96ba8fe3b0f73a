/**
  One tile of the gallery: the Tailwind class chosen for its aspect ratio, the props
  comparison that decides whether it re-renders, and its loading indicator.
*/
module ImageCard {
  import opened Options
  import opened Text

  /** The ratios with a dedicated class. */
  const KnownRatios: set<string> := {"1:1", "16:9", "9:16", "4:3", "3:4", "21:9"}

  /**
    `getAspectRatioClass`: a fixed class for the known ratios; otherwise the first two
    `:`-separated parts as an arbitrary value, where a missing second part prints as
    `undefined` (what a template literal makes of it).
  */
  function AspectRatioClass(ratio: string): string {
    match ratio
    case "1:1" => "aspect-square"
    case "16:9" => "aspect-video"
    case "9:16" => "aspect-[9/16]"
    case "4:3" => "aspect-[4/3]"
    case "3:4" => "aspect-[3/4]"
    case "21:9" => "aspect-[21/9]"
    case _ => ArbitraryRatioClass(ratio)
  }

  /** The `default` branch: an arbitrary-value class built from the first two parts. */
  function ArbitraryRatioClass(ratio: string): string {
    var parts := SplitOn(ratio, ':');
    var width := parts[0];
    var height := if |parts| > 1 then parts[1] else "undefined";
    "aspect-[" + width + "/" + height + "]"
  }

  /** The class a card uses: `getAspectRatioClass(image.aspectRatio || '1:1')`. */
  function CardAspectClass(aspectRatio: Option<string>): string {
    var ratio := aspectRatio.GetOr("");
    AspectRatioClass(if ratio == "" then "1:1" else ratio)
  }

  /** The six known ratios map to their fixed classes. */
  lemma KnownRatioClasses()
    ensures AspectRatioClass("1:1") == "aspect-square"
    ensures AspectRatioClass("16:9") == "aspect-video"
    ensures AspectRatioClass("9:16") == "aspect-[9/16]"
    ensures AspectRatioClass("4:3") == "aspect-[4/3]"
    ensures AspectRatioClass("3:4") == "aspect-[3/4]"
    ensures AspectRatioClass("21:9") == "aspect-[21/9]"
  {
  }

  /** A missing or empty aspect ratio gets the square class. */
  lemma MissingRatioIsSquare(aspectRatio: Option<string>)
    requires aspectRatio == None || aspectRatio == Some("")
    ensures CardAspectClass(aspectRatio) == "aspect-square"
  {
  }

  /**
    Any other ratio `w:h` (possibly followed by more `:`-separated parts) yields
    `aspect-[w/h]`.
  */
  lemma FallbackClass(w: string, h: string, rest: string)
    requires ':' !in w && ':' !in h
    requires rest == "" || rest[0] == ':'
    requires w + ":" + h + rest !in KnownRatios
    ensures AspectRatioClass(w + ":" + h + rest) == "aspect-[" + w + "/" + h + "]"
  {
    var ratio := w + ":" + h + rest;
    assert AspectRatioClass(ratio) == ArbitraryRatioClass(ratio);
    ArbitraryParts(w, h, rest);
  }

  /** The split behind `FallbackClass`, on the `default` branch alone. */
  lemma ArbitraryParts(w: string, h: string, rest: string)
    requires ':' !in w && ':' !in h
    requires rest == "" || rest[0] == ':'
    ensures ArbitraryRatioClass(w + ":" + h + rest) == "aspect-[" + w + "/" + h + "]"
  {
    var ratio := w + ":" + h + rest;
    var tail := [':'] + h + rest;
    assert ratio == w + tail;
    SplitPrefix(w, tail, ':');
    assert tail[1..] == h + rest;
    var parts := SplitOn(ratio, ':');
    assert parts == [w] + SplitOn(h + rest, ':');
    var later := SplitOn(h + rest, ':');
    if rest == "" {
      assert h + rest == h;
      SplitPiece(h, ':');
      assert later == [h];
    } else {
      SplitPrefix(h, rest, ':');
      assert later[0] == h;
    }
    assert parts[0] == w && |parts| > 1 && parts[1] == h;
  }

  /** A ratio without any `:` yields `aspect-[ratio/undefined]`. */
  lemma NoColonClass(ratio: string)
    requires ':' !in ratio
    ensures AspectRatioClass(ratio) == "aspect-[" + ratio + "/undefined]"
  {
    assert ratio !in KnownRatios;
    SplitPiece(ratio, ':');
  }

  /** The `image` prop of a card; `None` stands for an absent optional field. */
  datatype CardImage = CardImage(
    id: string,
    r2Url: Option<string>,
    modelName: string,
    aspectRatio: Option<string>,
    width: Option<int>,
    height: Option<int>,
    isPlaceholder: Option<bool>)

  /** The `memo` comparator: `true` means the card is not re-rendered. */
  predicate SameProps(prev: CardImage, next: CardImage) {
    && prev.id == next.id
    && prev.r2Url == next.r2Url
    && prev.modelName == next.modelName
    && prev.isPlaceholder == next.isPlaceholder
  }

  /**
    The comparator reports equal props exactly when the two images differ at most in
    aspect ratio, width and height.
  */
  lemma SamePropsIff(prev: CardImage, next: CardImage)
    ensures SameProps(prev, next) <==>
              prev.(aspectRatio := next.aspectRatio, width := next.width, height := next.height) == next
  {
  }

  /** The comparator is an equivalence, so skipping a render is consistent over time. */
  lemma SamePropsEquivalence(a: CardImage, b: CardImage, c: CardImage)
    ensures SameProps(a, a)
    ensures SameProps(a, b) ==> SameProps(b, a)
    ensures SameProps(a, b) && SameProps(b, c) ==> SameProps(a, c)
  {
  }

  /** JavaScript truthiness of an optional string. */
  predicate Truthy(s: Option<string>) {
    s.Some? && s.value != ""
  }

  /** `!!image.isPlaceholder`. */
  predicate IsSet(flag: Option<bool>) {
    flag == Some(true)
  }

  /** The loading flag a card starts with: `!!image.isPlaceholder || !!image.r2Url`. */
  predicate StartsLoading(image: CardImage) {
    IsSet(image.isPlaceholder) || Truthy(image.r2Url)
  }

  /** The loading indicator of one mounted card and the url it last reacted to. */
  class CardLoading {
    var isLoading: bool
    var lastUrl: Option<string>

    constructor (image: CardImage)
      ensures isLoading == StartsLoading(image)
      ensures lastUrl == None
    {
      isLoading := IsSet(image.isPlaceholder) || Truthy(image.r2Url);
      lastUrl := None;
    }

    /**
      The effect on `[image.r2Url, image.isPlaceholder]`: only a url different from the
      last one seen resets the flag, to loading for a non-empty url, else to the
      placeholder flag.
    */
    method OnImageProps(image: CardImage)
      modifies this
      ensures image.r2Url != old(lastUrl) ==> lastUrl == image.r2Url && isLoading == StartsLoading(image)
      ensures image.r2Url == old(lastUrl) ==> lastUrl == old(lastUrl) && isLoading == old(isLoading)
    {
      if image.r2Url != lastUrl {
        lastUrl := image.r2Url;
        if Truthy(image.r2Url) {
          isLoading := true;
        } else {
          isLoading := IsSet(image.isPlaceholder);
        }
      }
    }

    /**
      The layout effect and the image ref callback: an image element that reports
      `complete` while the url is non-empty ends loading.
    */
    method OnImageElement(image: CardImage, complete: bool)
      modifies this
      ensures isLoading == (old(isLoading) && !(complete && Truthy(image.r2Url)))
      ensures lastUrl == old(lastUrl)
    {
      if complete && Truthy(image.r2Url) {
        isLoading := false;
      }
    }

    /** `onLoad` and `onError` of the image element both end loading. */
    method OnImageSettled()
      modifies this
      ensures !isLoading && lastUrl == old(lastUrl)
    {
      isLoading := false;
    }
  }
}
