/**
  The studio's view of its generations and the reconciliation merge that folds one
  message of a generation's event stream into that view.
*/
module StreamMerge {
  import opened Options

  /** One image of a generation; `isPlaceholder` is `false` when the field is absent. */
  datatype ImageRecord = ImageRecord(
    id: string,
    r2Url: string,
    modelName: string,
    width: Option<int>,
    height: Option<int>,
    isPlaceholder: bool)

  /** A generation as the studio holds it; `createdAt` is a time in milliseconds. */
  datatype Generation = Generation(
    id: string,
    prompt: string,
    negativePrompt: Option<string>,
    aspectRatio: string,
    createdAt: int,
    images: seq<ImageRecord>)

  /** The payload of an `image_complete` message. */
  datatype ImageData = ImageData(
    id: string,
    generationId: string,
    r2Url: string,
    modelName: string,
    width: Option<int>,
    height: Option<int>)

  /**
    One message of a generation's stream, after `JSON.parse`: the three types the
    handler knows, a type it does not know (its `switch` has no default), and a payload
    that throws before any update (the `catch` that only logs).
  */
  datatype StreamMessage =
    | ImageComplete(image: ImageData)
    | GenerationComplete
    | ProducerError(message: string)
    | OtherType
    | Malformed

  /** `images.findIndex((img) => img.id === id)`. */
  function IndexOfId(images: seq<ImageRecord>, id: string): (k: int)
    ensures -1 <= k < |images|
    ensures k >= 0 ==> images[k].id == id
    ensures forall j :: 0 <= j < |images| && (k == -1 || j < k) ==> images[j].id != id
  {
    if |images| == 0 then -1
    else if images[0].id == id then 0
    else
      var k := IndexOfId(images[1..], id);
      if k == -1 then -1 else k + 1
  }

  /** Whether `img` is a placeholder standing for `modelName`. */
  predicate IsPlaceholderFor(img: ImageRecord, modelName: string) {
    img.isPlaceholder && img.modelName == modelName
  }

  /** `images.findIndex((img) => img.isPlaceholder && img.modelName === modelName)`. */
  function IndexOfPlaceholder(images: seq<ImageRecord>, modelName: string): (k: int)
    ensures -1 <= k < |images|
    ensures k >= 0 ==> IsPlaceholderFor(images[k], modelName)
    ensures forall j :: 0 <= j < |images| && (k == -1 || j < k) ==> !IsPlaceholderFor(images[j], modelName)
  {
    if |images| == 0 then -1
    else if IsPlaceholderFor(images[0], modelName) then 0
    else
      var k := IndexOfPlaceholder(images[1..], modelName);
      if k == -1 then -1 else k + 1
  }

  /** An existing image overwritten by the payload: `{...img, r2Url, modelName, width, height, isPlaceholder: false}`. */
  function Refreshed(img: ImageRecord, d: ImageData): ImageRecord {
    img.(r2Url := d.r2Url, modelName := d.modelName, width := d.width, height := d.height, isPlaceholder := false)
  }

  /** The record built from the payload alone. */
  function Received(d: ImageData): ImageRecord {
    ImageRecord(d.id, d.r2Url, d.modelName, d.width, d.height, false)
  }

  /** An `image_complete` payload merged into one generation's images. */
  function MergeImage(images: seq<ImageRecord>, d: ImageData): seq<ImageRecord> {
    if IndexOfId(images, d.id) != -1 then
      seq(|images|, j requires 0 <= j < |images| =>
        if images[j].id == d.id then Refreshed(images[j], d) else images[j])
    else
      var p := IndexOfPlaceholder(images, d.modelName);
      if p != -1 then images[p := Received(d)] else images + [Received(d)]
  }

  /** The `image_complete` handler: every generation with the payload's generation id merges it. */
  function ApplyImageComplete(gens: seq<Generation>, d: ImageData): seq<Generation> {
    seq(|gens|, i requires 0 <= i < |gens| =>
      if gens[i].id == d.generationId then gens[i].(images := MergeImage(gens[i].images, d)) else gens[i])
  }

  /** `images.filter((img) => !img.isPlaceholder)`. */
  function DropPlaceholders(images: seq<ImageRecord>): (r: seq<ImageRecord>)
    ensures |r| <= |images|
    ensures forall j :: 0 <= j < |r| ==> !r[j].isPlaceholder
    ensures forall x :: x in r <==> x in images && !x.isPlaceholder
  {
    if |images| == 0 then []
    else if images[0].isPlaceholder then DropPlaceholders(images[1..])
    else [images[0]] + DropPlaceholders(images[1..])
  }

  /** The `generation_complete` handler: generation `gid` loses its remaining placeholders. */
  function CompleteGeneration(gens: seq<Generation>, gid: string): seq<Generation> {
    seq(|gens|, i requires 0 <= i < |gens| =>
      if gens[i].id == gid then gens[i].(images := DropPlaceholders(gens[i].images)) else gens[i])
  }

  /** The generations after the stream of generation `sid` delivers `msg`. */
  function Reconcile(gens: seq<Generation>, sid: string, msg: StreamMessage): seq<Generation> {
    match msg
    case ImageComplete(d) => ApplyImageComplete(gens, d)
    case GenerationComplete => CompleteGeneration(gens, sid)
    case _ => gens
  }

  /** Whether the stream of `sid` is closed and leaves the active set on `msg`. */
  predicate EndsStream(msg: StreamMessage) {
    msg.GenerationComplete? || msg.ProducerError?
  }

  /** The ids with a live stream after the stream of `sid` delivers `msg`. */
  function StreamsAfter(streams: set<string>, sid: string, msg: StreamMessage): set<string> {
    if EndsStream(msg) then streams - {sid} else streams
  }

  // ---------------------------------------------------------------------------
  // image_complete

  /**
    Id match: every image carrying the payload's id takes its url, model name, size and
    `isPlaceholder = false`, keeping its id and position; nothing else changes.
  */
  lemma MergeById(images: seq<ImageRecord>, d: ImageData, k: nat)
    requires k < |images| && images[k].id == d.id
    ensures var r := MergeImage(images, d);
      && |r| == |images|
      && r[k] == ImageRecord(d.id, d.r2Url, d.modelName, d.width, d.height, false)
      && forall j :: 0 <= j < |images| && images[j].id != d.id ==> r[j] == images[j]
  {
  }

  /**
    No id match but a placeholder for the same model: the first such placeholder is
    replaced, at its own index, by the received record; the length is unchanged.
  */
  lemma MergeIntoPlaceholder(images: seq<ImageRecord>, d: ImageData, p: nat)
    requires forall j :: 0 <= j < |images| ==> images[j].id != d.id
    requires p < |images| && IsPlaceholderFor(images[p], d.modelName)
    requires forall j :: 0 <= j < p ==> !IsPlaceholderFor(images[j], d.modelName)
    ensures MergeImage(images, d) == images[p := Received(d)]
  {
  }

  /** Neither match: the received record is appended, so the list grows by exactly one. */
  lemma MergeAppends(images: seq<ImageRecord>, d: ImageData)
    requires forall j :: 0 <= j < |images| ==> images[j].id != d.id
    requires forall j :: 0 <= j < |images| ==> !IsPlaceholderFor(images[j], d.modelName)
    ensures MergeImage(images, d) == images + [Received(d)]
  {
  }

  /** After a merge the images hold the payload's record under its id. */
  lemma {:induction false} MergeHoldsRecord(images: seq<ImageRecord>, d: ImageData)
    ensures var r := MergeImage(images, d);
      && IndexOfId(r, d.id) != -1
      && forall j :: 0 <= j < |r| && r[j].id == d.id ==> r[j] == Received(d)
  {
    var r := MergeImage(images, d);
    var k := IndexOfId(images, d.id);
    if k != -1 {
      assert r[k].id == d.id;
    } else {
      var p := IndexOfPlaceholder(images, d.modelName);
      var at := if p != -1 then p else |images|;
      assert r[at] == Received(d);
    }
  }

  /** Merging the same payload a second time changes nothing: it takes the id branch. */
  lemma {:induction false} MergeIdempotent(images: seq<ImageRecord>, d: ImageData)
    ensures MergeImage(MergeImage(images, d), d) == MergeImage(images, d)
  {
    var r := MergeImage(images, d);
    MergeHoldsRecord(images, d);
    var r2 := MergeImage(r, d);
    assert |r2| == |r|;
    forall j | 0 <= j < |r| ensures r2[j] == r[j] {
      if r[j].id == d.id {
        assert Refreshed(r[j], d) == r[j];
      }
    }
  }

  /**
    The merge keeps the number and order of generations and each generation's id, and
    returns every generation with another id unchanged.
  */
  lemma ApplyKeepsGenerations(gens: seq<Generation>, d: ImageData)
    ensures var r := ApplyImageComplete(gens, d);
      && |r| == |gens|
      && (forall i :: 0 <= i < |gens| ==> r[i].id == gens[i].id && r[i].createdAt == gens[i].createdAt)
      && (forall i :: 0 <= i < |gens| && gens[i].id != d.generationId ==> r[i] == gens[i])
      && (forall i :: 0 <= i < |gens| && gens[i].id == d.generationId ==>
            r[i] == gens[i].(images := MergeImage(gens[i].images, d)))
  {
  }

  /** Applying the same `image_complete` twice gives the same generations as once. */
  lemma ApplyIdempotent(gens: seq<Generation>, d: ImageData)
    ensures ApplyImageComplete(ApplyImageComplete(gens, d), d) == ApplyImageComplete(gens, d)
  {
    var r := ApplyImageComplete(gens, d);
    var r2 := ApplyImageComplete(r, d);
    forall i | 0 <= i < |gens| ensures r2[i] == r[i] {
      if gens[i].id == d.generationId {
        MergeIdempotent(gens[i].images, d);
      }
    }
  }

  // ---------------------------------------------------------------------------
  // generation_complete

  /** Dropping placeholders distributes over concatenation, so the kept images keep their order. */
  lemma {:induction false} DropConcat(a: seq<ImageRecord>, b: seq<ImageRecord>)
    ensures DropPlaceholders(a + b) == DropPlaceholders(a) + DropPlaceholders(b)
  {
    if |a| == 0 {
      assert a + b == b;
    } else {
      assert (a + b)[0] == a[0];
      assert (a + b)[1..] == a[1..] + b;
      DropConcat(a[1..], b);
    }
  }

  /** A list without placeholders is kept whole. */
  lemma {:induction false} DropNone(images: seq<ImageRecord>)
    requires forall j :: 0 <= j < |images| ==> !images[j].isPlaceholder
    ensures DropPlaceholders(images) == images
  {
    if |images| > 0 {
      DropNone(images[1..]);
      assert [images[0]] + images[1..] == images;
    }
  }

  /**
    `generation_complete` for `gid`: that generation keeps exactly its non-placeholder
    images and ends with none; every other generation, and the number and order of
    generations, are unchanged.
  */
  lemma CompleteGenerationEffect(gens: seq<Generation>, gid: string)
    ensures var r := CompleteGeneration(gens, gid);
      && |r| == |gens|
      && (forall i :: 0 <= i < |gens| && gens[i].id != gid ==> r[i] == gens[i])
      && (forall i :: 0 <= i < |gens| && gens[i].id == gid ==>
            && r[i] == gens[i].(images := DropPlaceholders(gens[i].images))
            && (forall j :: 0 <= j < |r[i].images| ==> !r[i].images[j].isPlaceholder)
            && (forall x :: x in r[i].images <==> x in gens[i].images && !x.isPlaceholder))
  {
  }

  /** Completing a generation twice is the same as completing it once. */
  lemma CompleteIdempotent(gens: seq<Generation>, gid: string)
    ensures CompleteGeneration(CompleteGeneration(gens, gid), gid) == CompleteGeneration(gens, gid)
  {
    var r := CompleteGeneration(gens, gid);
    forall i | 0 <= i < |gens| && gens[i].id == gid
      ensures DropPlaceholders(r[i].images) == r[i].images
    {
      DropNone(r[i].images);
    }
  }

  // ---------------------------------------------------------------------------
  // error, transport error, malformed payloads

  /**
    Messages other than `image_complete` and `generation_complete` leave the
    generations alone; an `error` also removes the stream, an unknown or malformed
    message leaves the streams alone too.
  */
  lemma OtherMessagesKeepGenerations(gens: seq<Generation>, streams: set<string>, sid: string, msg: StreamMessage)
    requires !msg.ImageComplete? && !msg.GenerationComplete?
    ensures Reconcile(gens, sid, msg) == gens
    ensures msg.ProducerError? ==> StreamsAfter(streams, sid, msg) == streams - {sid}
    ensures (msg.OtherType? || msg.Malformed?) ==> StreamsAfter(streams, sid, msg) == streams
  {
  }
}
