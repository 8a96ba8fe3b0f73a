/**
  The values the studio's job queue works with: the form check and the queue item built
  by "add to queue", the queue operations of the drainer, and the optimistic
  generations it shows once a submission is accepted.
*/
module StudioQueue {
  import opened Options
  import opened Text
  import StyleSelector
  import opened StreamMerge

  datatype Status = Pending | Processing | Completed | Failed

  datatype ReferenceImage = ReferenceImage(url: string, key: string, originalName: string)

  /** A model offered by the form. */
  datatype Model = Model(id: string, name: string, provider: string)

  datatype QueueItem = QueueItem(
    id: string,
    prompt: string,
    aspectRatios: seq<string>,
    modelIds: seq<string>,
    modelNames: seq<string>,
    selectedStyles: seq<string>,
    referenceImageUrls: Option<seq<ReferenceImage>>,
    status: Status,
    error: Option<string>)

  /** Why "add to queue" refused the form, in the order the checks run. */
  datatype FormError = EmptyPrompt | NoModelSelected | NoAspectRatio

  /**
    The outcome of submitting every aspect ratio of an item (`Promise.all`): the
    generation ids in aspect-ratio order, or the rejection, whose message is `None`
    when the thrown value is not an `Error`.
  */
  datatype Submission = Submitted(generationIds: seq<string>) | Rejected(message: Option<string>)

  // ---------------------------------------------------------------------------
  // handleAddToQueue

  /** The first failing form check, or `None` when the form may be queued. */
  function FormCheck(prompt: string, selectedModels: seq<string>, aspectRatios: seq<string>): Option<FormError> {
    if Trim(prompt) == "" then Some(EmptyPrompt)
    else if |selectedModels| == 0 then Some(NoModelSelected)
    else if |aspectRatios| == 0 then Some(NoAspectRatio)
    else None
  }

  /** A form is refused exactly when its prompt is blank, or no model, or no aspect ratio is chosen. */
  lemma FormCheckRefuses(prompt: string, selectedModels: seq<string>, aspectRatios: seq<string>)
    ensures FormCheck(prompt, selectedModels, aspectRatios).Some? <==>
              AllWhitespace(prompt) || selectedModels == [] || aspectRatios == []
  {
  }

  /** `models.filter((m) => selected.includes(m.id)).map((m) => m.name)`. */
  function ModelNames(models: seq<Model>, selected: seq<string>): (names: seq<string>)
    ensures |names| <= |models|
  {
    if |models| == 0 then []
    else if models[0].id in selected then [models[0].name] + ModelNames(models[1..], selected)
    else ModelNames(models[1..], selected)
  }

  /** A single model is named exactly when its id is selected. */
  lemma ModelNamesSingle(m: Model, selected: seq<string>)
    ensures ModelNames([m], selected) == if m.id in selected then [m.name] else []
  {
  }

  /**
    Filtering distributes over concatenation of the model list; with `ModelNamesSingle`
    this fixes the names as exactly the selected models' names, in model order.
  */
  lemma {:induction false} ModelNamesConcat(a: seq<Model>, b: seq<Model>, selected: seq<string>)
    ensures ModelNames(a + b, selected) == ModelNames(a, selected) + ModelNames(b, selected)
  {
    if |a| == 0 {
      assert a + b == b;
    } else {
      assert (a + b)[0] == a[0];
      assert (a + b)[1..] == a[1..] + b;
      ModelNamesConcat(a[1..], b, selected);
    }
  }

  /**
    The model names follow the order of `models`: two selections holding the same ids,
    in whatever order, give the same names.
  */
  lemma {:induction false} ModelNamesIgnoreSelectionOrder(models: seq<Model>, s1: seq<string>, s2: seq<string>)
    requires forall x :: x in s1 <==> x in s2
    ensures ModelNames(models, s1) == ModelNames(models, s2)
  {
    if |models| > 0 {
      ModelNamesIgnoreSelectionOrder(models[1..], s1, s2);
    }
  }

  /** Selecting every model in the list names them all, in list order. */
  lemma {:induction false} ModelNamesAll(models: seq<Model>, selected: seq<string>)
    requires forall i :: 0 <= i < |models| ==> models[i].id in selected
    ensures |ModelNames(models, selected)| == |models|
    ensures forall i :: 0 <= i < |models| ==> ModelNames(models, selected)[i] == models[i].name
  {
    if |models| > 0 {
      ModelNamesAll(models[1..], selected);
    }
  }

  /** Whether every style of the table has non-empty keywords (the style table does). */
  predicate KeywordsPresent(styles: seq<StyleSelector.ArtisticStyle>) {
    forall i :: 0 <= i < |styles| ==> styles[i].keywords != ""
  }

  /**
    The keywords of the selected styles, in selection order:
    `ids.map((id) => styles.find((s) => s.id === id)?.keywords || '').filter(Boolean)`.
  */
  function StyleKeywords(styles: seq<StyleSelector.ArtisticStyle>, styleIds: seq<string>): (kws: seq<string>)
    ensures |kws| <= |styleIds|
    ensures forall i :: 0 <= i < |kws| ==> kws[i] != ""
  {
    if |styleIds| == 0 then []
    else
      var found := StyleSelector.FindIn(styles, styleIds[0]);
      var kw := if found.Some? then found.value.keywords else "";
      if kw != "" then [kw] + StyleKeywords(styles, styleIds[1..]) else StyleKeywords(styles, styleIds[1..])
  }

  /** Keyword collection distributes over concatenation of selections. */
  lemma {:induction false} StyleKeywordsConcat(styles: seq<StyleSelector.ArtisticStyle>, a: seq<string>, b: seq<string>)
    ensures StyleKeywords(styles, a + b) == StyleKeywords(styles, a) + StyleKeywords(styles, b)
  {
    if |a| == 0 {
      assert a + b == b;
    } else {
      assert (a + b)[0] == a[0];
      assert (a + b)[1..] == a[1..] + b;
      StyleKeywordsConcat(styles, a[1..], b);
    }
  }

  /** One selected id contributes its style's keywords when it is known, and nothing otherwise. */
  lemma StyleKeywordsSingle(styles: seq<StyleSelector.ArtisticStyle>, id: string)
    requires KeywordsPresent(styles)
    ensures StyleSelector.FindIn(styles, id).None? ==> StyleKeywords(styles, [id]) == []
    ensures StyleSelector.FindIn(styles, id).Some? ==>
              StyleKeywords(styles, [id]) == [StyleSelector.FindIn(styles, id).value.keywords]
  {
    assert [id][1..] == [];
  }

  /** The keywords are empty exactly when no selected id is a known style. */
  lemma {:induction false} StyleKeywordsEmptyIff(styles: seq<StyleSelector.ArtisticStyle>, styleIds: seq<string>)
    requires KeywordsPresent(styles)
    ensures StyleKeywords(styles, styleIds) == [] <==>
              forall i :: 0 <= i < |styleIds| ==> StyleSelector.FindIn(styles, styleIds[i]).None?
  {
    if |styleIds| > 0 {
      StyleKeywordsEmptyIff(styles, styleIds[1..]);
      assert forall i :: 1 <= i < |styleIds| ==> styleIds[i] == styleIds[1..][i - 1];
    }
  }

  /** Joining non-empty pieces gives the empty string only for no pieces. */
  lemma JoinEmptyIff(parts: seq<string>, sep: string)
    requires forall i :: 0 <= i < |parts| ==> parts[i] != ""
    ensures Join(parts, sep) == "" <==> parts == []
  {
    if |parts| >= 2 {
      assert |Join(parts, sep)| >= |parts[0]|;
    }
  }

  /** The prompt that is queued: the trimmed prompt, then `", "` and the joined style keywords, if any. */
  function EnhancedPrompt(styles: seq<StyleSelector.ArtisticStyle>, prompt: string, styleIds: seq<string>): string {
    var trimmed := Trim(prompt);
    if |styleIds| > 0 then
      var keywords := Join(StyleKeywords(styles, styleIds), ", ");
      if keywords != "" then trimmed + ", " + keywords else trimmed
    else trimmed
  }

  /**
    The queued prompt is the trimmed prompt alone when no selected style is known, and
    otherwise the trimmed prompt, `", "` and the known styles' keywords joined by `", "`.
  */
  lemma EnhancedPromptShape(styles: seq<StyleSelector.ArtisticStyle>, prompt: string, styleIds: seq<string>)
    requires KeywordsPresent(styles)
    ensures (forall i :: 0 <= i < |styleIds| ==> StyleSelector.FindIn(styles, styleIds[i]).None?) ==>
              EnhancedPrompt(styles, prompt, styleIds) == Trim(prompt)
    ensures (exists i :: 0 <= i < |styleIds| && StyleSelector.FindIn(styles, styleIds[i]).Some?) ==>
              EnhancedPrompt(styles, prompt, styleIds) ==
                Trim(prompt) + ", " + Join(StyleKeywords(styles, styleIds), ", ")
  {
    StyleKeywordsEmptyIff(styles, styleIds);
    JoinEmptyIff(StyleKeywords(styles, styleIds), ", ");
  }

  /**
    The pending item "add to queue" appends for a form that passed the checks; `styles`
    is the style table the keywords are looked up in.
  */
  function NewQueueItem(
    styles: seq<StyleSelector.ArtisticStyle>, id: string, prompt: string, models: seq<Model>,
    selectedModels: seq<string>, aspectRatios: seq<string>, selectedStyles: seq<string>,
    referenceImages: seq<ReferenceImage>): QueueItem
  {
    QueueItem(
      id, EnhancedPrompt(styles, prompt, selectedStyles), aspectRatios, selectedModels,
      ModelNames(models, selectedModels), selectedStyles,
      if |referenceImages| > 0 then Some(referenceImages) else None,
      Pending, None)
  }

  // ---------------------------------------------------------------------------
  // The drainer's queue operations

  /** `queue.find((item) => item.status === 'pending')`, as an index (-1 for none). */
  function FirstPending(queue: seq<QueueItem>): (k: int)
    ensures -1 <= k < |queue|
    ensures k >= 0 ==> queue[k].status == Pending
    ensures forall j :: 0 <= j < |queue| && (k == -1 || j < k) ==> queue[j].status != Pending
  {
    if |queue| == 0 then -1
    else if queue[0].status == Pending then 0
    else
      var k := FirstPending(queue[1..]);
      if k == -1 then -1 else k + 1
  }

  /** Marks every item with the given id `processing`. */
  function MarkProcessing(queue: seq<QueueItem>, id: string): seq<QueueItem> {
    seq(|queue|, i requires 0 <= i < |queue| =>
      if queue[i].id == id then queue[i].(status := Processing) else queue[i])
  }

  /** `queue.filter((item) => item.id !== id)`. */
  function WithoutItem(queue: seq<QueueItem>, id: string): (r: seq<QueueItem>)
    ensures |r| <= |queue|
    ensures forall x :: x in r <==> x in queue && x.id != id
    ensures (exists i :: 0 <= i < |queue| && queue[i].id == id) ==> |r| < |queue|
  {
    if |queue| == 0 then []
    else if queue[0].id == id then WithoutItem(queue[1..], id)
    else
      var r := [queue[0]] + WithoutItem(queue[1..], id);
      assert (exists i :: 0 <= i < |queue| && queue[i].id == id) ==>
               exists i :: 0 <= i < |queue[1..]| && queue[1..][i].id == id by {
        if exists i :: 0 <= i < |queue| && queue[i].id == id {
          var i :| 0 <= i < |queue| && queue[i].id == id;
          assert queue[1..][i - 1].id == id;
        }
      }
      r
  }

  /** A single item is kept exactly when its id differs. */
  lemma WithoutItemSingle(x: QueueItem, id: string)
    ensures WithoutItem([x], id) == if x.id == id then [] else [x]
  {
  }

  /**
    Removal distributes over concatenation; with `WithoutItemSingle` this fixes the result
    as the other items in their queue order, each as often as before.
  */
  lemma {:induction false} WithoutItemConcat(a: seq<QueueItem>, b: seq<QueueItem>, id: string)
    ensures WithoutItem(a + b, id) == WithoutItem(a, id) + WithoutItem(b, id)
  {
    if |a| == 0 {
      assert a + b == b;
    } else {
      assert (a + b)[0] == a[0];
      assert (a + b)[1..] == a[1..] + b;
      WithoutItemConcat(a[1..], b, id);
    }
  }

  /** No two items share an id. */
  predicate DistinctIds(queue: seq<QueueItem>) {
    forall i, j :: 0 <= i < j < |queue| ==> queue[i].id != queue[j].id
  }

  /** With distinct ids, marking the item at `k` changes that item's status and nothing else. */
  lemma MarkProcessingOnly(queue: seq<QueueItem>, k: nat)
    requires k < |queue| && DistinctIds(queue)
    ensures var r := MarkProcessing(queue, queue[k].id);
      && |r| == |queue|
      && r[k] == queue[k].(status := Processing)
      && forall j :: 0 <= j < |queue| && j != k ==> r[j] == queue[j]
  {
  }

  /** Appending an item whose id is new keeps the ids distinct. */
  lemma AppendFreshKeepsDistinct(queue: seq<QueueItem>, item: QueueItem)
    requires DistinctIds(queue) && forall i :: 0 <= i < |queue| ==> queue[i].id != item.id
    ensures DistinctIds(queue + [item])
  {
    var q := queue + [item];
    forall i, j | 0 <= i < j < |q| ensures q[i].id != q[j].id {
      assert q[i] == queue[i];
      if j < |queue| { assert q[j] == queue[j]; }
    }
  }

  /** Marking items processing keeps the ids distinct. */
  lemma MarkProcessingKeepsDistinct(queue: seq<QueueItem>, id: string)
    requires DistinctIds(queue)
    ensures DistinctIds(MarkProcessing(queue, id))
  {
    var r := MarkProcessing(queue, id);
    forall i, j | 0 <= i < j < |r| ensures r[i].id != r[j].id {
      assert r[i].id == queue[i].id && r[j].id == queue[j].id;
    }
  }

  /** Removing the items with an id keeps the remaining ids distinct. */
  lemma {:induction false} WithoutItemKeepsDistinct(queue: seq<QueueItem>, id: string)
    requires DistinctIds(queue)
    ensures DistinctIds(WithoutItem(queue, id))
  {
    if |queue| > 0 {
      var t := queue[1..];
      assert DistinctIds(t) by {
        forall i, j | 0 <= i < j < |t| ensures t[i].id != t[j].id {
          assert t[i] == queue[i + 1] && t[j] == queue[j + 1];
        }
      }
      WithoutItemKeepsDistinct(t, id);
      if queue[0].id != id {
        var rest := WithoutItem(t, id);
        var r := [queue[0]] + rest;
        forall i, j | 0 <= i < j < |r| ensures r[i].id != r[j].id {
          if i == 0 {
            assert r[j] == rest[j - 1] && rest[j - 1] in t;
            var k :| 0 <= k < |t| && t[k] == rest[j - 1];
            assert t[k] == queue[k + 1];
          } else {
            assert r[i] == rest[i - 1] && r[j] == rest[j - 1];
          }
        }
      }
    }
  }

  /** The number of items with the given status: `queue.filter((item) => item.status === s).length`. */
  function CountStatus(queue: seq<QueueItem>, s: Status): (n: nat)
    ensures n <= |queue|
  {
    if |queue| == 0 then 0
    else (if queue[0].status == s then 1 else 0) + CountStatus(queue[1..], s)
  }

  /** One item counts one exactly when it has the status. */
  lemma CountStatusSingle(x: QueueItem, s: Status)
    ensures CountStatus([x], s) == if x.status == s then 1 else 0
  {
  }

  /** Counting distributes over concatenation. */
  lemma {:induction false} CountStatusConcat(a: seq<QueueItem>, b: seq<QueueItem>, s: Status)
    ensures CountStatus(a + b, s) == CountStatus(a, s) + CountStatus(b, s)
  {
    if |a| == 0 {
      assert a + b == b;
    } else {
      assert (a + b)[0] == a[0];
      assert (a + b)[1..] == a[1..] + b;
      CountStatusConcat(a[1..], b, s);
    }
  }

  /** A status some item has counts at least one. */
  lemma {:induction false} CountStatusAt(queue: seq<QueueItem>, s: Status, k: nat)
    requires k < |queue| && queue[k].status == s
    ensures CountStatus(queue, s) >= 1
  {
    if k > 0 {
      assert queue[1..][k - 1] == queue[k];
      CountStatusAt(queue[1..], s, k - 1);
    }
  }

  /** When every item is pending or processing, the two counts add up to the queue length. */
  lemma {:induction false} CountsCoverQueue(queue: seq<QueueItem>)
    requires forall i :: 0 <= i < |queue| ==> queue[i].status == Pending || queue[i].status == Processing
    ensures CountStatus(queue, Pending) + CountStatus(queue, Processing) == |queue|
  {
    if |queue| > 0 {
      CountsCoverQueue(queue[1..]);
    }
  }

  /** A status no item has counts zero. */
  lemma {:induction false} CountAbsent(queue: seq<QueueItem>, s: Status)
    requires forall i :: 0 <= i < |queue| ==> queue[i].status != s
    ensures CountStatus(queue, s) == 0
  {
    if |queue| > 0 {
      CountAbsent(queue[1..], s);
    }
  }

  /**
    Single concurrency: when every processing item carries the id being drained and ids
    are distinct, at most one item is processing.
  */
  lemma {:induction false} AtMostOneProcessing(queue: seq<QueueItem>, id: string)
    requires DistinctIds(queue)
    requires forall i :: 0 <= i < |queue| && queue[i].status == Processing ==> queue[i].id == id
    ensures CountStatus(queue, Processing) <= 1
  {
    if |queue| > 0 {
      AtMostOneProcessing(queue[1..], id);
      if queue[0].status == Processing {
        assert forall i :: 0 <= i < |queue[1..]| ==> queue[1..][i].status != Processing by {
          forall i | 0 <= i < |queue[1..]| ensures queue[1..][i].status != Processing {
            assert queue[1..][i] == queue[i + 1];
          }
        }
        CountAbsent(queue[1..], Processing);
      }
    }
  }

  // ---------------------------------------------------------------------------
  // Optimistic generations

  /** `${generationId}-${modelName}-placeholder`. */
  function PlaceholderId(generationId: string, modelName: string): string {
    generationId + "-" + modelName + "-placeholder"
  }

  /** One placeholder image per model name, in model-name order. */
  function Placeholders(generationId: string, modelNames: seq<string>): seq<ImageRecord> {
    seq(|modelNames|, j requires 0 <= j < |modelNames| =>
      ImageRecord(PlaceholderId(generationId, modelNames[j]), "", modelNames[j], None, None, true))
  }

  /**
    The generations shown, newest first, once the item's submissions are accepted;
    `createdAts[i]` is the `new Date()` read while building the `i`-th one.
  */
  function OptimisticGenerations(item: QueueItem, generationIds: seq<string>, createdAts: seq<int>): seq<Generation>
    requires |generationIds| == |item.aspectRatios| && |createdAts| == |generationIds|
  {
    seq(|generationIds|, i requires 0 <= i < |generationIds| =>
      Generation(generationIds[i], item.prompt, None, item.aspectRatios[i], createdAts[i],
                 Placeholders(generationIds[i], item.modelNames)))
  }

  /**
    One optimistic generation per aspect ratio, in aspect-ratio order, each holding one
    placeholder per model name with the derived id, an empty url and the placeholder flag.
  */
  lemma OptimisticShape(item: QueueItem, generationIds: seq<string>, createdAts: seq<int>)
    requires |generationIds| == |item.aspectRatios| && |createdAts| == |generationIds|
    ensures var gs := OptimisticGenerations(item, generationIds, createdAts);
      && |gs| == |item.aspectRatios|
      && forall i :: 0 <= i < |gs| ==>
           && gs[i].id == generationIds[i]
           && gs[i].aspectRatio == item.aspectRatios[i]
           && gs[i].prompt == item.prompt
           && gs[i].createdAt == createdAts[i]
           && |gs[i].images| == |item.modelNames|
           && forall j :: 0 <= j < |item.modelNames| ==>
                var img := gs[i].images[j];
                && img.id == PlaceholderId(generationIds[i], item.modelNames[j])
                && img.r2Url == "" && img.modelName == item.modelNames[j] && img.isPlaceholder
  {
  }

  /**
    Once a model's image arrives for an optimistic generation (under a new id), the model's
    placeholder is the one it replaces, provided no earlier model name is the same.
  */
  lemma ArrivalReplacesPlaceholder(generationId: string, modelNames: seq<string>, j: nat, d: ImageData)
    requires j < |modelNames| && d.modelName == modelNames[j]
    requires forall k :: 0 <= k < j ==> modelNames[k] != modelNames[j]
    requires forall k :: 0 <= k < |modelNames| ==> d.id != PlaceholderId(generationId, modelNames[k])
    ensures MergeImage(Placeholders(generationId, modelNames), d) ==
              Placeholders(generationId, modelNames)[j := Received(d)]
  {
    MergeIntoPlaceholder(Placeholders(generationId, modelNames), d, j);
  }

  /** The notification text of a rejected submission. */
  function SubmissionError(message: Option<string>): string {
    message.GetOr("Failed to generate images")
  }
}
