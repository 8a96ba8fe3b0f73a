/**
  One browser session of the studio: the form, the job queue and its single drain, the
  generations on view and the set of generations with a live event stream.
*/
module StudioSession {
  import opened Options
  import opened Text
  import Selection
  import StyleSelector
  import opened StreamMerge
  import opened StudioQueue

  /** Whether some queue item carries `id` and is marked processing. */
  predicate HasProcessing(queue: seq<QueueItem>, id: string) {
    exists i :: 0 <= i < |queue| && queue[i].id == id && queue[i].status == Processing
  }

  /**
    The drain invariant: the guard is set exactly while an item is claimed, items are
    only ever pending or processing, every processing item is the claimed one, and the
    claimed item is still in the queue, marked processing.
  */
  ghost predicate DrainInvariant(queue: seq<QueueItem>, draining: bool, inFlight: Option<QueueItem>) {
    && (draining <==> inFlight.Some?)
    && (forall i :: 0 <= i < |queue| ==> queue[i].status == Pending || queue[i].status == Processing)
    && (forall i :: 0 <= i < |queue| && queue[i].status == Processing ==>
          inFlight.Some? && queue[i].id == inFlight.value.id)
    && (inFlight.Some? ==> HasProcessing(queue, inFlight.value.id))
  }

  /** Appending a pending item keeps the drain invariant. */
  lemma AppendPendingKeepsInvariant(queue: seq<QueueItem>, draining: bool, inFlight: Option<QueueItem>, item: QueueItem)
    requires DrainInvariant(queue, draining, inFlight) && item.status == Pending
    ensures DrainInvariant(queue + [item], draining, inFlight)
  {
    var q := queue + [item];
    forall i | 0 <= i < |q| ensures q[i].status == Pending || q[i].status == Processing {
      if i < |queue| { assert q[i] == queue[i]; }
    }
    forall i | 0 <= i < |q| && q[i].status == Processing ensures inFlight.Some? && q[i].id == inFlight.value.id {
      assert i < |queue| && q[i] == queue[i];
    }
    if inFlight.Some? {
      var k :| 0 <= k < |queue| && queue[k].id == inFlight.value.id && queue[k].status == Processing;
      assert q[k] == queue[k];
    }
  }

  class Session {
    /** The models offered by the form. */
    const models: seq<Model>
    /** The style table the style keywords come from. */
    const styles: seq<StyleSelector.ArtisticStyle>

    // the form
    var prompt: string
    var selectedModels: seq<string>
    var aspectRatios: seq<string>
    var selectedStyles: seq<string>
    var referenceImages: seq<ReferenceImage>

    /** The job queue, in insertion order. */
    var queue: seq<QueueItem>
    /** The drain guard (`processingRef` together with `isProcessing`). */
    var draining: bool
    /** The item the running drain claimed (the drain's `nextItem`), while it runs. */
    var inFlight: Option<QueueItem>

    /** The generations on view, newest first. */
    var generations: seq<Generation>
    /** The generation ids with an open event stream (the keys of `streamingGenerations`). */
    var streaming: set<string>
    /** The stream map the unmount cleanup captured when the session was mounted. */
    const streamsAtMount: set<string>

    /** The drain invariant holds of this session's queue, guard and claimed item. */
    ghost predicate Valid()
      reads this`queue, this`draining, this`inFlight
    {
      DrainInvariant(queue, draining, inFlight)
    }

    /** `pendingCount`. */
    function PendingCount(): nat
      reads this
    {
      CountStatus(queue, Pending)
    }

    /** `processingCount`. */
    function ProcessingCount(): nat
      reads this
    {
      CountStatus(queue, Processing)
    }

    /**
      Every queued job is pending or processing, so the two counters add up to the
      queue's length.
    */
    lemma CountersCoverQueue()
      requires Valid()
      ensures PendingCount() + ProcessingCount() == |queue|
    {
      CountsCoverQueue(queue);
    }

    /**
      With distinct job ids, at most one job is ever processing: the drain is serial; and
      the processing counter is positive exactly while the drain runs.
    */
    lemma OneJobProcessing()
      requires Valid() && DistinctIds(queue)
      ensures ProcessingCount() <= 1
      ensures !draining ==> ProcessingCount() == 0
      ensures draining ==> ProcessingCount() == 1
    {
      if inFlight.Some? {
        AtMostOneProcessing(queue, inFlight.value.id);
        var k :| 0 <= k < |queue| && queue[k].id == inFlight.value.id && queue[k].status == Processing;
        CountStatusAt(queue, Processing, k);
      } else {
        CountAbsent(queue, Processing);
      }
    }

    /**
      Mounting the studio with the server's models and generations; the studio passes
      `StyleSelector.ArtisticStyles` as the style table.
    */
    constructor (models: seq<Model>, styles: seq<StyleSelector.ArtisticStyle>, initialGenerations: seq<Generation>)
      ensures Valid()
      ensures this.models == models && this.styles == styles
      ensures generations == initialGenerations
      ensures prompt == "" && selectedModels == [] && aspectRatios == ["1:1"]
      ensures selectedStyles == [] && referenceImages == []
      ensures queue == [] && !draining && inFlight == None
      ensures streaming == {} && streamsAtMount == {}
    {
      this.models := models;
      this.styles := styles;
      prompt, selectedModels, aspectRatios, selectedStyles, referenceImages := "", [], ["1:1"], [], [];
      queue, draining, inFlight := [], false, None;
      generations := initialGenerations;
      streaming := {};
      streamsAtMount := {};
    }

    /** A new `initialGenerations` prop replaces the generations on view. */
    method ResetGenerations(gens: seq<Generation>)
      modifies this`generations
      ensures generations == gens
    {
      generations := gens;
    }

    method SetPrompt(p: string)
      modifies this`prompt
      ensures prompt == p
    {
      prompt := p;
    }

    method SetReferenceImages(refs: seq<ReferenceImage>)
      modifies this`referenceImages
      ensures referenceImages == refs
    {
      referenceImages := refs;
    }

    /** The model selector's toggle. */
    method ToggleModel(modelId: string)
      modifies this`selectedModels
      ensures selectedModels == Selection.Toggle(old(selectedModels), modelId)
    {
      selectedModels := Selection.Toggle(selectedModels, modelId);
    }

    /** The aspect-ratio selector's toggle. */
    method ToggleAspectRatio(ratioId: string)
      modifies this`aspectRatios
      ensures aspectRatios == Selection.Toggle(old(aspectRatios), ratioId)
    {
      aspectRatios := Selection.Toggle(aspectRatios, ratioId);
    }

    /** The style selector's toggle. */
    method ToggleStyle(styleId: string)
      modifies this`selectedStyles
      ensures selectedStyles == Selection.Toggle(old(selectedStyles), styleId)
    {
      selectedStyles := Selection.Toggle(selectedStyles, styleId);
    }

    /** `setQueue((prev) => [...prev, item])` for a pending item: the drain invariant is kept. */
    method Enqueue(item: QueueItem)
      requires Valid() && item.status == Pending
      modifies this`queue
      ensures Valid()
      ensures queue == old(queue) + [item]
    {
      AppendPendingKeepsInvariant(queue, draining, inFlight, item);
      queue := queue + [item];
    }

    /**
      `handleAddToQueue`, with `id` standing for `Date.now().toString()`: a refused form
      changes nothing; otherwise exactly one pending item is appended and the prompt and
      reference images are cleared, while the selections stay.
    */
    method AddToQueue(id: string) returns (refusal: Option<FormError>)
      requires Valid()
      modifies this`queue, this`prompt, this`referenceImages
      ensures Valid()
      ensures refusal == old(FormCheck(prompt, selectedModels, aspectRatios))
      ensures refusal.Some? ==>
                queue == old(queue) && prompt == old(prompt) && referenceImages == old(referenceImages)
      ensures refusal.None? ==>
                && queue == old(queue) + [old(NewQueueItem(styles, id, prompt, models, selectedModels,
                                                           aspectRatios, selectedStyles, referenceImages))]
                && prompt == "" && referenceImages == []
    {
      refusal := FormCheck(prompt, selectedModels, aspectRatios);
      if refusal.None? {
        var item := NewQueueItem(styles, id, prompt, models, selectedModels, aspectRatios, selectedStyles, referenceImages);
        prompt := "";
        referenceImages := [];
        Enqueue(item);
      }
    }

    /**
      The synchronous part of `processQueue`: with the guard set, or with no pending item,
      nothing happens; otherwise the first pending item is claimed, the guard is set and
      that item is marked processing.
    */
    method BeginDrain() returns (claimed: Option<QueueItem>)
      requires Valid()
      modifies this`queue, this`draining, this`inFlight
      ensures Valid()
      ensures old(draining) || FirstPending(old(queue)) == -1 ==>
                claimed == None && queue == old(queue) && draining == old(draining) && inFlight == old(inFlight)
      ensures !old(draining) && FirstPending(old(queue)) != -1 ==>
                && claimed == Some(old(queue)[FirstPending(old(queue))])
                && draining && inFlight == claimed
                && queue == MarkProcessing(old(queue), claimed.value.id)
    {
      if draining {
        return None;
      }
      var k := FirstPending(queue);
      if k == -1 {
        return None;
      }
      var item := queue[k];
      draining := true;
      inFlight := Some(item);
      queue := MarkProcessing(queue, item.id);
      assert queue[k].id == item.id;
      claimed := Some(item);
    }

    /**
      The rest of `processQueue`, once every submission of the claimed item has settled;
      `createdAts` stands for the `new Date()` read once per accepted submission.
      Accepted: one optimistic generation per aspect ratio
      is put in front, each gets a live stream. Rejected: only a notification. Either
      way the item leaves the queue and the guard is released.
    */
    method FinishDrain(outcome: Submission, createdAts: seq<int>) returns (notice: Option<string>)
      requires Valid() && inFlight.Some?
      requires outcome.Submitted? ==> |outcome.generationIds| == |inFlight.value.aspectRatios|
      requires outcome.Submitted? ==> |createdAts| == |outcome.generationIds|
      modifies this`queue, this`draining, this`inFlight, this`generations, this`streaming
      ensures Valid()
      ensures !draining && inFlight == None
      ensures queue == WithoutItem(old(queue), old(inFlight).value.id)
      ensures |queue| < |old(queue)|
      ensures ProcessingCount() == 0
      ensures outcome.Submitted? ==>
                && generations == OptimisticGenerations(old(inFlight).value, outcome.generationIds, createdAts) + old(generations)
                && streaming == old(streaming) + Selection.Elements(outcome.generationIds)
                && notice == None
      ensures outcome.Rejected? ==>
                && generations == old(generations) && streaming == old(streaming)
                && notice == Some(SubmissionError(outcome.message))
    {
      var item := inFlight.value;
      match outcome {
        case Submitted(ids) =>
          generations := OptimisticGenerations(item, ids, createdAts) + generations;
          var i := 0;
          while i < |ids|
            modifies this`streaming
            invariant 0 <= i <= |ids|
            invariant streaming == old(streaming) + Selection.Elements(ids[..i])
          {
            Connect(ids[i]);
            assert ids[..i + 1] == ids[..i] + [ids[i]];
            i := i + 1;
          }
          assert ids[..i] == ids;
          notice := None;
        case Rejected(message) =>
          notice := Some(SubmissionError(message));
      }
      queue := WithoutItem(queue, item.id);
      draining := false;
      inFlight := None;
      forall i | 0 <= i < |queue| ensures queue[i].status == Pending {
        assert queue[i] in old(queue);
      }
      CountAbsent(queue, Processing);
    }

    /** `connectToGenerationStream`: the generation gets a live stream. */
    method Connect(generationId: string)
      modifies this`streaming
      ensures streaming == old(streaming) + {generationId}
    {
      streaming := streaming + {generationId};
    }

    /** `onmessage` of the stream of generation `sid`. */
    method Deliver(sid: string, msg: StreamMessage)
      modifies this`generations, this`streaming
      ensures generations == Reconcile(old(generations), sid, msg)
      ensures streaming == StreamsAfter(old(streaming), sid, msg)
    {
      generations := Reconcile(generations, sid, msg);
      streaming := StreamsAfter(streaming, sid, msg);
    }

    /** `onerror` of the stream of generation `sid`: the stream is closed and removed, the view stays. */
    method TransportError(sid: string)
      modifies this`streaming
      ensures streaming == old(streaming) - {sid}
    {
      streaming := streaming - {sid};
    }

    /**
      The unmount cleanup as written: its effect has no dependencies, so it closes the
      streams of the map it captured at mount, which is the initial empty map.
    */
    method UnmountAsWritten() returns (closed: set<string>)
      ensures closed == streamsAtMount
    {
      closed := streamsAtMount;
    }

    /** The unmount cleanup as intended: every stream still open is closed. */
    method Unmount() returns (closed: set<string>)
      ensures closed == streaming
      ensures streaming - closed == {}
    {
      closed := streaming;
    }
  }

  /** A fresh session whose form holds `prompt` with `model` selected. */
  method FilledSession(prompt: string, model: Model) returns (s: Session)
    ensures fresh(s) && s.Valid()
    ensures s.prompt == prompt && s.selectedModels == [model.id] && s.aspectRatios == ["1:1"]
    ensures s.queue == [] && !s.draining && s.streaming == {} && s.streamsAtMount == {}
  {
    s := new Session([model], [], []);
    s.SetPrompt(prompt);
    s.ToggleModel(model.id);
  }

  /** A fresh session in which a non-blank prompt has been queued for one model. */
  method QueuedSession(prompt: string, model: Model) returns (s: Session)
    requires !AllWhitespace(prompt)
    ensures fresh(s) && s.Valid()
    ensures |s.queue| == 1 && s.queue[0].status == Pending && s.queue[0].aspectRatios == ["1:1"]
    ensures !s.draining && s.streaming == {} && s.streamsAtMount == {}
  {
    s := FilledSession(prompt, model);
    FormCheckRefuses(prompt, [model.id], ["1:1"]);
    var refusal := s.AddToQueue("1");
  }

  /**
    The prompt "sunset", once queued, is accepted as generation `g1`: that generation's stream is then
    the only live one.
  */
  method AcceptedSession() returns (s: Session)
    ensures fresh(s)
    ensures s.streaming == {"g1"} && s.streamsAtMount == {}
  {
    assert !IsWhitespace("sunset"[0]);
    s := QueuedSession("sunset", Model("m1", "Model One", "provider"));
    assert FirstPending(s.queue) == 0;
    var claimed := s.BeginDrain();
    assert s.inFlight.Some? && s.inFlight.value.aspectRatios == ["1:1"];
    var notice := s.FinishDrain(Submitted(["g1"]), [0]);
    Selection.ElementsOfOne("g1");
  }

  /** Unmounting that session with the cleanup as written leaves `g1`'s stream open. */
  method UnmountLeavesStreamOpen() returns (leaked: set<string>)
    ensures leaked == {"g1"}
  {
    var s := AcceptedSession();
    var closed := s.UnmountAsWritten();
    leaked := s.streaming - closed;
  }

  /** Unmounting the same session with the intended cleanup leaves no stream open. */
  method UnmountClosesEveryStream() returns (leaked: set<string>)
    ensures leaked == {}
  {
    var s := AcceptedSession();
    var closed := s.Unmount();
    leaked := s.streaming - closed;
  }
}
