# Image studio: generation pipeline, gallery cache and form helpers

This project models the client side of an AI image studio (a React application) and
proves properties of the model in Dafny.

- **The studio session.** A user writes a prompt, picks models, aspect ratios and
  artistic styles, and adds the job to a queue. A single drain takes the first pending
  job and submits it. It shows one optimistic generation per aspect ratio, each holding
  one placeholder image per model. It then follows every generation over an event
  stream whose messages are merged into the generations on view.
- **The gallery.** It flattens all images into one list, hands out a cached object per
  image id while the image's signature is unchanged, sorts the list newest generation
  first, and evicts cache entries of images no longer shown.
- **The small helpers.** These are the aspect-ratio class of an image card, its memo
  comparator and loading indicator, the membership toggle the three selectors share,
  the artistic-style table and the aspect-ratio icon table.

Modules:

- `Options`: the optional value.
- `Text`: JavaScript's `trim`, `split` and `join`, and the string order.
- `Selection`: the selectors' toggle.
- `StyleSelector`: the style table.
- `AspectRatioSelector`: the ratio table and the icon classes.
- `ImageCard`: one gallery tile.
- `StreamMerge`: the generations and the stream-message merge.
- `StudioQueue`: queue items, form checks, the enhanced prompt and optimistic generations.
- `StudioSession`: the session as a class with its form, queue, drain guard, generations and live streams.
- `Gallery`: the image cache as a class, the flattening, the sort and the eviction.

The pure parts of the source (`map`, `filter`, `findIndex`, `switch`) are functions
with lemmas. The parts that update state in place are classes whose methods state
their whole new state. These are the session, the gallery cache and the card's
loading flag.

Ids from `Date.now()`, timestamps from `new Date()` and the outcome of the server
calls are parameters. The drain is split at its `await`: `BeginDrain` claims the item,
and `FinishDrain` takes the settled outcome.

## Model

| member | source | states |
|---|---|---|
| Text.Trim | src/components/studio/StudioLayout.tsx:239 | the trimmed string is empty exactly when the input is all whitespace, and otherwise neither starts nor ends with whitespace |
| Text.TrimIsSlice | src/components/studio/StudioLayout.tsx:239 | `trim` returns a slice of its input with nothing but whitespace cut off before and after it |
| Text.TrimIdempotent | src/components/studio/StudioLayout.tsx:261 | trimming a trimmed prompt changes nothing |
| Text.SplitOn | src/components/studio/ImageCard.tsx:38 | `split(':')` yields at least one part, no part holds the separator, and one part exactly when the separator is absent |
| Text.JoinSplit | src/components/studio/ImageCard.tsx:38 | joining the parts of a split with the separator gives the string back |
| Text.SplitJoin | src/components/studio/ImageCard.tsx:38 | splitting a join of separator-free parts gives the parts back |
| Text.CompareStrings | src/components/studio/Gallery.tsx:120 | the id order used for ties returns -1, 0 or 1, and 0 exactly for equal strings |
| Text.CompareAntisymmetric | src/components/studio/Gallery.tsx:120 | swapping the strings negates the comparison |
| Text.CompareTransitive | src/components/studio/Gallery.tsx:120 | "not after" on strings is transitive |
| Selection.Toggle | src/components/studio/StyleSelector.tsx:108-114 | the toggled value is in the result exactly when it was not selected; every other selected value stays, and nothing else is added |
| Selection.RemoveAll | src/components/studio/StyleSelector.tsx:110 | the filter removes every occurrence of the value and keeps every other value with its multiplicity |
| Selection.ToggleSelected | src/components/studio/StyleSelector.tsx:109-110 | toggling a selected id removes all its occurrences and keeps the rest; without duplicates that is deleting its position, so the others keep their order |
| Selection.ToggleUnselected | src/components/studio/AspectRatioSelector.tsx:73-74 | toggling an unselected id appends it at the end |
| Selection.ToggleTwice | src/components/studio/ModelSelector.tsx:23-29 | toggling an absent id twice restores the selection |
| Selection.ToggleKeepsNoDuplicates | src/components/studio/AspectRatioSelector.tsx:70-76 | toggling never introduces a duplicate |
| Selection.RemoveAbsent | src/components/studio/ModelSelector.tsx:25 | filtering out an absent id changes nothing |
| Selection.RemoveConcat | src/components/studio/ModelSelector.tsx:25 | the filter distributes over concatenation, so the kept values keep their order |
| Selection.RemoveAt | src/components/studio/AspectRatioSelector.tsx:73 | in a duplicate-free selection, filtering out the value at a position deletes exactly that position |
| StyleSelector.FindIn | src/components/studio/StudioLayout.tsx:264 | the lookup returns a style of the table with the asked id, and nothing exactly when no style has that id |
| StyleSelector.StyleIdsDistinct | src/components/studio/StyleSelector.tsx:12-97 | the twelve style ids are pairwise distinct |
| StyleSelector.StyleKeywordsNonEmpty | src/components/studio/StyleSelector.tsx:12-97 | every style has non-empty keywords |
| StyleSelector.FindInUnique | src/components/studio/StudioLayout.tsx:264 | with distinct ids the lookup returns a style exactly when it is in the table with that id |
| StyleSelector.FindStyle | src/components/studio/StudioLayout.tsx:264 | the lookup in the style table; `FindStyleUnique` states what it returns |
| StyleSelector.FindStyleUnique | src/components/studio/StyleSelector.tsx:12-97 | a selected id names at most one style of the table, and the lookup returns it |
| AspectRatioSelector.IconClassName | src/components/studio/AspectRatioSelector.tsx:20-58 | the icon renders exactly for the six types, with the width, aspect and border classes |
| AspectRatioSelector.IconFor | src/components/studio/AspectRatioSelector.tsx:25-52 | the icon switch; `IconForDomain` states its domain and `KnownIconClasses` its six cases |
| AspectRatioSelector.IconForDomain | src/components/studio/AspectRatioSelector.tsx:25-52 | the switch handles exactly the six icon types and returns nothing otherwise |
| AspectRatioSelector.KnownIconClasses | src/components/studio/AspectRatioSelector.tsx:26-49 | each of the six icon types gets its fixed width and aspect classes |
| AspectRatioSelector.AspectRatiosWellFormed | src/components/studio/AspectRatioSelector.tsx:4-11 | the six ratio ids are distinct and every icon type is one the icon draws |
| ImageCard.AspectRatioClass | src/components/studio/ImageCard.tsx:20-41 | `getAspectRatioClass`; `KnownRatioClasses`, `FallbackClass` and `NoColonClass` state its three kinds of input |
| ImageCard.ArbitraryParts | src/components/studio/ImageCard.tsx:36-40 | the fallback's split of `w:h…` takes `w` and `h` as the first two parts |
| ImageCard.KnownRatioClasses | src/components/studio/ImageCard.tsx:22-35 | the six known ratios map to their fixed classes |
| ImageCard.FallbackClass | src/components/studio/ImageCard.tsx:36-40 | any other `w:h`, with or without further parts, gives `aspect-[w/h]` |
| ImageCard.NoColonClass | src/components/studio/ImageCard.tsx:36-40 | a ratio without `:` gives `aspect-[ratio/undefined]` |
| ImageCard.CardAspectClass | src/components/studio/ImageCard.tsx:52 | the card's class, with `1:1` for a missing ratio; `MissingRatioIsSquare` states that default |
| ImageCard.MissingRatioIsSquare | src/components/studio/ImageCard.tsx:52 | a missing or empty ratio is treated as `1:1` |
| ImageCard.SameProps | src/components/studio/ImageCard.tsx:151-159 | the memo comparator; `SamePropsIff` and `SamePropsEquivalence` state what it decides |
| ImageCard.SamePropsIff | src/components/studio/ImageCard.tsx:151-159 | the memo comparator reports equal props exactly when the images differ at most in aspect ratio, width and height |
| ImageCard.SamePropsEquivalence | src/components/studio/ImageCard.tsx:151-159 | the comparator is reflexive, symmetric and transitive |
| ImageCard.CardLoading.constructor | src/components/studio/ImageCard.tsx:47-51 | loading starts as "placeholder or non-empty url", and no url is seen yet |
| ImageCard.CardLoading.OnImageProps | src/components/studio/ImageCard.tsx:55-66 | a url different from the last one seen is recorded and resets loading to "non-empty url, else placeholder"; the same url leaves both alone |
| ImageCard.CardLoading.OnImageElement | src/components/studio/ImageCard.tsx:70-83 | an image element already complete while the url is non-empty ends loading; otherwise nothing changes |
| ImageCard.CardLoading.OnImageSettled | src/components/studio/ImageCard.tsx:134-135 | load and error of the image element end loading |
| StreamMerge.IndexOfId | src/components/studio/StudioLayout.tsx:106-108 | `findIndex` by id gives the lowest index with that id, or -1 when there is none |
| StreamMerge.IndexOfPlaceholder | src/components/studio/StudioLayout.tsx:129-133 | `findIndex` of a placeholder for the model gives the lowest such index, or -1 |
| StreamMerge.MergeImage | src/components/studio/StudioLayout.tsx:106-166 | the three-way merge of one payload into a generation's images; `MergeById`, `MergeIntoPlaceholder`, `MergeAppends`, `MergeHoldsRecord` and `MergeIdempotent` state its cases |
| StreamMerge.MergeById | src/components/studio/StudioLayout.tsx:106-126 | with an id match the entry takes the payload's url, model, size and `isPlaceholder=false`; its index, the length and every other image are unchanged |
| StreamMerge.MergeIntoPlaceholder | src/components/studio/StudioLayout.tsx:128-149 | with no id match the first placeholder for the model is replaced at its index, and the length is unchanged |
| StreamMerge.MergeAppends | src/components/studio/StudioLayout.tsx:150-166 | with neither match the record is appended, so the length grows by one |
| StreamMerge.MergeHoldsRecord | src/components/studio/StudioLayout.tsx:106-166 | after a merge the payload's record is present under its id |
| StreamMerge.MergeIdempotent | src/components/studio/StudioLayout.tsx:106-166 | merging the same payload twice equals merging it once |
| StreamMerge.ApplyImageComplete | src/components/studio/StudioLayout.tsx:99-173 | `image_complete` merges into the generation the payload names; `ApplyKeepsGenerations` and `ApplyIdempotent` state its effect |
| StreamMerge.ApplyKeepsGenerations | src/components/studio/StudioLayout.tsx:102-170 | the merge keeps the number, order and ids of the generations, and every other generation unchanged |
| StreamMerge.ApplyIdempotent | src/components/studio/StudioLayout.tsx:99-173 | a repeated `image_complete` leaves the generations as after the first |
| StreamMerge.DropPlaceholders | src/components/studio/StudioLayout.tsx:190-192 | the filter keeps exactly the non-placeholder images |
| StreamMerge.DropConcat | src/components/studio/StudioLayout.tsx:190-192 | the filter distributes over concatenation, so kept images keep their order |
| StreamMerge.DropNone | src/components/studio/StudioLayout.tsx:190-192 | a list without placeholders is kept whole |
| StreamMerge.CompleteGeneration | src/components/studio/StudioLayout.tsx:186-200 | `generation_complete` drops the generation's placeholders; `CompleteGenerationEffect` and `CompleteIdempotent` state its effect |
| StreamMerge.CompleteGenerationEffect | src/components/studio/StudioLayout.tsx:186-200 | `generation_complete` leaves the generation exactly its non-placeholder images and every other generation untouched |
| StreamMerge.CompleteIdempotent | src/components/studio/StudioLayout.tsx:186-200 | completing a generation twice equals completing it once |
| StreamMerge.Reconcile | src/components/studio/StudioLayout.tsx:94-219 | the dispatch of a stream message to its merge; `OtherMessagesKeepGenerations` states the messages that change nothing |
| StreamMerge.StreamsAfter | src/components/studio/StudioLayout.tsx:175-218 | `generation_complete` and `error` close the stream and remove it; `OtherMessagesKeepGenerations` states which messages keep it |
| StreamMerge.OtherMessagesKeepGenerations | src/components/studio/StudioLayout.tsx:206-218 | `error`, unknown and malformed messages leave the generations alone; `error` removes the stream and the others do not |
| StudioQueue.FormCheck | src/components/studio/StudioLayout.tsx:239-252 | the three form checks in their order; `FormCheckRefuses` states when a form is refused |
| StudioQueue.FormCheckRefuses | src/components/studio/StudioLayout.tsx:239-252 | a form is refused exactly when the prompt is blank, no model is selected or no ratio is selected |
| StudioQueue.ModelNames | src/components/studio/StudioLayout.tsx:255-257 | there are never more model names than models; `ModelNamesSingle` and `ModelNamesConcat` give the names of any list of models |
| StudioQueue.ModelNamesSingle | src/components/studio/StudioLayout.tsx:255-257 | one model contributes its name exactly when its id is selected |
| StudioQueue.ModelNamesConcat | src/components/studio/StudioLayout.tsx:255-257 | the names of concatenated model lists are the concatenated names, so the names follow the model order |
| StudioQueue.ModelNamesIgnoreSelectionOrder | src/components/studio/StudioLayout.tsx:255-257 | model names follow the model list, not the selection order |
| StudioQueue.ModelNamesAll | src/components/studio/StudioLayout.tsx:255-257 | selecting every model names them all in list order |
| StudioQueue.StyleKeywords | src/components/studio/StudioLayout.tsx:262-268 | at most one keyword string per selected id, and none empty |
| StudioQueue.StyleKeywordsConcat | src/components/studio/StudioLayout.tsx:262-268 | keywords of a concatenated selection are the concatenated keywords, in selection order |
| StudioQueue.StyleKeywordsSingle | src/components/studio/StudioLayout.tsx:263-266 | a known id contributes its style's keywords and an unknown id nothing |
| StudioQueue.StyleKeywordsEmptyIff | src/components/studio/StudioLayout.tsx:262-268 | the keywords are empty exactly when no selected id is a known style |
| StudioQueue.EnhancedPrompt | src/components/studio/StudioLayout.tsx:260-273 | the prompt that is queued; `EnhancedPromptShape` states its two forms |
| StudioQueue.EnhancedPromptShape | src/components/studio/StudioLayout.tsx:260-273 | the queued prompt is the trimmed prompt when no selected style is known, otherwise the trimmed prompt, `", "` and the joined keywords |
| StudioQueue.NewQueueItem | src/components/studio/StudioLayout.tsx:276-286 | the appended item: the enhanced prompt, the selections, the model names, the reference images only when there are any, and status pending |
| StudioQueue.FirstPending | src/components/studio/StudioLayout.tsx:308-309 | the drain picks the lowest pending index, or none when nothing is pending |
| StudioQueue.WithoutItem | src/components/studio/StudioLayout.tsx:360 | removal keeps exactly the items with another id and shrinks a queue that held the id; `WithoutItemSingle` and `WithoutItemConcat` fix the order |
| StudioQueue.WithoutItemSingle | src/components/studio/StudioLayout.tsx:360 | one item is kept exactly when its id is another one |
| StudioQueue.WithoutItemConcat | src/components/studio/StudioLayout.tsx:360 | removal from concatenated queues is the concatenation of the removals, so the kept items keep their order |
| StudioQueue.MarkProcessing | src/components/studio/StudioLayout.tsx:315-319 | the claimed item is marked processing; `MarkProcessingOnly` states that nothing else changes |
| StudioQueue.AppendFreshKeepsDistinct | src/components/studio/StudioLayout.tsx:288 | appending an item with a new id keeps the queue's ids distinct |
| StudioQueue.MarkProcessingKeepsDistinct | src/components/studio/StudioLayout.tsx:315-319 | marking items processing keeps the queue's ids distinct |
| StudioQueue.WithoutItemKeepsDistinct | src/components/studio/StudioLayout.tsx:360-367 | removing the items with an id keeps the remaining ids distinct |
| StudioQueue.MarkProcessingOnly | src/components/studio/StudioLayout.tsx:315-319 | with distinct ids only the claimed item becomes processing |
| StudioQueue.CountStatus | src/components/studio/StudioLayout.tsx:387-390 | a count never exceeds the queue length; `CountStatusSingle` and `CountStatusConcat` fix its value on every queue |
| StudioQueue.CountStatusSingle | src/components/studio/StudioLayout.tsx:387-390 | one item counts one exactly when it has the status |
| StudioQueue.CountStatusConcat | src/components/studio/StudioLayout.tsx:387-390 | the count of a concatenation is the sum of the counts |
| StudioQueue.CountStatusAt | src/components/studio/StudioLayout.tsx:387-390 | a status some item has counts at least one |
| StudioQueue.CountsCoverQueue | src/components/studio/StudioLayout.tsx:387-390 | with only pending and processing items the two counts add up to the queue length |
| StudioQueue.CountAbsent | src/components/studio/StudioLayout.tsx:387-390 | a status no item has counts zero |
| StudioQueue.AtMostOneProcessing | src/components/studio/StudioLayout.tsx:306-312 | with distinct ids and a single drained id, at most one item is processing |
| StudioQueue.OptimisticGenerations | src/components/studio/StudioLayout.tsx:337-350 | the optimistic generations of an accepted item; `OptimisticShape` states their shape |
| StudioQueue.OptimisticShape | src/components/studio/StudioLayout.tsx:337-350 | one generation per ratio in ratio order, each with its own creation time and one placeholder per model name: derived id, empty url, placeholder flag |
| StudioQueue.ArrivalReplacesPlaceholder | src/components/studio/StudioLayout.tsx:128-149 | a model's first image for an optimistic generation replaces that model's placeholder |
| StudioQueue.SubmissionError | src/components/studio/StudioLayout.tsx:362-364 | the notice for a rejected submission: its message, or a fixed text when there is none |
| StudioSession.Session.constructor | src/components/studio/StudioLayout.tsx:63-81 | the session starts with an empty form, ratio `1:1`, an empty queue, no drain, the given generations and no stream |
| StudioSession.AppendPendingKeepsInvariant | src/components/studio/StudioLayout.tsx:288 | appending a pending item keeps the drain invariant |
| StudioSession.Session.SetPrompt | src/components/studio/StudioLayout.tsx:440 | the prompt becomes the typed text |
| StudioSession.Session.SetReferenceImages | src/components/studio/StudioLayout.tsx:457 | the reference images become the uploaded list |
| StudioSession.Session.Enqueue | src/components/studio/StudioLayout.tsx:288 | a pending item is appended and the drain invariant is kept |
| StudioSession.Session.ToggleModel | src/components/studio/ModelSelector.tsx:23-29 | the model selection becomes the toggle of the old one |
| StudioSession.Session.ToggleAspectRatio | src/components/studio/AspectRatioSelector.tsx:70-76 | the ratio selection becomes the toggle of the old one |
| StudioSession.Session.ToggleStyle | src/components/studio/StyleSelector.tsx:108-114 | the style selection becomes the toggle of the old one |
| StudioSession.Session.AddToQueue | src/components/studio/StudioLayout.tsx:238-300 | a refused form changes nothing; otherwise exactly one pending item is appended and the prompt and reference images are cleared; the drain invariant is kept |
| StudioSession.Session.BeginDrain | src/components/studio/StudioLayout.tsx:306-319 | with the guard set or nothing pending it is a no-op; otherwise it claims the first pending item, sets the guard and marks that item processing |
| StudioSession.Session.FinishDrain | src/components/studio/StudioLayout.tsx:337-373 | accepted: the optimistic generations, each with the creation time read for it, are put first and each gets a stream; rejected: only a notice; either way the item leaves the queue and the guard is released |
| StudioSession.Session.Connect | src/components/studio/StudioLayout.tsx:232-234 | the generation joins the live streams |
| StudioSession.Session.Deliver | src/components/studio/StudioLayout.tsx:94-219 | a stream message updates the generations by the merge and the live streams as the message asks |
| StudioSession.Session.TransportError | src/components/studio/StudioLayout.tsx:221-230 | a transport error removes the stream and leaves the generations alone |
| StudioSession.Session.ResetGenerations | src/components/studio/StudioLayout.tsx:84-86 | a new initial list replaces the generations on view |
| StudioSession.Session.PendingCount | src/components/studio/StudioLayout.tsx:387 | the pending counter, the number of pending items (`CountStatus`); `CountersCoverQueue` relates it to the queue |
| StudioSession.Session.ProcessingCount | src/components/studio/StudioLayout.tsx:388-390 | the processing counter, the number of processing items (`CountStatus`); with distinct ids, `OneJobProcessing` fixes it at one while the drain runs and zero otherwise |
| StudioSession.Session.CountersCoverQueue | src/components/studio/StudioLayout.tsx:387-390 | in every valid state the pending and processing counts add up to the queue length |
| StudioSession.Session.OneJobProcessing | src/components/studio/StudioLayout.tsx:306-319 | with distinct ids at most one job is processing: exactly one while the drain runs, none otherwise |
| StudioSession.Session.UnmountAsWritten | src/components/studio/StudioLayout.tsx:380-385 | the cleanup closes the streams of the map captured at mount |
| StudioSession.Session.Unmount | src/components/studio/StudioLayout.tsx:380-385 | the intended cleanup closes every live stream |
| StudioSession.FilledSession | src/components/studio/StudioLayout.tsx:63-81 | a fresh session after typing a prompt and selecting one model holds that prompt and model, the default ratio, an empty queue and no stream |
| StudioSession.QueuedSession | src/components/studio/StudioLayout.tsx:238-300 | a valid prompt for one selected model is queued as a single pending item for the default `1:1` ratio, with no stream open |
| StudioSession.AcceptedSession | src/components/studio/StudioLayout.tsx:303-373 | accepting the queued prompt as `g1` leaves exactly `g1`'s stream live |
| StudioSession.UnmountLeavesStreamOpen | src/components/studio/StudioLayout.tsx:380-385 | after one accepted job, the cleanup as written leaves that generation's stream open |
| StudioSession.UnmountClosesEveryStream | src/components/studio/StudioLayout.tsx:380-385 | after the same job, the intended cleanup leaves no stream open |
| Gallery.GalleryImage.constructor | src/components/studio/Gallery.tsx:83-90 | a new object carries the image's fields and the passed generation id, prompt, ratio and placeholder flag |
| Gallery.Signature | src/components/studio/Gallery.tsx:72 | the cache signature; `SignatureEqualIff` and `SignatureCollision` state when two agree |
| Gallery.SignatureEqualIff | src/components/studio/Gallery.tsx:72 | two signatures agree exactly when the flags agree and so do url and model joined by a dash |
| Gallery.SignatureCollision | src/components/studio/Gallery.tsx:72 | two different url/model pairs can share a signature |
| Gallery.FlatIdsCount | src/components/studio/Gallery.tsx:100-110 | the flattened list is as long as all image lists together |
| Gallery.FlatIdsMembers | src/components/studio/Gallery.tsx:100-110 | the flattened list holds exactly the ids of all images of all generations |
| Gallery.FlatImages | src/components/studio/Gallery.tsx:100-110 | the images of all generations in `flatMap` order, with the flattened ids |
| Gallery.OnceFirstLast | src/components/studio/Gallery.tsx:100-110 | an id that occurs once in the flattened list is both its first and its last occurrence |
| Gallery.FindGeneration | src/components/studio/Gallery.tsx:114-115 | the lookup returns a generation with the id, and nothing exactly when none has it; `FindGenerationFirst` says which one |
| Gallery.FindGenerationFirst | src/components/studio/Gallery.tsx:114-115 | the lookup returns the first generation with the id |
| Gallery.CompareImages | src/components/studio/Gallery.tsx:113-121 | the sort comparator; `CompareImagesMeaning`, `CompareImagesAntisymmetric` and `CompareImagesTransitive` state its meaning |
| Gallery.CompareImagesMeaning | src/components/studio/Gallery.tsx:113-121 | with both generations found a newer generation sorts first and a tie falls to the ids; otherwise the ids decide |
| Gallery.CompareImagesAntisymmetric | src/components/studio/Gallery.tsx:113-121 | swapping the arguments flips the comparator's sign |
| Gallery.CompareImagesTransitive | src/components/studio/Gallery.tsx:113-121 | with all generations found "not after" is transitive |
| Gallery.Insert | src/components/studio/Gallery.tsx:113 | the insertion step of the sort adds one element, in front or after the head |
| Gallery.InsertSorted | src/components/studio/Gallery.tsx:113-121 | inserting into a list in comparator order keeps it in comparator order |
| Gallery.InsertPermutes | src/components/studio/Gallery.tsx:113 | inserting adds exactly the one object |
| Gallery.InsertIds | src/components/studio/Gallery.tsx:113 | inserting adds exactly the one id |
| Gallery.SortImages | src/components/studio/Gallery.tsx:113-121 | the sorted list holds the same objects, and neighbours are in comparator order |
| Gallery.SortedWhenAllDated | src/components/studio/Gallery.tsx:113-121 | when every image's generation is found, the sorted list is ordered pairwise |
| Gallery.ImageCache.GetCachedImage | src/components/studio/Gallery.tsx:60-95 | the id becomes current; a matching signature returns the cached object and leaves the cache alone; otherwise a new object is cached under the id |
| Gallery.ImageCache.Flatten | src/components/studio/Gallery.tsx:60-110 | one object per image in flatMap order, never a placeholder, showing its image's url and model (joined by a dash), each id recorded as current and cached; the last image with an id gets the object that ends up cached; the first image with an id reuses the old cached object on a signature match, and otherwise gets a fresh object built from it, with its url, model and dimensions |
| Gallery.TracksFlatImages | src/components/studio/Gallery.tsx:99-110 | the loop invariant of the flattening, at the end, gives the flattening's object-level results |
| Gallery.TracksStep | src/components/studio/Gallery.tsx:60-95 | one cache lookup, appended, keeps the flattening's loop invariant |
| Gallery.ImageCache.Evict | src/components/studio/Gallery.tsx:123-129 | exactly the entries whose id is current remain, unchanged |
| Gallery.ImageCache.Recompute | src/components/studio/Gallery.tsx:98-132 | the cache holds exactly the ids shown; the list has each id as often as the generations do, no placeholder, in comparator order; every object shown shows the url and model of one of the images; an object shown under an id that occurs once shows that image, is the cached object, and is a fresh object built from the image unless the old cache held it under its signature, in which case the old object is shown |
| Gallery.ShownAt | src/components/studio/Gallery.tsx:99-121 | after the sort, the object shown under an id that occurs once is the one built at that id's position |
| Gallery.ShownOnce | src/components/studio/Gallery.tsx:60-121 | an object shown under an id that occurs once shows that image, and was built from it when the old cache missed |
| Gallery.ShownDepict | src/components/studio/Gallery.tsx:99-121 | every object shown shows the url and model of one of the images |
| Gallery.ShownAreCached | src/components/studio/Gallery.tsx:99-129 | after sorting and eviction, a shown image whose id occurs once is the cached object |
| Gallery.ReusedAreShown | src/components/studio/Gallery.tsx:99-121 | an old object reused for an id that occurs once is in the sorted list |
| Gallery.ImageCache.SyncGenerationIds | src/components/studio/Gallery.tsx:39-57 | the cache is emptied exactly when both id sets are non-empty and disjoint; the current ids are always remembered |

## Left out

- The `EventSource` transport, `JSON.parse`, toasts, `console` logging and React's scheduling of effects are not modelled. A stream message arrives as a value of `StreamMessage`.
- The `Promise.all` over the aspect ratios is modelled as one settled outcome, either all generation ids or one rejection message.
- Between `BeginDrain` and `FinishDrain` the source awaits the server. Any other operation may run there, and the model allows that.
- Ids from `Date.now()` are parameters and are not assumed distinct. Lemmas that need distinct ids say so.
- `StudioSession.Session.Connect`: the live streams are a set of generation ids. The source's `new Map(prev).set(id, eventSource)` replaces a stream already open under the same id without closing it, so two streams would then deliver. The model folds them into one. This needs the server to repeat a generation id.
- `StudioSession.Session.OneJobProcessing` needs distinct job ids. With a repeated `Date.now()` id, `BeginDrain` marks every item with that id processing. `AppendFreshKeepsDistinct`, `MarkProcessingKeepsDistinct` and `WithoutItemKeepsDistinct` show that enqueueing a new id, claiming and removing keep ids distinct.
- `StudioSession.Session.FinishDrain`: the notice text and the logged error are returned or dropped, not shown.
- An `error` message without `data` throws before it closes its stream. The model treats such a payload as `Malformed`, which changes nothing.
- The server functions, storage, the third-party image API, the masonry grid, the timeline, the dialogs and the upload widget are not part of this model.
- The stream handler remembers the generation id it was opened for. `Deliver` takes that id as `sid`.
- `localeCompare` is modelled as lexicographic order of Unicode code points; Dafny's characters are scalar values. This differs from UTF-16 code-unit order for characters above U+FFFF. The locale's collation is not modelled.
- `Gallery.SortImages`: `Array.prototype.sort` is a library call. It is modelled as a functional insertion sort on a sequence, not as an in-place sort of an array.
- `Gallery.SortImages`: the contract states neighbour order and the same objects. It does not state stability.
- `Gallery.SortedWhenAllDated`: pairwise order is proved only when every image's generation is found. A cached object can keep the generation id it was created with, and without that generation the comparator is not transitive.
- React runs the gallery's memo while rendering and its effect afterwards. They are separate methods here, and their order is left to the caller.
- `Gallery.ImageCache.GetCachedImage`: on a hit only the id, the flag and the url and model joined by a dash are known to match. The url and model themselves need not match, because of `Gallery.SignatureCollision`.
- `Gallery.ImageCache.Flatten`: for a fresh object, the generation id, prompt and aspect ratio it was built with are stated by `GetCachedImage` but not carried to the list. A shown object's own generation id is what the sort uses.
- `Gallery.ImageCache.Recompute`: which object a later occurrence of a repeated id gets is stated only by `Flatten` (the last occurrence's object is cached), not through the sort.
- `Gallery.FindGeneration`: that the first generation with the id wins is stated by the lemma `FindGenerationFirst`, not as an ensures. As an ensures it would enter every proof about the comparator.
- `StudioSession.Session`: the session takes the style table as a constructor argument. The studio passes `StyleSelector.ArtisticStyles`; this keeps the twelve long keyword strings out of the session's proofs.

## Findings

| source | as written | input that shows it | evidently intended | confidence | as-written member | corrected member |
|---|---|---|---|---|---|---|
| src/components/studio/StudioLayout.tsx:380-385 | the unmount cleanup sits in an effect with no dependencies; it closes the streams of the map captured on the first render, which is empty | add a job, have it accepted as `g1`, then unmount: `g1`'s stream stays open | unmounting closes every live stream | not executed | StudioSession.UnmountLeavesStreamOpen | StudioSession.Session.Unmount |
