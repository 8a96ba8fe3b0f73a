/**
  The gallery's flattened image list: one image object per image of every generation,
  handed out from a cache keyed by image id so that unchanged images keep their object,
  ordered newest generation first and then by image id.
*/
module Gallery {
  import opened Options
  import opened Text
  import opened StreamMerge
  import Selection

  /** One image object of the flattened list; the cache hands out the same object while it is valid. */
  class GalleryImage {
    const id: string
    const r2Url: string
    const modelName: string
    const width: Option<int>
    const height: Option<int>
    const generationId: string
    const prompt: string
    const aspectRatio: string
    const isPlaceholder: bool

    /** `{ ...img, r2Url: img.r2Url || '', generationId, prompt, aspectRatio, isPlaceholder }`. */
    constructor (img: ImageRecord, generationId: string, prompt: string, aspectRatio: string, isPlaceholder: bool)
      ensures id == img.id && r2Url == img.r2Url && modelName == img.modelName
      ensures width == img.width && height == img.height
      ensures this.generationId == generationId && this.prompt == prompt
      ensures this.aspectRatio == aspectRatio && this.isPlaceholder == isPlaceholder
    {
      id, r2Url, modelName := img.id, img.r2Url, img.modelName;
      width, height := img.width, img.height;
      this.generationId, this.prompt := generationId, prompt;
      this.aspectRatio, this.isPlaceholder := aspectRatio, isPlaceholder;
    }
  }

  /** A cached object with the signature it was created under. */
  datatype CacheEntry = CacheEntry(obj: GalleryImage, signature: string)

  /** How a template literal prints a boolean. */
  function BoolText(b: bool): string {
    if b then "true" else "false"
  }

  /** `${img.r2Url || ''}-${img.modelName}-${isPlaceholder}`. */
  function Signature(r2Url: string, modelName: string, isPlaceholder: bool): string {
    r2Url + "-" + modelName + "-" + BoolText(isPlaceholder)
  }

  /**
    Two signatures agree exactly when the placeholder flags agree and so do the url and
    model name joined by a dash.
  */
  lemma SignatureEqualIff(u1: string, m1: string, f1: bool, u2: string, m2: string, f2: bool)
    ensures Signature(u1, m1, f1) == Signature(u2, m2, f2) <==> f1 == f2 && u1 + "-" + m1 == u2 + "-" + m2
  {
    var t1, t2 := u1 + "-" + m1, u2 + "-" + m2;
    var s1, s2 := Signature(u1, m1, f1), Signature(u2, m2, f2);
    assert s1 == t1 + ("-" + BoolText(f1));
    assert s2 == t2 + ("-" + BoolText(f2));
    // the next-to-last character tells "true" from "false"
    assert s1[|s1| - 2] == (if f1 then 'u' else 's');
    assert s2[|s2| - 2] == (if f2 then 'u' else 's');
    if s1 == s2 && f1 == f2 {
      assert t1 == s1[..|t1|];
      assert t2 == s2[..|t2|];
    }
  }

  /** The signature does not tell the url from the model name: two different images can share it. */
  lemma SignatureCollision()
    ensures Signature("a-b", "c", false) == Signature("a", "b-c", false)
  {
  }

  /** The ids of a list of image objects, in order. */
  function IdsOf(s: seq<GalleryImage>): (ids: seq<string>)
    ensures |ids| == |s|
    ensures forall k :: 0 <= k < |s| ==> ids[k] == s[k].id
  {
    seq(|s|, k requires 0 <= k < |s| => s[k].id)
  }

  /** The ids of a generation's images, in order. */
  function ImageIds(images: seq<ImageRecord>): (ids: seq<string>)
    ensures |ids| == |images|
    ensures forall j :: 0 <= j < |images| ==> ids[j] == images[j].id
  {
    seq(|images|, j requires 0 <= j < |images| => images[j].id)
  }

  /** The image ids of `generations.flatMap((gen) => gen.images)`, in order. */
  function FlatIds(gens: seq<Generation>): seq<string> {
    if |gens| == 0 then [] else FlatIds(gens[..|gens| - 1]) + ImageIds(gens[|gens| - 1].images)
  }

  /** `generations.flatMap((gen) => gen.images)`: the images themselves, whose ids are `FlatIds`. */
  function FlatImages(gens: seq<Generation>): (imgs: seq<ImageRecord>)
    ensures ImageIds(imgs) == FlatIds(gens)
  {
    if |gens| == 0 then []
    else
      var front := FlatImages(gens[..|gens| - 1]);
      var last := gens[|gens| - 1].images;
      assert ImageIds(front + last) == ImageIds(front) + ImageIds(last);
      front + last
  }

  /** One more generation adds its images at the end. */
  lemma FlatImagesStep(gens: seq<Generation>, g: nat)
    requires g < |gens|
    ensures FlatImages(gens[..g + 1]) == FlatImages(gens[..g]) + gens[g].images
  {
    assert gens[..g + 1][..g] == gens[..g];
  }

  /** Position `k` holds the first occurrence of its id. */
  predicate FirstAt(ids: seq<string>, k: int) {
    0 <= k < |ids| && forall j :: 0 <= j < k ==> ids[j] != ids[k]
  }

  /** Position `k` holds the last occurrence of its id. */
  predicate LastAt(ids: seq<string>, k: int) {
    0 <= k < |ids| && forall j :: k < j < |ids| ==> ids[j] != ids[k]
  }

  /** An id that occurs once is both at its first and at its last occurrence. */
  lemma OnceFirstLast(ids: seq<string>, k: int)
    requires 0 <= k < |ids| && multiset(ids)[ids[k]] == 1
    ensures FirstAt(ids, k) && LastAt(ids, k)
  {
    forall j | 0 <= j < |ids| && j != k ensures ids[j] != ids[k] {
      var a, b := if j < k then j else k, if j < k then k else j;
      assert ids == ids[..a] + [ids[a]] + ids[a + 1..b] + [ids[b]] + ids[b + 1..];
      assert multiset(ids)[ids[k]] >= (if ids[a] == ids[k] then 1 else 0) + (if ids[b] == ids[k] then 1 else 0);
    }
  }

  /** The number of images over all generations. */
  function TotalImages(gens: seq<Generation>): nat {
    if |gens| == 0 then 0 else TotalImages(gens[..|gens| - 1]) + |gens[|gens| - 1].images|
  }

  /** The flattened list is as long as all generations' image lists together (`totalCount`). */
  lemma {:induction false} FlatIdsCount(gens: seq<Generation>)
    ensures |FlatIds(gens)| == TotalImages(gens)
  {
    if |gens| > 0 {
      FlatIdsCount(gens[..|gens| - 1]);
    }
  }

  /** The flattened list holds the id of every image of every generation, and nothing else. */
  lemma {:induction false} FlatIdsMembers(gens: seq<Generation>, x: string)
    ensures x in FlatIds(gens) <==>
              exists g, j :: 0 <= g < |gens| && 0 <= j < |gens[g].images| && gens[g].images[j].id == x
  {
    if |gens| > 0 {
      var n := |gens| - 1;
      var front := gens[..n];
      FlatIdsMembers(front, x);
      assert forall g :: 0 <= g < n ==> front[g] == gens[g];
      if x in ImageIds(gens[n].images) {
        var j :| 0 <= j < |gens[n].images| && ImageIds(gens[n].images)[j] == x;
        assert gens[n].images[j].id == x;
      }
      if exists g, j :: 0 <= g < |gens| && 0 <= j < |gens[g].images| && gens[g].images[j].id == x {
        var g, j :| 0 <= g < |gens| && 0 <= j < |gens[g].images| && gens[g].images[j].id == x;
        if g == n {
          assert ImageIds(gens[n].images)[j] == x;
        } else {
          assert front[g].images[j].id == x;
        }
      }
    }
  }

  /** Position `k` holds the first generation of `gens` with the id. */
  predicate FirstWithId(gens: seq<Generation>, id: string, k: int) {
    && 0 <= k < |gens| && gens[k].id == id
    && forall j :: 0 <= j < k ==> gens[j].id != id
  }

  /** `generations.find((g) => g.id === id)`. */
  function FindGeneration(gens: seq<Generation>, id: string): (r: Option<Generation>)
    ensures r.Some? ==> r.value in gens && r.value.id == id
    ensures r.None? <==> forall g :: 0 <= g < |gens| ==> gens[g].id != id
  {
    if |gens| == 0 then None
    else if gens[0].id == id then Some(gens[0])
    else
      var r := FindGeneration(gens[1..], id);
      assert forall g :: 1 <= g < |gens| ==> gens[g] == gens[1..][g - 1];
      r
  }

  /** The lookup returns the first generation with the id: an earlier one always wins. */
  lemma {:induction false} FindGenerationFirst(gens: seq<Generation>, id: string, k: int)
    requires FirstWithId(gens, id, k)
    ensures FindGeneration(gens, id) == Some(gens[k])
  {
    if k > 0 {
      assert FirstWithId(gens[1..], id, k - 1);
      FindGenerationFirst(gens[1..], id, k - 1);
    }
  }

  /**
    The sort comparator: by the generations' creation times, newest first, when both
    generations are found and the times differ; otherwise by image id.
  */
  function CompareImages(a: GalleryImage, b: GalleryImage, gens: seq<Generation>): int {
    var genA := FindGeneration(gens, a.generationId);
    var genB := FindGeneration(gens, b.generationId);
    if genA.Some? && genB.Some? && genB.value.createdAt - genA.value.createdAt != 0 then
      genB.value.createdAt - genA.value.createdAt
    else
      CompareStrings(a.id, b.id)
  }

  /** Both images' generations are found. */
  predicate Dated(a: GalleryImage, gens: seq<Generation>) {
    FindGeneration(gens, a.generationId).Some?
  }

  /** The creation time of an image's generation; only meaningful when `Dated`. */
  function TimeOf(a: GalleryImage, gens: seq<Generation>): int {
    var g := FindGeneration(gens, a.generationId);
    if g.Some? then g.value.createdAt else 0
  }

  /**
    What the comparator orders by: with both generations found, an image of a newer
    generation comes first and a tie in time falls back to the ids; otherwise the ids
    decide. An equal verdict means the same time (or an unfound generation) and the
    same id.
  */
  lemma CompareImagesMeaning(a: GalleryImage, b: GalleryImage, gens: seq<Generation>)
    ensures Dated(a, gens) && Dated(b, gens) ==>
              (CompareImages(a, b, gens) < 0 <==>
                 TimeOf(a, gens) > TimeOf(b, gens) ||
                 (TimeOf(a, gens) == TimeOf(b, gens) && CompareStrings(a.id, b.id) < 0))
    ensures !(Dated(a, gens) && Dated(b, gens)) ==> CompareImages(a, b, gens) == CompareStrings(a.id, b.id)
    ensures CompareImages(a, b, gens) == 0 ==> a.id == b.id
  {
  }

  /** Swapping the arguments flips the comparator's sign. */
  lemma CompareImagesAntisymmetric(a: GalleryImage, b: GalleryImage, gens: seq<Generation>)
    ensures CompareImages(a, b, gens) > 0 <==> CompareImages(b, a, gens) < 0
    ensures CompareImages(a, b, gens) == 0 <==> CompareImages(b, a, gens) == 0
  {
    CompareAntisymmetric(a.id, b.id);
  }

  /** Among images whose generations are all found, "not after" is transitive. */
  lemma CompareImagesTransitive(a: GalleryImage, b: GalleryImage, c: GalleryImage, gens: seq<Generation>)
    requires Dated(a, gens) && Dated(b, gens) && Dated(c, gens)
    requires CompareImages(a, b, gens) <= 0 && CompareImages(b, c, gens) <= 0
    ensures CompareImages(a, c, gens) <= 0
  {
    if TimeOf(a, gens) == TimeOf(b, gens) == TimeOf(c, gens) {
      CompareTransitive(a.id, b.id, c.id);
    }
  }

  /** Every neighbouring pair is in comparator order. */
  predicate AdjacentSorted(s: seq<GalleryImage>, gens: seq<Generation>) {
    forall k :: 0 <= k < |s| - 1 ==> CompareImages(s[k], s[k + 1], gens) <= 0
  }

  /** Every pair is in comparator order. */
  predicate Sorted(s: seq<GalleryImage>, gens: seq<Generation>) {
    forall i, j :: 0 <= i < j < |s| ==> CompareImages(s[i], s[j], gens) <= 0
  }

  /** When every image's generation is found, neighbour order is full order. */
  lemma SortedWhenAllDated(s: seq<GalleryImage>, gens: seq<Generation>)
    requires AdjacentSorted(s, gens)
    requires forall k :: 0 <= k < |s| ==> Dated(s[k], gens)
    ensures Sorted(s, gens)
  {
    forall i, j | 0 <= i < j < |s| ensures CompareImages(s[i], s[j], gens) <= 0 {
      SortedBetween(s, gens, i, j);
    }
  }

  lemma {:induction false} SortedBetween(s: seq<GalleryImage>, gens: seq<Generation>, i: nat, j: nat)
    requires AdjacentSorted(s, gens)
    requires forall k :: 0 <= k < |s| ==> Dated(s[k], gens)
    requires i < j < |s|
    ensures CompareImages(s[i], s[j], gens) <= 0
    decreases j - i
  {
    if i + 1 < j {
      SortedBetween(s, gens, i, j - 1);
      CompareImagesTransitive(s[i], s[j - 1], s[j], gens);
    }
  }

  lemma IdsOfCons(x: GalleryImage, s: seq<GalleryImage>)
    ensures IdsOf([x] + s) == [x.id] + IdsOf(s)
  {
  }

  /** Putting an image in front of a sorted list that it is not after keeps the list sorted. */
  lemma ConsSorted(a: GalleryImage, t: seq<GalleryImage>, gens: seq<Generation>)
    requires AdjacentSorted(t, gens)
    requires |t| == 0 || CompareImages(a, t[0], gens) <= 0
    ensures AdjacentSorted([a] + t, gens)
  {
    var r := [a] + t;
    forall k | 0 <= k < |r| - 1 ensures CompareImages(r[k], r[k + 1], gens) <= 0 {
      if k > 0 {
        assert r[k] == t[k - 1] && r[k + 1] == t[k];
      }
    }
  }

  /** Inserts `x` into a list in comparator order, before the first element it is not after. */
  function Insert(x: GalleryImage, s: seq<GalleryImage>, gens: seq<Generation>): (r: seq<GalleryImage>)
    ensures |r| == |s| + 1 && (r[0] == x || (|s| > 0 && r[0] == s[0]))
  {
    if |s| == 0 then [x]
    else if CompareImages(x, s[0], gens) <= 0 then [x] + s
    else [s[0]] + Insert(x, s[1..], gens)
  }

  /** Inserting into a sorted list keeps it sorted. */
  lemma {:induction false} InsertSorted(x: GalleryImage, s: seq<GalleryImage>, gens: seq<Generation>)
    requires AdjacentSorted(s, gens)
    ensures AdjacentSorted(Insert(x, s, gens), gens)
  {
    if |s| == 0 {
    } else if CompareImages(x, s[0], gens) <= 0 {
      ConsSorted(x, s, gens);
    } else {
      CompareImagesAntisymmetric(x, s[0], gens);
      assert AdjacentSorted(s[1..], gens);
      InsertSorted(x, s[1..], gens);
      ConsSorted(s[0], Insert(x, s[1..], gens), gens);
    }
  }

  /** Inserting adds exactly the one object. */
  lemma {:induction false} InsertPermutes(x: GalleryImage, s: seq<GalleryImage>, gens: seq<Generation>)
    ensures multiset(Insert(x, s, gens)) == multiset(s) + multiset{x}
  {
    if |s| > 0 && CompareImages(x, s[0], gens) > 0 {
      assert s == [s[0]] + s[1..];
      InsertPermutes(x, s[1..], gens);
    }
  }

  /** Inserting adds exactly the one id. */
  lemma {:induction false} InsertIds(x: GalleryImage, s: seq<GalleryImage>, gens: seq<Generation>)
    ensures multiset(IdsOf(Insert(x, s, gens))) == multiset(IdsOf(s)) + multiset{x.id}
  {
    if |s| == 0 {
      assert Insert(x, s, gens) == [x];
      assert IdsOf([x]) == [x.id];
    } else if CompareImages(x, s[0], gens) <= 0 {
      IdsOfCons(x, s);
    } else {
      assert s == [s[0]] + s[1..];
      IdsOfCons(s[0], s[1..]);
      InsertIds(x, s[1..], gens);
      IdsOfCons(s[0], Insert(x, s[1..], gens));
    }
  }

  /**
    `images.sort(...)`, as an insertion sort: the result holds the same objects, and
    every neighbouring pair is in comparator order.
  */
  function SortImages(s: seq<GalleryImage>, gens: seq<Generation>): (r: seq<GalleryImage>)
    ensures AdjacentSorted(r, gens)
    ensures multiset(r) == multiset(s)
    ensures multiset(IdsOf(r)) == multiset(IdsOf(s))
  {
    if |s| == 0 then []
    else
      assert s == [s[0]] + s[1..];
      IdsOfCons(s[0], s[1..]);
      var t := SortImages(s[1..], gens);
      InsertSorted(s[0], t, gens);
      InsertPermutes(s[0], t, gens);
      InsertIds(s[0], t, gens);
      Insert(s[0], t, gens)
  }

  /** Whether `entries` holds `img` under the signature it would get now. */
  predicate Hit(entries: map<string, CacheEntry>, img: ImageRecord, isPlaceholder: bool) {
    img.id in entries && entries[img.id].signature == Signature(img.r2Url, img.modelName, isPlaceholder)
  }

  /** The ids of the generations, as a set. */
  function GenerationIds(gens: seq<Generation>): set<string> {
    set g | g in gens :: g.id
  }

  /** `obj` shows the image's url and model, the part of the signature besides the placeholder flag. */
  predicate Depicts(obj: GalleryImage, img: ImageRecord) {
    obj.id == img.id && obj.r2Url + "-" + obj.modelName == img.r2Url + "-" + img.modelName
  }

  /** `obj` was built from the image record: url, model and dimensions are the record's. */
  predicate BuiltFrom(obj: GalleryImage, img: ImageRecord) {
    && obj.id == img.id && obj.r2Url == img.r2Url && obj.modelName == img.modelName
    && obj.width == img.width && obj.height == img.height
  }

  /** One of `imgs` is what `obj` shows. */
  predicate DepictsSome(obj: GalleryImage, imgs: seq<ImageRecord>) {
    exists j :: 0 <= j < |imgs| && Depicts(obj, imgs[j])
  }

  /**
    What building the list so far has done to a cache that began as `start`: `flat` holds
    one non-placeholder object per image of `seen`, showing that image's url and model;
    every id met is `current`, ids not yet met keep their `start` entry and no other id is
    cached; the last object under each id is the cached one; and an image met for the
    first time got `start`'s object when `start` held it under its signature, and
    otherwise an object of `made` built from it.
  */
  ghost predicate Tracks(entries: map<string, CacheEntry>, current: set<string>, start: map<string, CacheEntry>,
                         seen: seq<ImageRecord>, flat: seq<GalleryImage>, made: set<GalleryImage>)
  {
    && IdsOf(flat) == ImageIds(seen)
    && (forall k :: 0 <= k < |flat| ==> !flat[k].isPlaceholder)
    && CacheFrame(entries, current, start, IdsOf(flat))
    && LastCached(entries, flat)
    && DepictsAll(seen, flat)
    && FirstReused(start, seen, flat)
    && FirstBuilt(start, seen, flat, made)
  }

  /** Every id met is `current` and cached, ids not yet met keep their `start` entry, no other id is cached. */
  ghost predicate CacheFrame(entries: map<string, CacheEntry>, current: set<string>, start: map<string, CacheEntry>,
                             ids: seq<string>)
  {
    && current == Selection.Elements(ids)
    && current <= entries.Keys <= start.Keys + current
    && (forall id :: id in start && id !in current ==> id in entries && entries[id] == start[id])
  }

  /** The last object under each id of `flat` is the one `entries` holds. */
  ghost predicate LastCached(entries: map<string, CacheEntry>, flat: seq<GalleryImage>) {
    forall k :: LastAt(IdsOf(flat), k) ==> flat[k].id in entries && entries[flat[k].id].obj == flat[k]
  }

  /** Each object shows its image's url and model. */
  ghost predicate DepictsAll(seen: seq<ImageRecord>, flat: seq<GalleryImage>)
    requires |seen| == |flat|
  {
    forall k :: 0 <= k < |flat| ==> Depicts(flat[k], seen[k])
  }

  /** Every image met for the first time that `start` held under its signature got `start`'s object. */
  ghost predicate FirstReused(start: map<string, CacheEntry>, seen: seq<ImageRecord>, flat: seq<GalleryImage>)
    requires |seen| == |flat|
  {
    forall k :: FirstAt(IdsOf(flat), k) && Hit(start, seen[k], false) ==> flat[k] == start[seen[k].id].obj
  }

  /** Every other image met for the first time got an object of `made`, built from it. */
  ghost predicate FirstBuilt(start: map<string, CacheEntry>, seen: seq<ImageRecord>, flat: seq<GalleryImage>,
                             made: set<GalleryImage>)
    requires |seen| == |flat|
  {
    forall k :: FirstAt(IdsOf(flat), k) && !Hit(start, seen[k], false) ==> flat[k] in made && BuiltFrom(flat[k], seen[k])
  }

  /** How one cache lookup for `img`, answered by `obj`, changes `e0` into `e1`. */
  ghost predicate LookupStep(e0: map<string, CacheEntry>, e1: map<string, CacheEntry>, img: ImageRecord,
                             isPlaceholder: bool, obj: GalleryImage) {
    && obj.id == img.id && obj.isPlaceholder == isPlaceholder
    && img.id in e1 && e1[img.id].obj == obj
    && (forall id :: id != img.id ==> (id in e1 <==> id in e0) && (id in e1 ==> e1[id] == e0[id]))
    && Depicts(obj, img)
    && (Hit(e0, img, isPlaceholder) ==> obj == e0[img.id].obj)
    && (!Hit(e0, img, isPlaceholder) ==> BuiltFrom(obj, img))
  }

  lemma LastCachedStep(e0: map<string, CacheEntry>, e1: map<string, CacheEntry>, flat: seq<GalleryImage>,
                       img: ImageRecord, obj: GalleryImage)
    requires LastCached(e0, flat) && LookupStep(e0, e1, img, false, obj)
    ensures LastCached(e1, flat + [obj])
  {
    var grown := flat + [obj];
    var ids, ids2 := IdsOf(flat), IdsOf(grown);
    assert ids2 == ids + [img.id];
    forall k | LastAt(ids2, k) ensures grown[k].id in e1 && e1[grown[k].id].obj == grown[k] {
      if k < |flat| {
        assert ids2[|flat|] == img.id;
        forall j | k < j < |ids| ensures ids[j] != ids[k] {
          assert ids[j] == ids2[j] && ids[k] == ids2[k];
        }
        assert LastAt(ids, k);
      }
    }
  }

  lemma FirstReusedStep(start: map<string, CacheEntry>, e0: map<string, CacheEntry>, e1: map<string, CacheEntry>,
                        seen: seq<ImageRecord>, flat: seq<GalleryImage>, img: ImageRecord, obj: GalleryImage)
    requires |seen| == |flat| && FirstReused(start, seen, flat) && LookupStep(e0, e1, img, false, obj)
    requires img.id !in IdsOf(flat) && img.id in start ==> img.id in e0 && e0[img.id] == start[img.id]
    ensures FirstReused(start, seen + [img], flat + [obj])
  {
    var grown, seen2 := flat + [obj], seen + [img];
    var ids, ids2 := IdsOf(flat), IdsOf(grown);
    assert ids2 == ids + [img.id];
    forall k | FirstAt(ids2, k) && Hit(start, seen2[k], false) ensures grown[k] == start[seen2[k].id].obj {
      if k < |flat| {
        forall j | 0 <= j < k ensures ids[j] != ids[k] {
          assert ids[j] == ids2[j] && ids[k] == ids2[k];
        }
        assert FirstAt(ids, k);
        assert seen2[k] == seen[k];
      } else {
        forall j | 0 <= j < |ids| ensures ids[j] != img.id {
          assert ids[j] == ids2[j] && ids2[k] == img.id;
        }
      }
    }
  }

  lemma CacheFrameStep(e0: map<string, CacheEntry>, c0: set<string>, e1: map<string, CacheEntry>, c1: set<string>,
                       start: map<string, CacheEntry>, ids: seq<string>, img: ImageRecord, obj: GalleryImage)
    requires CacheFrame(e0, c0, start, ids) && LookupStep(e0, e1, img, false, obj) && c1 == c0 + {img.id}
    ensures CacheFrame(e1, c1, start, ids + [img.id])
    ensures img.id !in ids ==> (img.id in e0 <==> img.id in start) && (img.id in e0 ==> e0[img.id] == start[img.id])
  {
    assert Selection.Elements(ids + [img.id]) == Selection.Elements(ids) + {img.id};
  }

  lemma DepictsAllStep(seen: seq<ImageRecord>, flat: seq<GalleryImage>, img: ImageRecord, obj: GalleryImage)
    requires |seen| == |flat| && DepictsAll(seen, flat) && Depicts(obj, img)
    ensures DepictsAll(seen + [img], flat + [obj])
  {
  }

  lemma FirstBuiltStep(start: map<string, CacheEntry>, e0: map<string, CacheEntry>, e1: map<string, CacheEntry>,
                       seen: seq<ImageRecord>, flat: seq<GalleryImage>, made0: set<GalleryImage>, made1: set<GalleryImage>,
                       img: ImageRecord, obj: GalleryImage)
    requires |seen| == |flat| && FirstBuilt(start, seen, flat, made0) && LookupStep(e0, e1, img, false, obj)
    requires made0 <= made1 && (!Hit(e0, img, false) ==> obj in made1)
    requires img.id !in IdsOf(flat) && img.id in e0 ==> img.id in start && e0[img.id] == start[img.id]
    ensures FirstBuilt(start, seen + [img], flat + [obj], made1)
  {
    var grown, seen2 := flat + [obj], seen + [img];
    var ids, ids2 := IdsOf(flat), IdsOf(grown);
    assert ids2 == ids + [img.id];
    forall k | FirstAt(ids2, k) && !Hit(start, seen2[k], false) ensures grown[k] in made1 && BuiltFrom(grown[k], seen2[k]) {
      if k < |flat| {
        forall j | 0 <= j < k ensures ids[j] != ids[k] {
          assert ids[j] == ids2[j] && ids[k] == ids2[k];
        }
        assert FirstAt(ids, k);
        assert seen2[k] == seen[k];
      } else {
        forall j | 0 <= j < |ids| ensures ids[j] != img.id {
          assert ids[j] == ids2[j] && ids2[k] == img.id;
        }
        assert !Hit(e0, img, false);
      }
    }
  }

  /** Appending the answer of one cache lookup keeps `Tracks`. */
  lemma TracksStep(e0: map<string, CacheEntry>, c0: set<string>, e1: map<string, CacheEntry>, c1: set<string>,
                   start: map<string, CacheEntry>, seen: seq<ImageRecord>, flat: seq<GalleryImage>,
                   made0: set<GalleryImage>, made1: set<GalleryImage>, img: ImageRecord, obj: GalleryImage)
    requires Tracks(e0, c0, start, seen, flat, made0)
    requires LookupStep(e0, e1, img, false, obj) && c1 == c0 + {img.id}
    requires made0 <= made1 && (!Hit(e0, img, false) ==> obj in made1)
    ensures Tracks(e1, c1, start, seen + [img], flat + [obj], made1)
  {
    var grown, seen2 := flat + [obj], seen + [img];
    assert IdsOf(grown) == IdsOf(flat) + [img.id];
    assert ImageIds(seen2) == ImageIds(seen) + [img.id];
    CacheFrameStep(e0, c0, e1, c1, start, IdsOf(flat), img, obj);
    LastCachedStep(e0, e1, flat, img, obj);
    DepictsAllStep(seen, flat, img, obj);
    FirstReusedStep(start, e0, e1, seen, flat, img, obj);
    FirstBuiltStep(start, e0, e1, seen, flat, made0, made1, img, obj);
  }

  /** What `Tracks` says once every image of `gens` has been met. */
  lemma TracksFlatImages(entries: map<string, CacheEntry>, current: set<string>, start: map<string, CacheEntry>,
                         gens: seq<Generation>, flat: seq<GalleryImage>, made: set<GalleryImage>)
    requires Tracks(entries, current, start, FlatImages(gens), flat, made)
    ensures IdsOf(flat) == FlatIds(gens) && |flat| == |FlatImages(gens)|
    ensures current == Selection.Elements(FlatIds(gens)) && current <= entries.Keys
    ensures forall k :: 0 <= k < |flat| ==> !flat[k].isPlaceholder
    ensures forall k :: 0 <= k < |flat| ==> Depicts(flat[k], FlatImages(gens)[k])
    ensures forall k :: LastAt(FlatIds(gens), k) ==> flat[k].id in entries && entries[flat[k].id].obj == flat[k]
    ensures forall k :: FirstAt(FlatIds(gens), k) && Hit(start, FlatImages(gens)[k], false) ==>
              flat[k] == start[FlatImages(gens)[k].id].obj
    ensures forall k :: FirstAt(FlatIds(gens), k) && !Hit(start, FlatImages(gens)[k], false) ==>
              flat[k] in made && BuiltFrom(flat[k], FlatImages(gens)[k])
  {
    assert |FlatImages(gens)| == |flat|;
  }

  /** An object shown under an id that occurs once is the one built for that id's position. */
  lemma ShownAt(ids: seq<string>, flat: seq<GalleryImage>, images: seq<GalleryImage>, k: int, j: int)
    requires IdsOf(flat) == ids && multiset(images) == multiset(flat)
    requires 0 <= k < |images| && 0 <= j < |ids| && images[k].id == ids[j] && multiset(ids)[ids[j]] == 1
    ensures images[k] == flat[j]
  {
    assert images[k] in multiset(flat);
    var i :| 0 <= i < |flat| && flat[i] == images[k];
    assert ids[i] == ids[j];
    OnceFirstLast(ids, j);
  }

  /**
    An object shown under an id that occurs once shows that id's image, and is one of
    `made`, built from the image, when `start` did not hold the image under its signature.
  */
  lemma ShownOnce(imgs: seq<ImageRecord>, ids: seq<string>, flat: seq<GalleryImage>, images: seq<GalleryImage>,
                  start: map<string, CacheEntry>, made: set<GalleryImage>)
    requires ImageIds(imgs) == ids && IdsOf(flat) == ids && multiset(images) == multiset(flat)
    requires forall k :: 0 <= k < |flat| ==> Depicts(flat[k], imgs[k])
    requires forall k :: FirstAt(ids, k) && !Hit(start, imgs[k], false) ==> flat[k] in made && BuiltFrom(flat[k], imgs[k])
    ensures forall k, j :: 0 <= k < |images| && 0 <= j < |imgs| && images[k].id == imgs[j].id && multiset(ids)[images[k].id] == 1 ==>
              && Depicts(images[k], imgs[j])
              && (!Hit(start, imgs[j], false) ==> images[k] in made && BuiltFrom(images[k], imgs[j]))
  {
    forall k, j | 0 <= k < |images| && 0 <= j < |imgs| && images[k].id == imgs[j].id && multiset(ids)[images[k].id] == 1
      ensures && Depicts(images[k], imgs[j])
              && (!Hit(start, imgs[j], false) ==> images[k] in made && BuiltFrom(images[k], imgs[j]))
    {
      ShownAt(ids, flat, images, k, j);
      OnceFirstLast(ids, j);
    }
  }

  /** Every object shown shows the url and model of one of the images. */
  lemma ShownDepict(imgs: seq<ImageRecord>, flat: seq<GalleryImage>, images: seq<GalleryImage>)
    requires |imgs| == |flat| && multiset(images) == multiset(flat)
    requires forall k :: 0 <= k < |flat| ==> Depicts(flat[k], imgs[k])
    ensures forall k :: 0 <= k < |images| ==> DepictsSome(images[k], imgs)
  {
    forall k | 0 <= k < |images| ensures DepictsSome(images[k], imgs) {
      assert images[k] in multiset(flat);
      var i :| 0 <= i < |flat| && flat[i] == images[k];
      assert Depicts(images[k], imgs[i]);
    }
  }

  /**
    After sorting and eviction, an object shown under an id that occurs once is the one
    left cached under that id.
  */
  lemma ShownAreCached(ids: seq<string>, flat: seq<GalleryImage>, images: seq<GalleryImage>,
                       cached: map<string, CacheEntry>, kept: map<string, CacheEntry>)
    requires IdsOf(flat) == ids && multiset(images) == multiset(flat)
    requires forall k :: LastAt(ids, k) ==> flat[k].id in cached && cached[flat[k].id].obj == flat[k]
    requires kept == map id | id in cached && id in Selection.Elements(ids) :: cached[id]
    ensures forall k :: 0 <= k < |images| && multiset(ids)[images[k].id] == 1 ==>
              images[k].id in kept && kept[images[k].id].obj == images[k]
  {
    forall k | 0 <= k < |images| && multiset(ids)[images[k].id] == 1
      ensures images[k].id in kept && kept[images[k].id].obj == images[k]
    {
      assert images[k] in multiset(flat);
      var j :| 0 <= j < |flat| && flat[j] == images[k];
      assert ids[j] == flat[j].id;
      OnceFirstLast(ids, j);
    }
  }

  /** An image whose id occurs once and that the cache held under its signature is shown with its old object. */
  lemma ReusedAreShown(ids: seq<string>, imgs: seq<ImageRecord>, flat: seq<GalleryImage>, images: seq<GalleryImage>,
                       start: map<string, CacheEntry>)
    requires ImageIds(imgs) == ids && IdsOf(flat) == ids && multiset(images) == multiset(flat)
    requires forall k :: FirstAt(ids, k) && Hit(start, imgs[k], false) ==> flat[k] == start[imgs[k].id].obj
    ensures forall j :: 0 <= j < |imgs| && multiset(ids)[imgs[j].id] == 1 && Hit(start, imgs[j], false) ==>
              start[imgs[j].id].obj in images
  {
    forall j | 0 <= j < |imgs| && multiset(ids)[imgs[j].id] == 1 && Hit(start, imgs[j], false)
      ensures start[imgs[j].id].obj in images
    {
      assert ids[j] == imgs[j].id;
      OnceFirstLast(ids, j);
      assert flat[j] in multiset(images);
    }
  }

  /** The cache of image objects and the bookkeeping beside it. */
  class ImageCache {
    /** `imageCache`: image id to cached object and signature. */
    var entries: map<string, CacheEntry>
    /** `currentImageIds`: the ids met while building the current list. */
    var currentIds: set<string>
    /** `previousGenerationIdsRef`: the generation ids of the last generations seen. */
    var previousGenIds: set<string>

    /** Every entry is filed under its object's id, with the signature of that object. */
    ghost predicate Valid()
      reads this
    {
      forall id :: id in entries ==>
        var e := entries[id];
        e.obj.id == id && e.signature == Signature(e.obj.r2Url, e.obj.modelName, e.obj.isPlaceholder)
    }

    constructor ()
      ensures Valid()
      ensures entries == map[] && currentIds == {} && previousGenIds == {}
    {
      entries, currentIds, previousGenIds := map[], {}, {};
    }

    /**
      `getCachedImage`: the id is recorded as current; while the signature still matches
      the cached object is handed out again, whatever else about the image has changed;
      otherwise a new object is built and cached.
    */
    method GetCachedImage(img: ImageRecord, generationId: string, prompt: string, aspectRatio: string, isPlaceholder: bool)
      returns (obj: GalleryImage)
      requires Valid()
      modifies this`entries, this`currentIds
      ensures Valid()
      ensures currentIds == old(currentIds) + {img.id}
      ensures obj.id == img.id && obj.isPlaceholder == isPlaceholder
      ensures obj.r2Url + "-" + obj.modelName == img.r2Url + "-" + img.modelName
      ensures img.id in entries && entries[img.id].obj == obj
      ensures LookupStep(old(entries), entries, img, isPlaceholder, obj)
      ensures Hit(old(entries), img, isPlaceholder) ==> obj == old(entries)[img.id].obj && entries == old(entries)
      ensures !Hit(old(entries), img, isPlaceholder) ==>
                && fresh(obj)
                && obj.r2Url == img.r2Url && obj.modelName == img.modelName
                && obj.width == img.width && obj.height == img.height
                && obj.generationId == generationId && obj.prompt == prompt && obj.aspectRatio == aspectRatio
                && entries == old(entries)[img.id := CacheEntry(obj, Signature(img.r2Url, img.modelName, isPlaceholder))]
    {
      currentIds := currentIds + {img.id};
      var signature := Signature(img.r2Url, img.modelName, isPlaceholder);
      if img.id in entries && entries[img.id].signature == signature {
        obj := entries[img.id].obj;
        SignatureEqualIff(obj.r2Url, obj.modelName, obj.isPlaceholder, img.r2Url, img.modelName, isPlaceholder);
        return;
      }
      obj := new GalleryImage(img, generationId, prompt, aspectRatio, isPlaceholder);
      entries := entries[img.id := CacheEntry(obj, signature)];
    }

    /**
      The `flatMap` over the generations: one cached object per image, each under its
      generation's aspect ratio (`'1:1'` when empty), never a placeholder, and showing
      its image's url and model; each id met is recorded as current. The last object
      under each id is the one left in the cache; an image met for the first time gets
      the object it already had when the cache held it under its signature, and otherwise
      a new object, one of `made`, built from it.
    */
    method Flatten(gens: seq<Generation>) returns (flat: seq<GalleryImage>, ghost made: set<GalleryImage>)
      requires Valid() && currentIds == {}
      modifies this`entries, this`currentIds
      ensures Valid()
      ensures IdsOf(flat) == FlatIds(gens) && |flat| == |FlatImages(gens)|
      ensures currentIds == Selection.Elements(FlatIds(gens)) && currentIds <= entries.Keys
      ensures forall k :: 0 <= k < |flat| ==> !flat[k].isPlaceholder
      ensures forall k :: 0 <= k < |flat| ==> Depicts(flat[k], FlatImages(gens)[k])
      ensures forall k :: LastAt(FlatIds(gens), k) ==> flat[k].id in entries && entries[flat[k].id].obj == flat[k]
      ensures forall k :: FirstAt(FlatIds(gens), k) && Hit(old(entries), FlatImages(gens)[k], false) ==>
                flat[k] == old(entries)[FlatImages(gens)[k].id].obj
      ensures fresh(made)
      ensures forall k :: FirstAt(FlatIds(gens), k) && !Hit(old(entries), FlatImages(gens)[k], false) ==>
                flat[k] in made && BuiltFrom(flat[k], FlatImages(gens)[k])
    {
      flat, made := [], {};
      ghost var start := entries;
      ghost var seen: seq<ImageRecord> := [];
      var g := 0;
      while g < |gens|
        invariant 0 <= g <= |gens|
        invariant Valid() && Tracks(entries, currentIds, start, seen, flat, made)
        invariant seen == FlatImages(gens[..g])
        invariant fresh(made)
      {
        flat, made := FlattenGeneration(gens[g], flat, start, seen, made);
        seen := seen + gens[g].images;
        FlatImagesStep(gens, g);
        g := g + 1;
      }
      assert gens[..g] == gens;
      TracksFlatImages(entries, currentIds, start, gens, flat, made);
    }

    /** The inner `flatMap` step: the cached objects of one generation's images, appended. */
    method FlattenGeneration(gen: Generation, flat: seq<GalleryImage>, ghost start: map<string, CacheEntry>,
                             ghost seen: seq<ImageRecord>, ghost made0: set<GalleryImage>)
      returns (grown: seq<GalleryImage>, ghost made: set<GalleryImage>)
      requires Valid() && Tracks(entries, currentIds, start, seen, flat, made0)
      modifies this`entries, this`currentIds
      ensures Valid() && Tracks(entries, currentIds, start, seen + gen.images, grown, made)
      ensures made0 <= made && fresh(made - made0)
    {
      var ratio := if gen.aspectRatio == "" then "1:1" else gen.aspectRatio;
      grown, made := flat, made0;
      ghost var met := seen;
      var i := 0;
      while i < |gen.images|
        invariant 0 <= i <= |gen.images|
        invariant met == seen + gen.images[..i]
        invariant Valid() && Tracks(entries, currentIds, start, met, grown, made)
        invariant made0 <= made && fresh(made - made0)
      {
        grown, made := AppendLookup(gen.images[i], gen.id, gen.prompt, ratio, grown, start, met, made);
        met := met + [gen.images[i]];
        assert gen.images[..i + 1] == gen.images[..i] + [gen.images[i]];
        i := i + 1;
      }
      assert gen.images[..i] == gen.images;
    }

    /** One image of the inner `flatMap`: its cached object is looked up and appended. */
    method AppendLookup(img: ImageRecord, generationId: string, prompt: string, aspectRatio: string,
                        flat: seq<GalleryImage>, ghost start: map<string, CacheEntry>, ghost seen: seq<ImageRecord>,
                        ghost made0: set<GalleryImage>)
      returns (grown: seq<GalleryImage>, ghost made: set<GalleryImage>)
      requires Valid() && Tracks(entries, currentIds, start, seen, flat, made0)
      modifies this`entries, this`currentIds
      ensures Valid() && Tracks(entries, currentIds, start, seen + [img], grown, made)
      ensures made0 <= made && fresh(made - made0)
    {
      ghost var e0, c0 := entries, currentIds;
      var obj := GetCachedImage(img, generationId, prompt, aspectRatio, false);
      made := if Hit(e0, img, false) then made0 else made0 + {obj};
      TracksStep(e0, c0, entries, currentIds, start, seen, flat, made0, made, img, obj);
      grown := flat + [obj];
    }

    /** The clean-up loop: every entry whose id is not current is deleted, the others stay. */
    method Evict()
      requires Valid()
      modifies this`entries
      ensures Valid()
      ensures entries == map id | id in old(entries) && id in currentIds :: old(entries)[id]
    {
      var remaining := entries.Keys;
      ghost var before := entries;
      while remaining != {}
        invariant remaining <= before.Keys
        invariant forall id :: id in entries <==> id in before && (id in remaining || id in currentIds)
        invariant forall id :: id in entries ==> entries[id] == before[id]
        decreases remaining
      {
        var id :| id in remaining;
        if id !in currentIds {
          entries := entries - {id};
        }
        remaining := remaining - {id};
      }
    }

    /**
      `realImages`: the image objects of every generation's images, sorted, with cache
      entries of images no longer shown evicted. Afterwards the cache holds exactly the
      ids shown, and the list holds each shown id as often as the generations do.
    */
    method Recompute(gens: seq<Generation>) returns (images: seq<GalleryImage>)
      requires Valid()
      modifies this`entries, this`currentIds
      ensures Valid()
      ensures currentIds == Selection.Elements(FlatIds(gens))
      ensures entries.Keys == currentIds
      ensures |images| == |FlatIds(gens)|
      ensures multiset(IdsOf(images)) == multiset(FlatIds(gens))
      ensures forall k :: 0 <= k < |images| ==> !images[k].isPlaceholder
      ensures AdjacentSorted(images, gens)
      ensures forall k :: 0 <= k < |images| && multiset(FlatIds(gens))[images[k].id] == 1 ==>
                entries[images[k].id].obj == images[k]
      ensures forall j :: 0 <= j < |FlatImages(gens)| && multiset(FlatIds(gens))[FlatImages(gens)[j].id] == 1 &&
                          Hit(old(entries), FlatImages(gens)[j], false) ==>
                old(entries)[FlatImages(gens)[j].id].obj in images
      ensures forall k :: 0 <= k < |images| ==> DepictsSome(images[k], FlatImages(gens))
      ensures forall k, j :: 0 <= k < |images| && 0 <= j < |FlatImages(gens)| && images[k].id == FlatImages(gens)[j].id &&
                             multiset(FlatIds(gens))[images[k].id] == 1 ==>
                && Depicts(images[k], FlatImages(gens)[j])
                && (!Hit(old(entries), FlatImages(gens)[j], false) ==> fresh(images[k]) && BuiltFrom(images[k], FlatImages(gens)[j]))
    {
      currentIds := {};
      var flat;
      ghost var made;
      flat, made := Flatten(gens);
      ghost var cached := entries;
      images := SortImages(flat, gens);
      forall k | 0 <= k < |images| ensures !images[k].isPlaceholder {
        assert images[k] in multiset(flat);
      }
      Evict();
      ShownAreCached(FlatIds(gens), flat, images, cached, entries);
      ReusedAreShown(FlatIds(gens), FlatImages(gens), flat, images, old(entries));
      ShownDepict(FlatImages(gens), flat, images);
      ShownOnce(FlatImages(gens), FlatIds(gens), flat, images, old(entries), made);
    }

    /**
      The effect on `generations`: the cache is emptied when the previous and the current
      generations are both non-empty and share no id (the signed-in user changed);
      the current generation ids are remembered either way.
    */
    method SyncGenerationIds(gens: seq<Generation>)
      requires Valid()
      modifies this
      ensures Valid()
      ensures previousGenIds == GenerationIds(gens)
      ensures old(previousGenIds) != {} && gens != [] && old(previousGenIds) * GenerationIds(gens) == {} ==>
                entries == map[] && currentIds == {}
      ensures old(previousGenIds) == {} || gens == [] || old(previousGenIds) * GenerationIds(gens) != {} ==>
                entries == old(entries) && currentIds == old(currentIds)
    {
      var current := GenerationIds(gens);
      if gens != [] {
        assert gens[0].id in current;
      }
      if |previousGenIds| > 0 && |current| > 0 {
        var overlap := exists id :: id in current && id in previousGenIds;
        assert overlap <==> previousGenIds * current != {} by {
          if previousGenIds * current != {} {
            var id :| id in previousGenIds * current;
          }
          if overlap {
            var id :| id in current && id in previousGenIds;
            assert id in previousGenIds * current;
          }
        }
        if !overlap {
          entries := map[];
          currentIds := {};
        }
      }
      previousGenIds := current;
    }
  }
}
