/**
  The membership toggle shared, word for word, by the style, aspect-ratio and model
  selectors: a selected id is filtered out, an unselected id is appended.
*/
module Selection {

  /** `sel.filter((y) => y !== x)`. */
  function RemoveAll<T(==)>(sel: seq<T>, x: T): (r: seq<T>)
    ensures x !in r
    ensures multiset(r) == multiset(sel)[x := 0]
    ensures |r| <= |sel|
  {
    if |sel| == 0 then []
    else
      assert sel == [sel[0]] + sel[1..];
      if sel[0] == x then RemoveAll(sel[1..], x)
      else [sel[0]] + RemoveAll(sel[1..], x)
  }

  /** `handleToggle(x)`: `sel.includes(x) ? sel.filter((y) => y !== x) : [...sel, x]`. */
  function Toggle<T(==)>(sel: seq<T>, x: T): (r: seq<T>)
    ensures x in r <==> x !in sel
    ensures forall y :: y in sel && y != x ==> y in r
    ensures forall i :: 0 <= i < |r| && r[i] != x ==> r[i] in sel
  {
    if x in sel then
      var r := RemoveAll(sel, x);
      assert forall y :: y in sel && y != x ==> y in r by {
        forall y | y in sel && y != x ensures y in r {
          assert multiset(r)[y] == multiset(sel)[y];
        }
      }
      assert forall i :: 0 <= i < |r| ==> r[i] in sel by {
        forall i | 0 <= i < |r| ensures r[i] in sel {
          assert r[i] in multiset(r);
        }
      }
      r
    else
      sel + [x]
  }

  /** The values of a sequence, as a set. */
  function Elements<T>(s: seq<T>): set<T> {
    set x | x in s
  }

  lemma ElementsOfOne<T>(x: T)
    ensures Elements([x]) == {x}
  {
    assert x in [x];
  }

  /** No value occurs twice. */
  predicate NoDuplicates<T(==)>(s: seq<T>) {
    forall i, j :: 0 <= i < j < |s| ==> s[i] != s[j]
  }

  /** Removing a value that is absent changes nothing. */
  lemma {:induction false} RemoveAbsent<T>(sel: seq<T>, x: T)
    requires x !in sel
    ensures RemoveAll(sel, x) == sel
  {
    if |sel| > 0 {
      RemoveAbsent(sel[1..], x);
      assert [sel[0]] + sel[1..] == sel;
    }
  }

  /**
    Toggling a selected value removes every occurrence of it and keeps everything else
    with its multiplicity; in a duplicate-free selection it deletes the value at its
    own position, so the others keep their order.
  */
  lemma {:induction false} ToggleSelected<T>(sel: seq<T>, x: T, k: nat)
    requires k < |sel| && sel[k] == x
    ensures x !in Toggle(sel, x)
    ensures forall y :: y != x ==> multiset(Toggle(sel, x))[y] == multiset(sel)[y]
    ensures NoDuplicates(sel) ==> Toggle(sel, x) == sel[..k] + sel[k + 1..]
  {
    assert x in sel;
    if NoDuplicates(sel) {
      RemoveAt(sel, k);
    }
  }

  /** The filter distributes over concatenation. */
  lemma {:induction false} RemoveConcat<T>(a: seq<T>, b: seq<T>, x: T)
    ensures RemoveAll(a + b, x) == RemoveAll(a, x) + RemoveAll(b, x)
  {
    if |a| == 0 {
      assert a + b == b;
    } else {
      assert (a + b)[0] == a[0];
      assert (a + b)[1..] == a[1..] + b;
      RemoveConcat(a[1..], b, x);
    }
  }

  /** In a duplicate-free sequence, the value at `k` occurs neither before nor after `k`. */
  lemma AbsentAround<T>(sel: seq<T>, k: nat)
    requires k < |sel| && NoDuplicates(sel)
    ensures sel[k] !in sel[..k] && sel[k] !in sel[k + 1..]
  {
    var front, back := sel[..k], sel[k + 1..];
    forall i | 0 <= i < |front| ensures front[i] != sel[k] {
      assert front[i] == sel[i];
    }
    forall i | 0 <= i < |back| ensures back[i] != sel[k] {
      assert back[i] == sel[k + 1 + i];
    }
  }

  /** Filtering out a value that occurs once, in the middle, closes the gap. */
  lemma RemoveMiddle<T>(front: seq<T>, x: T, back: seq<T>)
    requires x !in front && x !in back
    ensures RemoveAll(front + [x] + back, x) == front + back
  {
    var tail := [x] + back;
    assert RemoveAll(tail, x) == back by {
      assert tail[0] == x && tail[1..] == back;
      RemoveAbsent(back, x);
    }
    assert front + [x] + back == front + tail;
    RemoveConcat(front, tail, x);
    RemoveAbsent(front, x);
  }

  /** In a duplicate-free sequence, removing the value at `k` is deleting position `k`. */
  lemma RemoveAt<T>(sel: seq<T>, k: nat)
    requires k < |sel| && NoDuplicates(sel)
    ensures RemoveAll(sel, sel[k]) == sel[..k] + sel[k + 1..]
  {
    AbsentAround(sel, k);
    assert sel == sel[..k] + [sel[k]] + sel[k + 1..];
    RemoveMiddle(sel[..k], sel[k], sel[k + 1..]);
  }

  /** Deleting a position keeps a sequence duplicate-free. */
  lemma DeleteKeepsNoDuplicates<T>(sel: seq<T>, k: nat)
    requires k < |sel| && NoDuplicates(sel)
    ensures NoDuplicates(sel[..k] + sel[k + 1..])
  {
    var r := sel[..k] + sel[k + 1..];
    forall i, j | 0 <= i < j < |r| ensures r[i] != r[j] {
      var i' := if i < k then i else i + 1;
      var j' := if j < k then j else j + 1;
      assert r[i] == sel[i'] && r[j] == sel[j'];
    }
  }

  /** Appending an absent value keeps a sequence duplicate-free. */
  lemma AppendKeepsNoDuplicates<T>(sel: seq<T>, x: T)
    requires NoDuplicates(sel) && x !in sel
    ensures NoDuplicates(sel + [x])
  {
    var r := sel + [x];
    forall i, j | 0 <= i < j < |r| ensures r[i] != r[j] {
      assert r[i] == sel[i];
      if j < |sel| {
        assert r[j] == sel[j];
      }
    }
  }

  /** Toggling an unselected value appends it at the end. */
  lemma ToggleUnselected<T>(sel: seq<T>, x: T)
    requires x !in sel
    ensures Toggle(sel, x) == sel + [x]
    ensures |Toggle(sel, x)| == |sel| + 1 && Toggle(sel, x)[|sel|] == x
  {
  }

  /** Toggling an unselected value twice gives the original selection back. */
  lemma {:induction false} ToggleTwice<T>(sel: seq<T>, x: T)
    requires x !in sel
    ensures Toggle(Toggle(sel, x), x) == sel
  {
    var t := sel + [x];
    assert x in t;
    RemoveAbsent(sel, x);
    RemoveAppended(sel, x);
  }

  lemma {:induction false} RemoveAppended<T>(sel: seq<T>, x: T)
    ensures RemoveAll(sel + [x], x) == RemoveAll(sel, x)
  {
    if |sel| == 0 {
      assert RemoveAll([x], x) == RemoveAll([x][1..], x);
    } else {
      assert (sel + [x])[1..] == sel[1..] + [x];
      RemoveAppended(sel[1..], x);
    }
  }

  /** Toggling keeps a selection free of duplicates. */
  lemma ToggleKeepsNoDuplicates<T>(sel: seq<T>, x: T)
    requires NoDuplicates(sel)
    ensures NoDuplicates(Toggle(sel, x))
  {
    if x in sel {
      var k :| 0 <= k < |sel| && sel[k] == x;
      RemoveAt(sel, k);
      DeleteKeepsNoDuplicates(sel, k);
    } else {
      AppendKeepsNoDuplicates(sel, x);
    }
  }
}
