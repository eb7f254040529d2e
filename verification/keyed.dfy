/**
  Lists of records addressed by a string id, as the technologies and social-links
  editors keep them: update-by-id maps a merge over the matching elements, and
  delete-by-id filters them out. `key` reads an element's id; `patch` merges an
  update into an element.
 */
module Keyed {
  import Lists

  /** `xs.map(x => x.id === id ? { ...x, ...updates } : x)` */
  function Revise<T, P>(xs: seq<T>, id: string, key: T -> string, patch: (T, P) -> T, p: P): (r: seq<T>)
    ensures |r| == |xs|
    ensures forall i :: 0 <= i < |xs| && key(xs[i]) == id ==> r[i] == patch(xs[i], p)
    ensures forall i :: 0 <= i < |xs| && key(xs[i]) != id ==> r[i] == xs[i]
  {
    Lists.Map(xs, (x: T) => if key(x) == id then patch(x, p) else x)
  }

  /** `xs.filter(x => x.id !== id)` */
  function Without<T>(xs: seq<T>, id: string, key: T -> string): (r: seq<T>)
    ensures forall i :: 0 <= i < |r| ==> key(r[i]) != id && r[i] in xs
    ensures forall i :: 0 <= i < |xs| && key(xs[i]) != id ==> xs[i] in r
    ensures |r| == |xs| <==> forall i :: 0 <= i < |xs| ==> key(xs[i]) != id
  {
    Lists.Filter(xs, (x: T) => key(x) != id)
  }

  /** Deleting keeps the survivors in their original order: it distributes over concatenation. */
  lemma WithoutKeepsOrder<T>(a: seq<T>, b: seq<T>, id: string, key: T -> string)
    ensures Without(a + b, id, key) == Without(a, id, key) + Without(b, id, key)
  {
    Lists.FilterAppend(a, b, (x: T) => key(x) != id);
  }

  /** Deleting an id no element has changes nothing. */
  lemma {:induction false} WithoutNoMatch<T>(xs: seq<T>, id: string, key: T -> string)
    requires forall i :: 0 <= i < |xs| ==> key(xs[i]) != id
    ensures Without(xs, id, key) == xs
    decreases |xs|
  {
    if |xs| > 0 {
      WithoutNoMatch(xs[1..], id, key);
      WithoutKeepsOrder([xs[0]], xs[1..], id, key);
      assert [xs[0]] + xs[1..] == xs;
      assert Without([xs[0]], id, key) == [xs[0]];
    }
  }

  /** Deleting the id of an element just appended, and of no other, gives back the list before it. */
  lemma WithoutLast<T>(xs: seq<T>, x: T, id: string, key: T -> string)
    requires key(x) == id
    requires forall i :: 0 <= i < |xs| ==> key(xs[i]) != id
    ensures Without(xs + [x], id, key) == xs
  {
    WithoutKeepsOrder(xs, [x], id, key);
    assert Without([x], id, key) == [];
    WithoutNoMatch(xs, id, key);
  }

  /**
    Updating elements and then deleting them by the same id is just deleting, as
    long as the update keeps them under that id.
   */
  lemma {:induction false} WithoutAfterRevise<T, P>(xs: seq<T>, id: string, key: T -> string, patch: (T, P) -> T, p: P)
    requires forall x :: key(x) == id ==> key(patch(x, p)) == id
    ensures Without(Revise(xs, id, key, patch, p), id, key) == Without(xs, id, key)
    decreases |xs|
  {
    if |xs| > 0 {
      var revised := Revise(xs, id, key, patch, p);
      WithoutAfterRevise(xs[1..], id, key, patch, p);
      assert revised == [revised[0]] + Revise(xs[1..], id, key, patch, p);
      assert xs == [xs[0]] + xs[1..];
      WithoutKeepsOrder([revised[0]], Revise(xs[1..], id, key, patch, p), id, key);
      WithoutKeepsOrder([xs[0]], xs[1..], id, key);
    }
  }
}
