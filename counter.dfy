/**
 * A Python `dict` used as a counter: `d[k] = d.get(k, 0) + w`. Python dicts remember
 * insertion order, and the source's ties are broken by that order, so the model keeps
 * the keys in first-insertion order beside the map of counts.
 */
module Counter {

  datatype Counter = Counter(order: seq<string>, count: map<string, int>) {

    /** The keys are listed once each, and exactly the keys of the map are listed. */
    ghost predicate Valid() {
      (forall i, j :: 0 <= i < j < |order| ==> order[i] != order[j])
      && (forall k :: k in count <==> k in order)
    }

    /** `d.get(k, 0)`. */
    function Get(k: string): int {
      if k in count then count[k] else 0
    }

    /**
     * `d[k] = d.get(k, 0) + w`: only `k`'s count moves, by `w`, and a new key goes to the
     * end of the insertion order.
     */
    function Add(k: string, w: int): (r: Counter)
      ensures Valid() ==> r.Valid()
      ensures forall k' :: r.Get(k') == Get(k') + (if k' == k then w else 0)
      ensures r.order == if k in count then order else order + [k]
    {
      if k in count then Counter(order, count[k := count[k] + w])
      else Counter(order + [k], count[k := w])
    }

    /** `d.items()`: the (key, count) pairs in insertion order. */
    function Items(): (r: seq<(string, int)>)
      requires Valid()
      ensures |r| == |order|
      ensures forall i :: 0 <= i < |r| ==> r[i] == (order[i], Get(order[i]))
    {
      seq(|order|, i requires 0 <= i < |order| => (order[i], count[order[i]]))
    }
  }

  function Empty(): (c: Counter)
    ensures c.Valid() && c.order == []
  {
    Counter([], map[])
  }

  /** The first components of a list of pairs: `[k for k, _ in items]`. */
  function Keys(items: seq<(string, int)>): (r: seq<string>)
    ensures |r| == |items| && forall i :: 0 <= i < |r| ==> r[i] == items[i].0
  {
    seq(|items|, i requires 0 <= i < |items| => items[i].0)
  }

  /** The key of a listed pair is among the keys. */
  lemma KeyListed(ps: seq<(string, int)>, k: int)
    ensures 0 <= k < |ps| ==> ps[k].0 in Keys(ps)
  {
    if 0 <= k < |ps| {
      assert Keys(ps)[k] == ps[k].0;
    }
  }

  /** `d[k] = d.get(k, 0) + 1` for every item of a list, in list order: each key gains its multiplicity. */
  function CountAll(c: Counter, items: seq<string>): (r: Counter)
    ensures c.Valid() ==> r.Valid()
  {
    if items == [] then c
    else CountAll(c, items[..|items| - 1]).Add(items[|items| - 1], 1)
  }

  lemma {:induction false} CountAllCounts(c: Counter, items: seq<string>)
    ensures forall t :: CountAll(c, items).Get(t) == c.Get(t) + multiset(items)[t]
    ensures forall t :: t in CountAll(c, items).count <==> t in c.count || t in items
  {
    if items != [] {
      var init, last := items[..|items| - 1], items[|items| - 1];
      assert items == init + [last];
      CountAllCounts(c, init);
    }
  }
}
