/** The two list shapes the parsers share: `xs.map(parse).filter(x => x !== null)`,
    which keeps the rows a row parser accepts, and a forEach over sheets that
    writes `result[key] = value`, where a later sheet of the same key wins. */
module Filtering {
  import opened Types

  // ---------------------------------------------------------------- map, then filter out null

  /** The positions of xs whose parse (given the element and its position, as
      Array.prototype.map does) is not null, in increasing order. */
  function Kept<R, T>(xs: seq<R>, parse: (R, nat) -> Option<T>): (ix: seq<nat>)
    ensures forall k :: 0 <= k < |ix| ==> ix[k] < |xs| && parse(xs[ix[k]], ix[k]).Some?
    ensures forall k, l :: 0 <= k < l < |ix| ==> ix[k] < ix[l]
    ensures forall i :: 0 <= i < |xs| && parse(xs[i], i).Some? ==> i in ix
  {
    if xs == [] then []
    else
      var front := xs[..|xs| - 1];
      var ix := Kept(front, parse);
      assert forall i :: 0 <= i < |front| ==> front[i] == xs[i];
      if parse(xs[|xs| - 1], |xs| - 1).Some? then ix + [|xs| - 1] else ix
  }

  /** ys is what the map-and-filter yields: the parsed values at the kept
      positions, in the order of xs. */
  ghost predicate KeptValues<R, T>(xs: seq<R>, parse: (R, nat) -> Option<T>, ys: seq<T>)
  {
    var ix := Kept(xs, parse);
    |ys| == |ix| && forall k :: 0 <= k < |ys| ==> parse(xs[ix[k]], ix[k]) == Some(ys[k])
  }

  /** Something is kept exactly when some element parses. */
  lemma KeptNonEmpty<R, T>(xs: seq<R>, parse: (R, nat) -> Option<T>)
    ensures |Kept(xs, parse)| > 0 <==> exists i :: 0 <= i < |xs| && parse(xs[i], i).Some?
  {
    var ix := Kept(xs, parse);
    if |ix| > 0 {
      assert parse(xs[ix[0]], ix[0]).Some?;
    }
  }

  /** One more element extends the kept values by its own parse, if any. */
  lemma KeptValuesSnoc<R, T>(xs: seq<R>, parse: (R, nat) -> Option<T>, ys: seq<T>)
    requires xs != [] && KeptValues(xs[..|xs| - 1], parse, ys)
    ensures var last := parse(xs[|xs| - 1], |xs| - 1);
            KeptValues(xs, parse, if last.Some? then ys + [last.value] else ys)
  {
    var front := xs[..|xs| - 1];
    assert forall i :: 0 <= i < |front| ==> front[i] == xs[i];
  }

  // ---------------------------------------------------------------- later entries win

  /** The last position of xs whose entry is for key k. */
  ghost function LastFor<R, K(!new), V>(xs: seq<R>, entry: R -> Option<(K, V)>, k: K): (r: Option<nat>)
    ensures r.Some? ==> r.value < |xs| && entry(xs[r.value]).Some? && entry(xs[r.value]).value.0 == k
    ensures r.Some? ==> forall j :: r.value < j < |xs| ==> !(entry(xs[j]).Some? && entry(xs[j]).value.0 == k)
    ensures r.None? ==> forall j :: 0 <= j < |xs| ==> !(entry(xs[j]).Some? && entry(xs[j]).value.0 == k)
  {
    if xs == [] then None
    else
      var front := xs[..|xs| - 1];
      var e := entry(xs[|xs| - 1]);
      assert forall i :: 0 <= i < |front| ==> front[i] == xs[i];
      if e.Some? && e.value.0 == k then Some(|xs| - 1) else LastFor(front, entry, k)
  }

  /** r holds, for every key, the value of the last entry for that key, and no other key. */
  ghost predicate LastWins<R, K(!new), V>(xs: seq<R>, entry: R -> Option<(K, V)>, r: map<K, V>)
  {
    forall k :: (k in r <==> LastFor(xs, entry, k).Some?)
                && (k in r ==> r[k] == entry(xs[LastFor(xs, entry, k).value]).value.1)
  }

  /** One more element's entry, if any, overwrites its key. */
  lemma LastWinsSnoc<R, K(!new), V>(xs: seq<R>, entry: R -> Option<(K, V)>, r: map<K, V>)
    requires xs != [] && LastWins(xs[..|xs| - 1], entry, r)
    ensures var e := entry(xs[|xs| - 1]);
            LastWins(xs, entry, if e.Some? then r[e.value.0 := e.value.1] else r)
  {
    var front := xs[..|xs| - 1];
    assert forall i :: 0 <= i < |front| ==> front[i] == xs[i];
  }
}
