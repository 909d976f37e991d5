/**
 * Queries and filters over the blob registry (cvGreaterBlob,
 * cvFilterByArea). The registry is a label -> blob map; here it is the
 * sequence of its entries in iteration order.
 */
module Registry {
  import opened BlobTypes

  /**
   * Entry k has the largest area of the registry and is the first entry,
   * in iteration order, with that area.
   */
  predicate IsFirstMax(es: seq<Entry>, k: int)
  {
    0 <= k < |es| &&
    (forall j | 0 <= j < |es| :: es[j].blob.area <= es[k].blob.area) &&
    (forall j | 0 <= j < k :: es[j].blob.area < es[k].blob.area)
  }

  /**
   * cvGreaterBlob: the label of the largest blob. The running maximum
   * starts at 0 and only a strictly larger area replaces it, so blobs of
   * area 0 are never chosen and a tie goes to the earliest blob.
   */
  method GreaterBlob(blobs: seq<Entry>) returns (lbl: Label)
    ensures (forall k | 0 <= k < |blobs| :: blobs[k].blob.area == 0) ==> lbl == 0
    ensures (exists k | 0 <= k < |blobs| :: blobs[k].blob.area > 0) ==>
      exists k | 0 <= k < |blobs| :: IsFirstMax(blobs, k) && lbl == blobs[k].blob.lbl
  {
    lbl := 0;
    var maxArea: nat := 0;
    ghost var best := -1;
    var i := 0;
    while i < |blobs|
      invariant 0 <= i <= |blobs|
      invariant best == -1 ==> maxArea == 0 && lbl == 0
      invariant best == -1 ==> forall j | 0 <= j < i :: blobs[j].blob.area == 0
      invariant best != -1 ==> 0 <= best < i && lbl == blobs[best].blob.lbl && maxArea == blobs[best].blob.area > 0
      invariant best != -1 ==> forall j | 0 <= j < i :: blobs[j].blob.area <= maxArea
      invariant best != -1 ==> forall j | 0 <= j < best :: blobs[j].blob.area < maxArea
    {
      var blob := blobs[i].blob;
      if blob.area > maxArea {
        lbl := blob.lbl;
        maxArea := blob.area;
        best := i;
      }
      i := i + 1;
    }
    if best != -1 {
      assert IsFirstMax(blobs, best);
    }
  }

  /** At most one entry is the first largest: cvGreaterBlob's answer is determined. */
  lemma FirstMaxUnique(es: seq<Entry>, k1: int, k2: int)
    requires IsFirstMax(es, k1) && IsFirstMax(es, k2)
    ensures k1 == k2
  {
    assert es[k1].blob.area == es[k2].blob.area;
  }

  /** A blob survives cvFilterByArea exactly when minArea <= area <= maxArea. */
  predicate InRange(area: nat, minArea: nat, maxArea: nat)
  {
    minArea <= area <= maxArea
  }

  /** The entries of `es` whose blob area is in range, in their original order. */
  function Kept(es: seq<Entry>, minArea: nat, maxArea: nat): seq<Entry>
    decreases |es|
  {
    if |es| == 0 then []
    else
      var last := es[|es| - 1];
      Kept(es[..|es| - 1], minArea, maxArea) +
        (if InRange(last.blob.area, minArea, maxArea) then [last] else [])
  }

  /** The registry, a map from labels to blob records, updated in place. */
  class Blobs {
    var entries: seq<Entry>

    /**
     * cvFilterByArea: erases, while iterating, every entry whose area lies
     * outside [minArea, maxArea]. The blob records themselves are untouched
     * (the erased ones are released, which is not modelled).
     */
    method FilterByArea(minArea: nat, maxArea: nat)
      modifies this
      ensures entries == Kept(old(entries), minArea, maxArea)
      ensures UniqueKeys(old(entries)) ==> UniqueKeys(entries)
    {
      ghost var orig := entries;
      ghost var kept: seq<Entry> := [];
      var i := 0;
      ghost var j := 0;
      while i < |entries|
        invariant 0 <= j <= |orig|
        invariant kept == Kept(orig[..j], minArea, maxArea)
        invariant entries == kept + orig[j..]
        invariant i == |kept|
        decreases |orig| - j
      {
        KeptSnoc(orig, j, minArea, maxArea);
        Split(kept, orig, j);
        var blob := entries[i].blob;
        if blob.area < minArea || blob.area > maxArea {
          entries := entries[..i] + entries[i + 1..];
        } else {
          i := i + 1;
          kept := kept + [orig[j]];
        }
        j := j + 1;
      }
      assert orig[..j] == orig;
      if UniqueKeys(orig) {
        KeptUniqueKeys(orig, minArea, maxArea);
      }
    }
  }

  /** Extending the prefix by one entry appends that entry to the kept ones if its area is in range. */
  lemma KeptSnoc(es: seq<Entry>, j: nat, minArea: nat, maxArea: nat)
    requires j < |es|
    ensures Kept(es[..j + 1], minArea, maxArea) ==
      Kept(es[..j], minArea, maxArea) + (if InRange(es[j].blob.area, minArea, maxArea) then [es[j]] else [])
  {
    assert es[..j + 1][..j] == es[..j];
  }

  /** The cursor's entry of `k + es[j..]` is es[j]; erasing it leaves `k + es[j + 1..]`. */
  lemma Split(k: seq<Entry>, es: seq<Entry>, j: nat)
    requires j < |es|
    ensures (k + es[j..])[|k|] == es[j]
    ensures (k + es[j..])[..|k|] + (k + es[j..])[|k| + 1..] == k + es[j + 1..]
    ensures k + es[j..] == (k + [es[j]]) + es[j + 1..]
  {
    var s := k + es[j..];
    assert s[..|k|] == k;
    assert s[|k| + 1..] == es[j + 1..];
  }

  /** An entry is kept exactly when it was in the registry and its area is in range. */
  lemma {:induction false} KeptMembers(es: seq<Entry>, minArea: nat, maxArea: nat, e: Entry)
    ensures e in Kept(es, minArea, maxArea) <==> e in es && InRange(e.blob.area, minArea, maxArea)
    decreases |es|
  {
    if |es| > 0 {
      var init := es[..|es| - 1];
      KeptMembers(init, minArea, maxArea, e);
      assert es == init + [es[|es| - 1]];
    }
  }

  /** Every entry left by the filter has its area in range. */
  lemma KeptInRange(es: seq<Entry>, minArea: nat, maxArea: nat)
    ensures forall e | e in Kept(es, minArea, maxArea) :: InRange(e.blob.area, minArea, maxArea)
  {
    forall e | e in Kept(es, minArea, maxArea)
      ensures InRange(e.blob.area, minArea, maxArea)
    {
      KeptMembers(es, minArea, maxArea, e);
    }
  }

  /** The filter keeps the registry a map: no key appears twice afterwards. */
  lemma {:induction false} KeptUniqueKeys(es: seq<Entry>, minArea: nat, maxArea: nat)
    requires UniqueKeys(es)
    ensures UniqueKeys(Kept(es, minArea, maxArea))
    decreases |es|
  {
    if |es| > 0 {
      var init := es[..|es| - 1];
      var last := es[|es| - 1];
      assert UniqueKeys(init);
      KeptUniqueKeys(init, minArea, maxArea);
      var k := Kept(init, minArea, maxArea);
      if InRange(last.blob.area, minArea, maxArea) {
        forall e | e in k ensures e.key != last.key {
          KeptMembers(init, minArea, maxArea, e);
          var idx :| 0 <= idx < |init| && init[idx] == e;
          assert es[idx] == e;
        }
      }
    }
  }

  /** Filtering twice with the same bounds removes nothing more. */
  lemma {:induction false} KeptIdempotent(es: seq<Entry>, minArea: nat, maxArea: nat)
    ensures Kept(Kept(es, minArea, maxArea), minArea, maxArea) == Kept(es, minArea, maxArea)
    decreases |es|
  {
    if |es| > 0 {
      var init := es[..|es| - 1];
      var last := es[|es| - 1];
      var k := Kept(init, minArea, maxArea);
      KeptIdempotent(init, minArea, maxArea);
      if InRange(last.blob.area, minArea, maxArea) {
        var kl := k + [last];
        assert Kept(es, minArea, maxArea) == kl;
        assert kl[..|kl| - 1] == k;
        assert Kept(kl, minArea, maxArea) == Kept(k, minArea, maxArea) + [last];
      } else {
        assert Kept(es, minArea, maxArea) == k + [] == k;
      }
    }
  }

  /** A registry holding one blob of area 9 keeps it for the range [5, 20] and is emptied by [10, 20]. */
  lemma FilterSingleBlob(e: Entry)
    requires e.blob.area == 9
    ensures Kept([e], 5, 20) == [e]
    ensures Kept([e], 10, 20) == []
  {
    assert [e][..0] == [];
  }
}
