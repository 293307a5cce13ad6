/** The nullable values of the editor: `null`/`undefined` is `None`. */
module Optional {
  datatype Option<+T> = None | Some(value: T)
}

/**
 * GeoJSON features as the editing layer sees them, and the two operations
 * of the immutable feature collection the controller relies on.
 *
 * A feature collection is the ordered sequence of its features; every
 * operation returns a new sequence, so an earlier snapshot is never changed.
 */
module GeoJson {
  import opened Optional

  /** A GeoJSON position: an array of numbers (longitude, latitude, ...). */
  type Position = seq<real>

  /** The string id that `uuid()` produces for a drawn feature. */
  type Id = string

  datatype GeometryType = Point | LineString | Polygon

  /**
   * A geometry with one flat coordinate sequence. Drawn points carry a
   * one-element sequence, as the drawing mode writes them.
   */
  datatype Geometry = Geometry(kind: GeometryType, coordinates: seq<Position>)

  datatype RenderType = RenderPoint | RenderLineString | RenderPolygon | RenderRectangle

  datatype GuideType = Tentative | EditHandle | CursorEditHandle

  /** The keys of a feature's property bag that the editing layer reads or writes. */
  datatype Properties = Properties(
    id: Option<Id>,
    renderType: Option<RenderType>,
    guideType: Option<GuideType>,
    featureIndex: Option<int>,
    positionIndexes: Option<seq<int>>)

  /** An object without any of those keys (what spreading `null` yields). */
  const NoProperties := Properties(None, None, None, None, None)

  datatype Feature = Feature(properties: Properties, geometry: Geometry)

  /** `features[i]` in JavaScript: `undefined` outside the array. */
  function FeatureAt(features: seq<Feature>, i: int): (r: Option<Feature>)
    ensures r.Some? <==> 0 <= i < |features|
    ensures r.Some? ==> r.value == features[i]
  {
    if 0 <= i < |features| then Some(features[i]) else None
  }

  /**
   * `deleteFeatures(indexes)` of the immutable collection: the features
   * whose positions are not among `indexes`, in their original order.
   */
  function RemoveIndexes<T>(features: seq<T>, indexes: seq<int>): (r: seq<T>)
    ensures |r| <= |features|
    decreases |features|
  {
    if |features| == 0 then []
    else
      var n := |features| - 1;
      RemoveIndexes(features[..n], indexes) + (if n in indexes then [] else [features[n]])
  }

  /** One unfolding of `RemoveIndexes`. */
  lemma RemoveIndexesLast<T>(features: seq<T>, indexes: seq<int>)
    requires |features| > 0
    ensures var n := |features| - 1;
      RemoveIndexes(features, indexes)
      == RemoveIndexes(features[..n], indexes) + (if n in indexes then [] else [features[n]])
  {
  }

  /**
   * Extending a sub-multiset of all but the last element of `extended` by
   * at most that last element gives a sub-multiset of `extended`.
   */
  lemma SubMultisetSnoc<T>(kept: seq<T>, keep: bool, result: seq<T>, extended: seq<T>)
    requires |extended| > 0
    requires multiset(kept) <= multiset(extended[..|extended| - 1])
    requires result == kept + (if keep then [extended[|extended| - 1]] else [])
    ensures multiset(result) <= multiset(extended)
  {
    var n := |extended| - 1;
    assert extended == extended[..n] + [extended[n]];
    assert multiset(extended) == multiset(extended[..n]) + multiset{extended[n]};
    if keep {
      assert multiset(result) == multiset(kept) + multiset{extended[n]};
    } else {
      assert result == kept;
    }
  }

  /** Deleting never adds a feature: the result's multiset is contained in the original's. */
  lemma {:induction false} RemoveIndexesSubMultiset<T>(features: seq<T>, indexes: seq<int>)
    ensures multiset(RemoveIndexes(features, indexes)) <= multiset(features)
    decreases |features|
  {
    if |features| > 0 {
      var n := |features| - 1;
      RemoveIndexesSubMultiset(features[..n], indexes);
      RemoveIndexesLast(features, indexes);
      SubMultisetSnoc(RemoveIndexes(features[..n], indexes), n !in indexes,
                      RemoveIndexes(features, indexes), features);
    }
  }

  /** Indexes that name no position of the collection delete nothing. */
  lemma {:induction false} RemoveIndexesOutOfRange<T>(features: seq<T>, indexes: seq<int>)
    requires forall k :: 0 <= k < |indexes| ==> indexes[k] < 0 || |features| <= indexes[k]
    ensures RemoveIndexes(features, indexes) == features
    decreases |features|
  {
    if |features| > 0 {
      var n := |features| - 1;
      var prefix := features[..n];
      forall k | 0 <= k < |indexes|
        ensures indexes[k] != n && (indexes[k] < 0 || |prefix| <= indexes[k])
      {
      }
      assert n !in indexes;
      RemoveIndexesOutOfRange(prefix, indexes);
      RemoveIndexesLast(features, indexes);
      assert prefix + [features[n]] == features;
    }
  }

  /** Deleting one valid index is splicing that one feature out. */
  lemma {:induction false} RemoveSingleIndex<T>(features: seq<T>, i: int)
    requires 0 <= i < |features|
    ensures RemoveIndexes(features, [i]) == features[..i] + features[i + 1..]
    ensures |RemoveIndexes(features, [i])| == |features| - 1
    decreases |features|
  {
    var n := |features| - 1;
    if i == n {
      RemoveIndexesOutOfRange(features[..n], [i]);
    } else {
      RemoveSingleIndex(features[..n], i);
      assert features[..n][..i] == features[..i];
      assert features[..n][i + 1..] + [features[n]] == features[i + 1..];
    }
  }
}
