/** Sizes of finite sets. */
module Sets {
  /** A subset is not larger; one of the same size is the whole set. */
  lemma SubsetSize<T>(a: set<T>, b: set<T>)
    requires a <= b
    ensures |a| <= |b| && (|a| == |b| ==> a == b)
  {
    assert |b| == |a| + |b - a|;
  }
}
