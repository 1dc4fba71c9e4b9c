/** Sizes of finite sets and maps. */
module Counting {
  lemma SubsetSize<T>(part: set<T>, whole: set<T>)
    requires part <= whole
    ensures |part| <= |whole|
  {
    assert whole == part + (whole - part);
  }

  lemma SubmapSize<K, V, W>(part: map<K, V>, whole: map<K, W>)
    requires part.Keys <= whole.Keys
    ensures |part| <= |whole|
  {
    assert |part| == |part.Keys| && |whole| == |whole.Keys|;
    SubsetSize(part.Keys, whole.Keys);
  }

  /** A subset of the same size leaves nothing out. */
  lemma FullSubset<T>(part: set<T>, whole: set<T>)
    requires part <= whole && |part| == |whole|
    ensures part == whole
  {
    assert whole == part + (whole - part);
    assert |whole| == |part| + |whole - part|;
  }

  lemma InsertSize<K, V>(m: map<K, V>, key: K, value: V)
    ensures |m[key := value]| <= |m| + 1
  {
    assert m[key := value].Keys == m.Keys + {key};
  }
}
