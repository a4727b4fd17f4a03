/** Sizes of finite sets. */
module Sets {
  lemma FewerElements<T>(some: set<T>, all: set<T>)
    requires some <= all
    ensures |some| <= |all|
  {
    assert all == some + (all - some);
  }
}
