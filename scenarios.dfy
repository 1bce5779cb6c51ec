/** The provider's usage scenarios, written as clients of the model's contracts. */
module Scenarios {
  import opened Wrappers
  import opened Text
  import opened Catalog
  import opened StoreContext

  const Shirt := Product(1, "Shirt", 10.0, "", "men", "", Rating(4.0, 1))
  const Bag := Product(2, "Bag", 20.0, "", "women", "", Rating(3.5, 2))

  /** Category "women" with the query "bag" keeps only the bag, whatever the case of the title. */
  lemma WomenBagFilter()
    ensures Filtered([Shirt, Bag], "women", "bag") == [Bag]
  {
  }

  /** The two-product catalog has the categories "men" then "women". */
  lemma ShirtBagCategories()
    ensures Categories([Shirt, Bag]) == ["men", "women"]
  {
    assert [Shirt][..0] == [];
    assert Categories([Shirt]) == ["men"];
    assert [Shirt, Bag][..1] == [Shirt];
  }

  /** Empty cache, the request succeeds: two products, loading over, no error, cache filled. */
  method CacheMissFetchSucceeds()
  {
    var cache := new ProductCache(Absent, true);
    var store := new Store();
    var fetched := store.RunLoadEffect(cache, Fetched([Shirt, Bag]));
    assert fetched;
    assert |store.products| == 2 && !store.loading && store.error == None;
    assert cache.Hit() == Some([Shirt, Bag]);
    ShirtBagCategories();
    assert store.Value().categories == ["men", "women"];
    store.SetSelectedCategory("women");
    store.SetSearchQuery("bag");
    WomenBagFilter();
    assert store.Value().filtered == [Bag];
  }

  /** Empty cache, the request fails: no products, loading over, the failure message set. */
  method CacheMissFetchFails()
  {
    var cache := new ProductCache(EmptyString, true);
    var store := new Store();
    var fetched := store.RunLoadEffect(cache, FetchRejected);
    assert fetched;
    assert store.products == [] && !store.loading && store.error == Some(LoadFailedMessage);
  }

  /** The data arrives but the cache refuses the write: products set and the error set too. */
  method CacheWriteThrows()
  {
    var cache := new ProductCache(Absent, false);
    var store := new Store();
    var fetched := store.RunLoadEffect(cache, Fetched([Shirt, Bag]));
    assert store.products == [Shirt, Bag] && store.error == Some(LoadFailedMessage) && !store.loading;
    assert cache.Hit() == None;
  }

  /** A cached one-item list is used at once; the request's outcome is never consulted. */
  method CacheHit()
  {
    var cache := new ProductCache(Serialized([Shirt]), true);
    var store := new Store();
    var fetched := store.RunLoadEffect(cache, FetchRejected);
    assert !fetched;
    assert |store.products| == 1 && !store.loading && store.error == None;
  }

  /** Reading the store with no provider fails with the configuration error. */
  method NoProvider()
  {
    var r := UseStore(None);
    assert r == Failure(OutsideProviderMessage);
  }
}
