/**
 * The catalog state provider: its five state cells, the load effect that fills them from the
 * browser cache or from the catalog service, the filter setters, the value it hands to
 * consumers, and the `useStore` guard.
 */
module StoreContext {
  import opened Wrappers
  import opened Text
  import opened Catalog

  const LoadFailedMessage: string := "Failed to load products"
  const OutsideProviderMessage: string := "useStore must be used within a StoreProvider"

  /**
   * What `localStorage.getItem("products")` returns: no item, the empty string (falsy, so a
   * miss), or a serialized product list.
   */
  datatype CacheEntry = Absent | EmptyString | Serialized(products: seq<Product>)

  /** How the `fetch(...).then(res => res.json())` chain resolves: the decoded list, or a rejection. */
  datatype FetchOutcome = Fetched(data: seq<Product>) | FetchRejected

  /**
   * The browser cache under the key "products". `writable` is false when the browser refuses
   * writes, so that `setItem` throws.
   */
  class ProductCache {
    var entry: CacheEntry
    var writable: bool

    constructor (entry: CacheEntry, writable: bool)
      ensures this.entry == entry && this.writable == writable
    {
      this.entry := entry;
      this.writable := writable;
    }

    /** `if (cached)`: only a non-empty stored string is a hit. */
    function Hit(): (hit: Option<seq<Product>>)
      reads this
      ensures hit.Some? <==> entry.Serialized?
      ensures hit.Some? ==> hit.value == entry.products
    {
      match entry
      case Serialized(ps) => Some(ps)
      case _ => None
    }

    /**
     * `setItem("products", JSON.stringify(data))`. The serialized list is never the empty
     * string, so a write that succeeds always leaves a hit behind; a write that throws changes nothing.
     */
    method Write(data: seq<Product>) returns (ok: bool)
      modifies this
      ensures ok == old(writable) && writable == old(writable)
      ensures entry == if ok then Serialized(data) else old(entry)
      ensures ok ==> Hit() == Some(data)
    {
      ok := writable;
      if ok {
        entry := Serialized(data);
      }
    }
  }

  /** The object the provider passes to its consumers (setters aside: they are `Store`'s methods). */
  datatype ContextValue = ContextValue(
    products: seq<Product>,
    filtered: seq<Product>,
    categories: seq<string>,
    selectedCategory: string,
    searchQuery: string,
    loading: bool,
    error: Option<string>)

  /** The provider's state cells. */
  class Store {
    var products: seq<Product>
    var loading: bool
    var error: Option<string>
    var selectedCategory: string
    var searchQuery: string

    /** The `useState` initial values: no products, loading, no error, both filters off. */
    constructor ()
      ensures products == [] && loading && error == None
      ensures selectedCategory == "" && searchQuery == ""
    {
      products := [];
      loading := true;
      error := None;
      selectedCategory := "";
      searchQuery := "";
    }

    /**
     * First step of the load effect. On a hit the cached list becomes the products and loading
     * ends; on a miss (absent or empty string) nothing changes and a fetch is needed.
     */
    method InitFromCache(cache: ProductCache) returns (needsFetch: bool)
      modifies this
      ensures needsFetch <==> cache.Hit().None?
      ensures !needsFetch ==> products == cache.entry.products && !loading
      ensures needsFetch ==> products == old(products) && loading == old(loading)
      ensures error == old(error)
      ensures selectedCategory == old(selectedCategory) && searchQuery == old(searchQuery)
    {
      var hit := cache.Hit();
      needsFetch := hit.None?;
      if !needsFetch {
        products := hit.value;
        loading := false;
      }
    }

    /**
     * The second `.then`: store the data, then write it to the cache. `threw` reports that the
     * write threw, which sends control to the `catch` with the products already set.
     */
    method FetchSucceeded(data: seq<Product>, cache: ProductCache) returns (threw: bool)
      modifies this, cache
      ensures products == data
      ensures threw == !old(cache.writable) && cache.writable == old(cache.writable)
      ensures cache.entry == if threw then old(cache.entry) else Serialized(data)
      ensures loading == old(loading) && error == old(error)
      ensures selectedCategory == old(selectedCategory) && searchQuery == old(searchQuery)
    {
      products := data;
      var ok := cache.Write(data);
      threw := !ok;
    }

    /** The `catch`: record the failure message; nothing else changes. */
    method FetchFailed()
      modifies this
      ensures error == Some(LoadFailedMessage)
      ensures products == old(products) && loading == old(loading)
      ensures selectedCategory == old(selectedCategory) && searchQuery == old(searchQuery)
    {
      error := Some(LoadFailedMessage);
    }

    /** The `finally`: loading ends whatever the outcome. */
    method Settle()
      modifies this
      ensures !loading
      ensures products == old(products) && error == old(error)
      ensures selectedCategory == old(selectedCategory) && searchQuery == old(searchQuery)
    {
      loading := false;
    }

    /**
     * The whole load effect, with the outcome of the request it may issue given as a parameter.
     * `fetched` says whether a request was issued; on a cache hit the outcome is never used.
     */
    method RunLoadEffect(cache: ProductCache, outcome: FetchOutcome) returns (fetched: bool)
      modifies this, cache
      ensures !loading
      ensures fetched <==> old(cache.Hit()).None?
      ensures !fetched ==> products == old(cache.entry).products && error == old(error) &&
                           cache.entry == old(cache.entry)
      ensures fetched && outcome.FetchRejected? ==>
                products == old(products) && error == Some(LoadFailedMessage) && cache.entry == old(cache.entry)
      ensures fetched && outcome.Fetched? && old(cache.writable) ==>
                products == outcome.data && error == old(error) && cache.entry == Serialized(outcome.data)
      ensures fetched && outcome.Fetched? && !old(cache.writable) ==>
                products == outcome.data && error == Some(LoadFailedMessage) && cache.entry == old(cache.entry)
      ensures cache.writable == old(cache.writable)
      ensures selectedCategory == old(selectedCategory) && searchQuery == old(searchQuery)
    {
      var needsFetch := InitFromCache(cache);
      fetched := needsFetch;
      if needsFetch {
        match outcome {
          case Fetched(data) =>
            var threw := FetchSucceeded(data, cache);
            if threw {
              FetchFailed();
            }
          case FetchRejected =>
            FetchFailed();
        }
        Settle();
      }
    }

    /** `setSelectedCategory(c)`: only the category filter changes. */
    method SetSelectedCategory(c: string)
      modifies this
      ensures selectedCategory == c && searchQuery == old(searchQuery)
      ensures products == old(products) && loading == old(loading) && error == old(error)
    {
      selectedCategory := c;
    }

    /** `setSearchQuery(q)`: only the search query changes. */
    method SetSearchQuery(q: string)
      modifies this
      ensures searchQuery == q && selectedCategory == old(selectedCategory)
      ensures products == old(products) && loading == old(loading) && error == old(error)
    {
      searchQuery := q;
    }

    /**
     * The provider's value: the state cells together with the two memoised views, which are
     * consistent with the products and filters at every moment.
     */
    function Value(): (v: ContextValue)
      reads this
      ensures v.products == products && v.loading == loading && v.error == error
      ensures v.selectedCategory == selectedCategory && v.searchQuery == searchQuery
      ensures v.filtered == Filtered(products, selectedCategory, searchQuery)
      ensures v.categories == Categories(products)
      ensures forall p :: p in v.filtered <==> p in products && Matches(p, selectedCategory, searchQuery)
      ensures forall c :: c in v.categories <==> exists p :: p in products && p.category == c
      ensures NoDuplicates(v.categories)
    {
      FilteredMembership(products, selectedCategory, searchQuery);
      CategoriesMembership(products);
      ContextValue(products, Filtered(products, selectedCategory, searchQuery), Categories(products),
                   selectedCategory, searchQuery, loading, error)
    }
  }

  /** `useStore()`: fails with a configuration error iff no provider supplies a context. */
  function UseStore(context: Option<ContextValue>): (r: Result<ContextValue, string>)
    ensures r.Failure? <==> context.None?
    ensures r.Failure? ==> r.error == OutsideProviderMessage
    ensures r.Success? ==> r.value == context.value
  {
    match context
    case None => Failure(OutsideProviderMessage)
    case Some(value) => Success(value)
  }
}
