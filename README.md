# Storefront catalog state, modelled in Dafny

A model of the catalog state provider of the Sogo storefront (`src/context/StoreContext.tsx`).
The provider holds five state cells: the product list, a loading flag, an optional error
message, a selected category and a search query. On mount it loads the products once. It
first tries the browser cache under the key `"products"`. On a miss it requests the catalog
service and writes the answer back to the cache. It derives two views from the state: the
distinct categories, and the products that pass both filters. Consumers reach it through
`useStore`, which throws when no provider is present.

Files and modules:

- `wrappers.dfy` (`Wrappers`): `Option` and `Result`.
- `text.dfy` (`Text`): `toLowerCase` on ASCII letters, `includes`, and the substring meaning of `includes`.
- `catalog.dfy` (`Catalog`): the `Product` record, the filter predicate and the filtered view, and the category de-duplication, with their lemmas.
- `store.dfy` (`StoreContext`): the browser cache as a class `ProductCache`, the provider state as a class `Store`, the steps of the load effect, the filter setters, the provider value and `useStore`.
- `scenarios.dfy` (`Scenarios`): the provider's usage scenarios as client code that reaches the store only through the contracts of its methods and of `Value`.

The two memoised views are pure functions of the state (`Store.Value`), so reading them twice
without a write in between gives the same result by construction.

The outcome of the network request is a parameter, `FetchOutcome`: either the decoded list or a
rejection. A rejection covers both a network error and a failing `res.json()`. A failing
`localStorage.setItem` is modelled by `ProductCache.writable == false`. In the source this
throws inside the second `.then`, after `setProducts(data)`, so the `catch` sets the error while
the products are already set. The model keeps that outcome: the product list stays empty on failure only when the request
itself fails.

## Model

| member | source | states |
|---|---|---|
| `Text.LowerChar` | src/context/StoreContext.tsx:76 | the result is never an ASCII capital; a non-capital is unchanged; a capital moves to its small letter |
| `Text.Lower` | src/context/StoreContext.tsx:76 | lower-casing keeps the length and maps every character through `LowerChar` |
| `Text.Includes` | src/context/StoreContext.tsx:76 | the empty query is included in every text (`"".includes("")` is true); an included query is no longer than the text |
| `Text.IncludesIsSubstring` | src/context/StoreContext.tsx:76 | `includes` holds iff the query occurs at some position of the text, in both directions |
| `Catalog.Filtered` | src/context/StoreContext.tsx:72-78 | the view is no longer than the product list, and each of its elements is a product of the list that passes the filter predicate `Catalog.Matches` (category filter off or equal, lower-cased title includes lower-cased query) |
| `Catalog.FilteredWithoutFilters` | src/context/StoreContext.tsx:72-78 | with category `""` and query `""` the view equals the product list exactly, order included |
| `Catalog.FilteredMembership` | src/context/StoreContext.tsx:73-76 | a product is in the view iff it is in the list and passes the predicate |
| `Catalog.FilteredByCategory` | src/context/StoreContext.tsx:74-76 | with a non-empty category, a product is kept iff it is listed, has that category, and the lower-cased query is a substring of its lower-cased title |
| `Catalog.FilteredBySearch` | src/context/StoreContext.tsx:75-76 | with no category, a product is kept iff it is listed and its lower-cased title contains the lower-cased query |
| `Catalog.FilteredIsSubsequence` | src/context/StoreContext.tsx:73 | the view is picked from the list by strictly increasing positions, and the positions picked are exactly those whose product passes the predicate |
| `Catalog.Categories` | src/context/StoreContext.tsx:67-70 | the category list has no duplicates |
| `Catalog.CategoriesMembership` | src/context/StoreContext.tsx:68 | a string is a category iff some product has it as its category |
| `Catalog.FirstIndex` | src/context/StoreContext.tsx:68 | the position of the first product with a category, or the list length when there is none |
| `Catalog.CategoriesFirstSeenOrder` | src/context/StoreContext.tsx:68 | every listed category occurs among the products, and categories are listed by increasing first occurrence (the insertion order of a `Set`) |
| `StoreContext.ProductCache.Hit` | src/context/StoreContext.tsx:51-52 | a cache read is a hit iff a serialized list is stored; an absent item and the empty string are both misses |
| `StoreContext.ProductCache.Write` | src/context/StoreContext.tsx:60 | a write succeeds iff the cache is writable; a successful write stores the data so that the next read hits with it; a failing write changes nothing |
| `StoreContext.Store.constructor` | src/context/StoreContext.tsx:44-48 | initial state: no products, loading, no error, both filters empty |
| `StoreContext.Store.InitFromCache` | src/context/StoreContext.tsx:51-55 | on a hit the products become the cached list and loading ends; on a miss the state is unchanged and a fetch is needed; the error and the filters are untouched |
| `StoreContext.Store.FetchSucceeded` | src/context/StoreContext.tsx:58-61 | the products become the data; the same data is written to the cache; `threw` is true iff the write threw, in which case the cache is unchanged |
| `StoreContext.Store.FetchFailed` | src/context/StoreContext.tsx:62 | the error becomes "Failed to load products"; nothing else changes |
| `StoreContext.Store.Settle` | src/context/StoreContext.tsx:63 | loading becomes false; nothing else changes |
| `StoreContext.Store.RunLoadEffect` | src/context/StoreContext.tsx:50-65 | loading is false afterwards whatever the outcome; a request is issued iff the cache misses; a hit installs the cached list and ignores the outcome; a rejection sets the error and leaves products and cache as they were; success sets the products and fills the cache, or, when the write throws, also sets the error; the filters never change |
| `StoreContext.Store.SetSelectedCategory` | src/context/StoreContext.tsx:47 | only the selected category changes |
| `StoreContext.Store.SetSearchQuery` | src/context/StoreContext.tsx:48 | only the search query changes |
| `StoreContext.Store.Value` | src/context/StoreContext.tsx:67-92 | the provider value carries the current state cells; its filtered view is `Filtered` and its categories are `Categories` of the current state, so their order reaches callers; its filtered view holds exactly the listed products that pass the filters; its categories are duplicate-free and are exactly the categories of the products |
| `StoreContext.UseStore` | src/context/StoreContext.tsx:35-41 | the guard fails iff no context is present, with the message "useStore must be used within a StoreProvider"; otherwise it returns the context unchanged |
| `Scenarios.WomenBagFilter` | src/context/StoreContext.tsx:72-78 | category "women" with query "bag" over a shirt and a bag keeps only the bag |
| `Scenarios.ShirtBagCategories` | src/context/StoreContext.tsx:67-70 | the shirt-and-bag catalog has the categories "men" then "women" |

## Left out

- Text.Lower: lower-cases ASCII capitals only; the full Unicode case mapping of `String.prototype.toLowerCase` is not modelled.
- React plumbing (`createContext`, `useContext`, `useState`, `useEffect`, `useMemo` dependency tracking and the JSX of lines 80-96): framework internals. The memoised views are modelled as pure functions of the state.
- The network request and `res.json()`: foreign I/O. Only the outcome is modelled, as a decoded list or a rejection; the code has no HTTP status handling and none is modelled.
- `JSON.parse` and `JSON.stringify`: the cache holds an abstract product list. A corrupted or non-list cached value, which the code does not handle, is not modelled, and no serialization round trip is proved.
- The cache key `"products"`: the cache is modelled as the one entry the provider uses.
- `price` and `rating`: floating-point values nothing reads; they are carried as `real` and `int` fields.
- A failing `localStorage.getItem` (storage access denied): in the source it throws inside the effect before any request is issued and loading stays true; the model's cache read always succeeds.
- Asynchronous ordering: the steps of the load effect are separate methods, and `RunLoadEffect` runs them to settlement in one call. A request that never settles (loading stays true) and mutations after unmount are not modelled.
