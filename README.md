# Genre explore route

A model of the genre explore page of a movie-browsing front end. The page's
route `loader` turns the `:genreId` path segment into a genre in two tiers:
it looks the segment up among the built-in catalog titles (`COMMON_TITLES`)
by `apiString`. Only when that misses does it request the movie genres from
the store. It then looks the segment up in that list by the decimal
rendering of each genre's `id`. A failed request is rethrown by `.unwrap()`.
The page's `Component` renders a movie `GridPage` for a resolved genre and
`null` otherwise.

Files:

- `wrappers.dfy`: `Option`, for JavaScript's `undefined`/`null`.
- `decimal.dfy`: `IntToString` (what `id.toString()` gives for an id that
  is a safe integer, |id| <= 2^53 - 1) and its inverse `ParseInt`. It proves the round trip, injectivity and
  the absence of leading zeros.
- `genre_explore.dfy`: the data model, `Find` (`Array.prototype.find`),
  the specification function `Resolve`, the `Loader` method, `Component`,
  and the lemmas about them.

The store is an explicit parameter `store: MediaType -> FetchOutcome`. It
maps a requested media category to the settled outcome of that request. The
outcome is either a fulfilled payload (possibly null or undefined) or a
rejection with its cause. `Loader` returns a ghost log of the categories it
requested. That log states when the remote tier is touched and with what.
The loader's outcome keeps three cases apart: a genre, `undefined`, or a
failure.

## Model

| member | source | states |
|---|---|---|
| `GenreExplore.Find` | src/pages/GenreExplore.tsx:18-26 | `find` yields undefined exactly when no element satisfies the predicate; otherwise it yields an element that satisfies it, and every element before that one fails it |
| `GenreExplore.FindFirst` | src/pages/GenreExplore.tsx:18-20 | if the element at k is the first to satisfy the predicate, then `find` returns exactly that element |
| `GenreExplore.Resolve` | src/pages/GenreExplore.tsx:17-30 | the loader fails exactly when the catalog misses and the movie request fails, and it fails with the store's own cause; a catalog hit always yields a catalog genre; a returned catalog genre is in the catalog and has `apiString` equal to the identifier; a returned remote genre comes only after a catalog miss, from the fulfilled movie payload, and its `id` renders as the identifier; the result is undefined exactly when both tiers miss and the request did not fail |
| `GenreExplore.Loader` | src/pages/GenreExplore.tsx:17-30 | the method settles to `Resolve`'s outcome; it issues no request on a catalog hit and exactly one request, for `Movie`, on a miss |
| `GenreExplore.Component` | src/pages/GenreExplore.tsx:32-39 | the page renders a grid exactly when a genre is present; the grid uses the movie category and the resolved genre; otherwise the page renders `null` |
| `GenreExplore.CatalogFirstMatch` | src/pages/GenreExplore.tsx:18-20 | on a catalog hit, the result is the first catalog entry whose `apiString` equals the identifier |
| `GenreExplore.CatalogHitIgnoresStore` | src/pages/GenreExplore.tsx:18-22 | on a catalog hit, the result is the same for every store, because the remote tier is not consulted |
| `GenreExplore.OnlyMovieRequested` | src/pages/GenreExplore.tsx:22-25 | two stores that agree on the movie category give the same result, because no other category is ever requested |
| `GenreExplore.RemoteFirstMatch` | src/pages/GenreExplore.tsx:22-26 | on a catalog miss with a fulfilled request, an identifier that renders the integer `id` resolves to the first payload entry with that `id` |
| `GenreExplore.NullPayloadIsAbsent` | src/pages/GenreExplore.tsx:26 | on a catalog miss, a fulfilled request whose payload is null or undefined yields undefined (`genres?.find`) |
| `GenreExplore.LeadingZeroMissesRemote` | src/pages/GenreExplore.tsx:26 | an identifier of two or more characters that starts with '0' (such as "07") matches no remote genre |
| `GenreExplore.RenderAfterResolve` | src/pages/GenreExplore.tsx:29-38 | after a load that did not fail, the page renders a grid exactly when the catalog or the fulfilled movie payload matched the identifier |
| `GenreExplore.ActionScenario` | src/pages/GenreExplore.tsx:18-20 | with a catalog holding "action", the identifier "action" returns that entry, whatever the store does |
| `GenreExplore.RemoteScenario` | src/pages/GenreExplore.tsx:22-26 | with no catalog entry "99" and a movie genre with id 99, the identifier "99" returns that genre |
| `GenreExplore.NonexistentScenario` | src/pages/GenreExplore.tsx:17-38 | "nonexistent" matches neither tier, so the loader yields undefined and the page renders `null` |
| `Decimal.NatToString` | src/pages/GenreExplore.tsx:26 | the rendering of a natural number is a non-empty string of digits, and it starts with '0' only for zero |
| `Decimal.IntToString` | src/pages/GenreExplore.tsx:26 | `id.toString()` of a safe-integer id is non-empty, starts with '-' exactly for a negative id, and has only digits after the sign |
| `Decimal.IntToStringRoundTrip` | src/pages/GenreExplore.tsx:26 | reading the rendering of an integer back gives that integer |
| `Decimal.IntToStringInjective` | src/pages/GenreExplore.tsx:26 | two ids render to the same string exactly when they are equal |
| `Decimal.NoLeadingZero` | src/pages/GenreExplore.tsx:26 | a rendering that starts with '0' is "0" |

## Left out

- The Redux store and the `getGenres` endpoint's `dispatch(...initiate(...))` request machinery, with its caching and deduplication, are not part of this model. The settled request is a value produced by the `store` parameter.
- The asynchronous scheduling is left out. The loader is modelled as running to completion once the request has settled. Navigation cancellation is also left out.
- The react-router plumbing (`LoaderFunctionArgs`, `useLoaderData`) is left out. The identifier is passed in directly, and `Component` receives the loader's value directly. The failure case never reaches `Component`.
- A missing `params.genreId` is not modelled. The route always supplies the segment, and the cast to `string` is taken at its word.
- `GridPage` rendering and JSX are left out. The rendered output is the datatype `View`.
- The contents of `COMMON_TITLES` are not modelled, and neither are the full field sets of `CustomGenre` and `Genre`. Those types and values are defined outside this file. The model keeps `apiString`, `id` and a name.
- `MEDIA_TYPE` is defined outside this file. The model gives it two categories, `Movie` and `Tv`.
- IntToString: ids are integers, and the rendering is exact only for safe integers (|id| <= 2^53 - 1). JavaScript does not hold larger integral ids exactly. `Number.prototype.toString` prints them as the shortest digits that round back to the same double, padded with zeros, rather than as their exact digits (2^60 prints as "1152921504606847000"). From 1e21 upwards it uses exponent notation. Fractional and non-finite values are not modelled either.
