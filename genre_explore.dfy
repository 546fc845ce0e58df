/**
 * The genre explore route: its `loader`, which turns the `:genreId` path
 * segment into a genre by looking in the built-in catalog first and in the
 * store's movie genres second, and its `Component`, which renders a grid
 * for the resolved genre or nothing.
 *
 * The store is an explicit parameter: a function from the requested media
 * category to the settled outcome of the request. The `loader` method keeps
 * a ghost log of the requests it issues.
 */
module GenreExplore {
  import opened Wrappers
  import opened Decimal

  /** The media categories of `MEDIA_TYPE`. */
  datatype MediaType = Movie | Tv

  /** An entry of `COMMON_TITLES` (a `CustomGenre`): only `apiString` takes part in the lookup. */
  datatype CatalogGenre = CatalogGenre(apiString: string, name: string)

  /** A `Genre` as the store returns it: only `id` takes part in the lookup. */
  datatype RemoteGenre = RemoteGenre(id: int, name: string)

  /** `CustomGenre | Genre`. */
  datatype GenreType = Catalog(custom: CatalogGenre) | Remote(genre: RemoteGenre)

  /**
   * The settled `getGenres` request after `.unwrap()`: the fulfilled payload,
   * which may be null or undefined, or the rejection it rethrows.
   */
  datatype FetchOutcome = Ok(genres: Option<seq<RemoteGenre>>) | Err(cause: string)

  /** What the loader settles to: a value (a genre or `undefined`), or a thrown failure. */
  datatype LoadResult = Loaded(genre: Option<GenreType>) | Failed(cause: string)

  /** What `Component` returns: a `GridPage` element or `null`. */
  datatype View = GridPage(mediaType: MediaType, genre: GenreType) | Null

  /** `Array.prototype.find`: the first element satisfying `p`, or undefined. */
  function Find<T>(s: seq<T>, p: T -> bool): (r: Option<T>)
    ensures r.None? <==> forall i :: 0 <= i < |s| ==> !p(s[i])
    ensures r.Some? ==>
      exists i :: 0 <= i < |s| && s[i] == r.value && p(s[i]) && forall j :: 0 <= j < i ==> !p(s[j])
  {
    if |s| == 0 then None
    else if p(s[0]) then Some(s[0])
    else
      var r := Find(s[1..], p);
      assert r.Some? ==> exists i :: 1 <= i < |s| && s[i] == r.value && p(s[i]) && forall j :: 1 <= j < i ==> !p(s[j]);
      r
  }

  /** The catalog predicate: `t.apiString === genreId`. */
  predicate MatchesApiString(ident: string, t: CatalogGenre) {
    t.apiString == ident
  }

  /** The remote predicate: `t.id.toString() === genreId`. */
  predicate MatchesId(ident: string, t: RemoteGenre) {
    IntToString(t.id) == ident
  }

  function CatalogLookup(catalog: seq<CatalogGenre>, ident: string): Option<CatalogGenre> {
    Find(catalog, t => MatchesApiString(ident, t))
  }

  function RemoteLookup(genres: Option<seq<RemoteGenre>>, ident: string): Option<RemoteGenre> {
    match genres
    case None => None
    case Some(gs) => Find(gs, t => MatchesId(ident, t))
  }

  predicate CatalogHit(catalog: seq<CatalogGenre>, ident: string) {
    exists i :: 0 <= i < |catalog| && MatchesApiString(ident, catalog[i])
  }

  predicate RemoteHit(genres: Option<seq<RemoteGenre>>, ident: string) {
    genres.Some? && exists i :: 0 <= i < |genres.value| && MatchesId(ident, genres.value[i])
  }

  /**
   * What `loader` settles to, given the catalog, the store and the path
   * segment. The three outcomes are kept apart: a genre, `undefined`, or the
   * store's failure.
   */
  function Resolve(catalog: seq<CatalogGenre>, store: MediaType -> FetchOutcome, ident: string): (r: LoadResult)
    // a failure exactly when the catalog misses and the movie request fails, and it is the store's own
    ensures r.Failed? <==> !CatalogHit(catalog, ident) && store(Movie).Err?
    ensures r.Failed? ==> r.cause == store(Movie).cause
    // a catalog hit always yields a catalog genre
    ensures CatalogHit(catalog, ident) ==> r.Loaded? && r.genre.Some? && r.genre.value.Catalog?
    // soundness of a catalog result
    ensures r.Loaded? && r.genre.Some? && r.genre.value.Catalog? ==>
      r.genre.value.custom in catalog && r.genre.value.custom.apiString == ident
    // soundness of a remote result: only after a catalog miss, and only from the movie payload
    ensures r.Loaded? && r.genre.Some? && r.genre.value.Remote? ==>
      !CatalogHit(catalog, ident) && store(Movie).Ok? && store(Movie).genres.Some? &&
      r.genre.value.genre in store(Movie).genres.value && IntToString(r.genre.value.genre.id) == ident
    // undefined exactly when neither tier matches and the request did not fail
    ensures r == Loaded(None) <==>
      !CatalogHit(catalog, ident) && store(Movie).Ok? && !RemoteHit(store(Movie).genres, ident)
  {
    match CatalogLookup(catalog, ident)
    case Some(t) => Loaded(Some(Catalog(t)))
    case None =>
      match store(Movie)
      case Err(cause) => Failed(cause)
      case Ok(genres) =>
        match RemoteLookup(genres, ident)
        case Some(g) => Loaded(Some(Remote(g)))
        case None => Loaded(None)
  }

  /**
   * `loader`: the catalog search, then, on a miss only, one request for the
   * movie genres, whose failure is rethrown, and the search of its payload.
   * `requests` logs every category requested from the store.
   */
  method Loader(catalog: seq<CatalogGenre>, store: MediaType -> FetchOutcome, ident: string)
    returns (result: LoadResult, ghost requests: seq<MediaType>)
    ensures result == Resolve(catalog, store, ident)
    ensures requests == (if CatalogHit(catalog, ident) then [] else [Movie])
  {
    requests := [];
    var genre: Option<GenreType> := match CatalogLookup(catalog, ident)
      case Some(t) => Some(Catalog(t))
      case None => None;
    if genre.None? {
      requests := requests + [Movie];
      var outcome := store(Movie);
      if outcome.Err? {
        return Failed(outcome.cause), requests;
      }
      genre := match RemoteLookup(outcome.genres, ident)
        case Some(g) => Some(Remote(g))
        case None => None;
    }
    result := Loaded(genre);
  }

  /** `Component`: a movie grid for a resolved genre, `null` for undefined. */
  function Component(loaded: Option<GenreType>): (v: View)
    ensures v.GridPage? <==> loaded.Some?
    ensures v.GridPage? ==> v.mediaType == Movie && v.genre == loaded.value
  {
    match loaded
    case Some(g) => GridPage(Movie, g)
    case None => Null
  }

  /** `find` returns the first element satisfying the predicate. */
  lemma FindFirst<T>(s: seq<T>, p: T -> bool, k: nat)
    requires k < |s| && p(s[k])
    requires forall j :: 0 <= j < k ==> !p(s[j])
    ensures Find(s, p) == Some(s[k])
  {
  }

  /** On a catalog hit the result is the first matching catalog entry. */
  lemma CatalogFirstMatch(catalog: seq<CatalogGenre>, store: MediaType -> FetchOutcome, ident: string, k: nat)
    requires k < |catalog| && catalog[k].apiString == ident
    requires forall j :: 0 <= j < k ==> catalog[j].apiString != ident
    ensures Resolve(catalog, store, ident) == Loaded(Some(Catalog(catalog[k])))
  {
  }

  /** On a catalog hit the store is never consulted: any two stores give the same result. */
  lemma CatalogHitIgnoresStore(catalog: seq<CatalogGenre>, store1: MediaType -> FetchOutcome,
                               store2: MediaType -> FetchOutcome, ident: string)
    requires CatalogHit(catalog, ident)
    ensures Resolve(catalog, store1, ident) == Resolve(catalog, store2, ident)
  {
  }

  /** Only the movie category is ever requested: stores that agree on it give the same result. */
  lemma OnlyMovieRequested(catalog: seq<CatalogGenre>, store1: MediaType -> FetchOutcome,
                           store2: MediaType -> FetchOutcome, ident: string)
    requires store1(Movie) == store2(Movie)
    ensures Resolve(catalog, store1, ident) == Resolve(catalog, store2, ident)
  {
  }

  /**
   * On a catalog miss and a fulfilled request, the result is the first
   * payload entry whose id renders as the identifier, which is the first
   * entry with the id the identifier spells.
   */
  lemma RemoteFirstMatch(catalog: seq<CatalogGenre>, store: MediaType -> FetchOutcome,
                         gs: seq<RemoteGenre>, id: int, k: nat)
    requires !CatalogHit(catalog, IntToString(id))
    requires store(Movie) == Ok(Some(gs))
    requires k < |gs| && gs[k].id == id
    requires forall j :: 0 <= j < k ==> gs[j].id != id
    ensures Resolve(catalog, store, IntToString(id)) == Loaded(Some(Remote(gs[k])))
  {
    var ident := IntToString(id);
    forall j | 0 <= j < k
      ensures !MatchesId(ident, gs[j])
    {
      IntToStringInjective(gs[j].id, id);
    }
    FindFirst(gs, t => MatchesId(ident, t), k);
  }

  /** A fulfilled request whose payload is null or undefined yields undefined on a catalog miss. */
  lemma NullPayloadIsAbsent(catalog: seq<CatalogGenre>, store: MediaType -> FetchOutcome, ident: string)
    requires !CatalogHit(catalog, ident)
    requires store(Movie) == Ok(None)
    ensures Resolve(catalog, store, ident) == Loaded(None)
  {
  }

  /** An identifier with a leading zero, such as "07", never matches a remote id. */
  lemma LeadingZeroMissesRemote(genres: Option<seq<RemoteGenre>>, ident: string)
    requires |ident| > 1 && ident[0] == '0'
    ensures !RemoteHit(genres, ident)
  {
  }

  /** The render decision after a settled load: a grid exactly when one of the tiers matched. */
  lemma RenderAfterResolve(catalog: seq<CatalogGenre>, store: MediaType -> FetchOutcome, ident: string)
    requires Resolve(catalog, store, ident).Loaded?
    ensures Component(Resolve(catalog, store, ident).genre).GridPage? <==>
      CatalogHit(catalog, ident) || RemoteHit(store(Movie).genres, ident)
  {
  }

  /** A catalog holding "action": that entry is returned, whatever the store does. */
  lemma ActionScenario(store: MediaType -> FetchOutcome)
    ensures var action := CatalogGenre("action", "Action");
      Resolve([action], store, "action") == Loaded(Some(Catalog(action)))
  {
  }

  /** A catalog with no entry "99" and a movie genre of id 99: that genre is returned. */
  lemma RemoteScenario(catalog: seq<CatalogGenre>, store: MediaType -> FetchOutcome)
    requires !CatalogHit(catalog, "99")
    requires store(Movie) == Ok(Some([RemoteGenre(99, "Foo")]))
    ensures Resolve(catalog, store, "99") == Loaded(Some(Remote(RemoteGenre(99, "Foo"))))
  {
  }

  /** "nonexistent" matches neither tier: the loader yields undefined and the page renders nothing. */
  lemma NonexistentScenario(store: MediaType -> FetchOutcome)
    requires store(Movie) == Ok(Some([RemoteGenre(99, "Foo")]))
    ensures Resolve([CatalogGenre("action", "Action")], store, "nonexistent") == Loaded(None)
    ensures Component(Resolve([CatalogGenre("action", "Action")], store, "nonexistent").genre) == Null
  {
  }
}
