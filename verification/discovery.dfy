/** The metadata provider as the pipeline sees it, and what the pipeline does
    with each response once it is in hand. The provider is a set of functions
    from request to response; every function here reports the requests it
    issued, so that "no lookup was made" can be stated. The raw result lists
    are filtered by the two deployments in slightly different ways (the
    standalone service short-circuits on an empty list); both are modelled
    and shown equal. */
module Discovery {
  import opened Wrappers
  import opened Seqs
  import opened Decimal
  import opened Movies

  /** The role a person is searched under (`"director"`, `"actor"`, `"writer"`). */
  datatype PersonType = DirectorType | ActorType | WriterType

  /** The filter of a discovery query: `with_cast`, `with_crew` or `with_genres`. */
  datatype Query = WithCast(personId: int) | WithCrew(personId: int) | WithGenres(genreIds: string)

  /** One call to the metadata provider. */
  datatype Request =
    | SearchTitle(title: string)
    | FetchDetails(movieId: int)
    | DiscoverByPerson(personId: int, personType: PersonType)
    | FetchSimilar(movieId: int)
    | DiscoverByGenre(genreIds: seq<int>)

  /** The provider's answers. A missing `results` array is `None`. */
  datatype Tmdb = Tmdb(
    search: string -> Option<seq<Movie>>,
    details: int -> Details,
    discover: Query -> Option<seq<Movie>>,
    similar: int -> Option<seq<Movie>>)

  /** A value together with the provider calls made to obtain it, in order. */
  datatype Fetched<T> = Fetched(value: T, requests: seq<Request>)

  const PersonLimit: nat := 2
  const SimilarLimit: nat := 3
  const GenreLimit: nat := 3

  function NotFoundMessage(title: string): string {
    "Movie \"" + title + "\" not found"
  }

  /** `searchMovie`: the first (highest-ranked) match, or the not-found error
      when the results are missing or empty. */
  function SearchMovie(tmdb: Tmdb, title: string): (f: Fetched<Result<Movie, string>>)
    ensures f.requests == [SearchTitle(title)]
    ensures f.value.Success? <==> tmdb.search(title).Some? && |tmdb.search(title).value| > 0
    ensures f.value.Success? ==> f.value.value == tmdb.search(title).value[0]
    ensures f.value.Failure? ==> f.value.error == NotFoundMessage(title)
  {
    var results := tmdb.search(title);
    if results.None? || |results.value| == 0 then Fetched(Failure(NotFoundMessage(title)), [SearchTitle(title)])
    else Fetched(Success(results.value[0]), [SearchTitle(title)])
  }

  /** The query filter for a person: actors by cast, directors and writers by crew. */
  function PersonQuery(t: PersonType, personId: int): (q: Query)
    ensures q.WithCast? <==> t == ActorType
    ensures !q.WithGenres? && q.personId == personId
  {
    if t == ActorType then WithCast(personId) else WithCrew(personId)
  }

  /** `results.filter(m => m.id !== id)` */
  function WithoutId(movies: seq<Movie>, id: int): (r: seq<Movie>)
    ensures forall m :: m in r <==> m in movies && m.id != id
    ensures IsSubsequence(r, movies)
    decreases |movies|
  {
    if |movies| == 0 then []
    else if movies[0].id != id then [movies[0]] + WithoutId(movies[1..], id)
    else WithoutId(movies[1..], id)
  }

  /** The filter drops no duplicate: every movie that is not excluded is kept
      as often as it occurs, and the excluded id not at all. */
  lemma {:induction false} WithoutIdCounts(movies: seq<Movie>, id: int)
    ensures forall m :: multiset(WithoutId(movies, id))[m] == if m.id != id then multiset(movies)[m] else 0
    decreases |movies|
  {
    if |movies| > 0 {
      WithoutIdCounts(movies[1..], id);
      assert movies == [movies[0]] + movies[1..];
    }
  }

  /** `results.filter(m => m.id !== excludeId).slice(0, limit)`: the first
      `limit` results, in provider order, that are not the excluded movie. */
  function ExcludeAndCap(results: seq<Movie>, excludeId: int, limit: nat): (r: seq<Movie>)
    ensures |r| == Min(limit, |WithoutId(results, excludeId)|)
    ensures r == WithoutId(results, excludeId)[..|r|]
    ensures forall m :: m in r ==> m in results && m.id != excludeId
    ensures IsSubsequence(r, results)
    ensures |r| < limit ==> forall m :: m in results && m.id != excludeId ==> m in r
  {
    var kept := WithoutId(results, excludeId);
    PrefixOfSubsequence(kept, results, Min(limit, |kept|));
    kept[..Min(limit, |kept|)]
  }

  /** Serverless `discoverMoviesByPerson`: `(data.results || [])` then exclude and cap. */
  function DiscoverMoviesByPerson(tmdb: Tmdb, personId: int, t: PersonType, excludeId: int, limit: nat)
    : (f: Fetched<seq<Movie>>)
    ensures f.requests == [DiscoverByPerson(personId, t)]
    ensures f.value == ExcludeAndCap(tmdb.discover(PersonQuery(t, personId)).GetOr([]), excludeId, limit)
    ensures |f.value| <= limit && forall m :: m in f.value ==> m.id != excludeId
  {
    var results := tmdb.discover(PersonQuery(t, personId)).GetOr([]);
    Fetched(ExcludeAndCap(results, excludeId, limit), [DiscoverByPerson(personId, t)])
  }

  /** Standalone `discoverMoviesByPerson`: an empty or missing list returns `[]` early. */
  function ServiceDiscoverMoviesByPerson(tmdb: Tmdb, personId: int, t: PersonType, excludeId: int, limit: nat)
    : Fetched<seq<Movie>>
  {
    var data := tmdb.discover(PersonQuery(t, personId));
    if data.None? || |data.value| == 0 then Fetched([], [DiscoverByPerson(personId, t)])
    else Fetched(ExcludeAndCap(data.value, excludeId, limit), [DiscoverByPerson(personId, t)])
  }

  lemma DiscoverByPersonAgree(tmdb: Tmdb, personId: int, t: PersonType, excludeId: int, limit: nat)
    ensures ServiceDiscoverMoviesByPerson(tmdb, personId, t, excludeId, limit)
         == DiscoverMoviesByPerson(tmdb, personId, t, excludeId, limit)
  {
  }

  /** Serverless `getSimilarMovies`: the first `limit` similar movies, with no exclusion. */
  function GetSimilarMovies(tmdb: Tmdb, movieId: int, limit: nat): (f: Fetched<seq<Movie>>)
    ensures f.requests == [FetchSimilar(movieId)]
    ensures var results := tmdb.similar(movieId).GetOr([]);
      |f.value| == Min(limit, |results|) && f.value == results[..|f.value|]
  {
    var results := tmdb.similar(movieId).GetOr([]);
    Fetched(results[..Min(limit, |results|)], [FetchSimilar(movieId)])
  }

  /** Standalone `getSimilarMovies`. */
  function ServiceGetSimilarMovies(tmdb: Tmdb, movieId: int, limit: nat): Fetched<seq<Movie>> {
    var data := tmdb.similar(movieId);
    if data.None? || |data.value| == 0 then Fetched([], [FetchSimilar(movieId)])
    else Fetched(data.value[..Min(limit, |data.value|)], [FetchSimilar(movieId)])
  }

  lemma SimilarAgree(tmdb: Tmdb, movieId: int, limit: nat)
    ensures ServiceGetSimilarMovies(tmdb, movieId, limit) == GetSimilarMovies(tmdb, movieId, limit)
  {
  }

  /** Nothing is filtered from the similar list: a provider answer that lists
      the movie itself first is passed on unchanged. */
  lemma SimilarKeepsOwnId(tmdb: Tmdb, movieId: int, limit: nat)
    requires limit > 0
    requires tmdb.similar(movieId).Some? && |tmdb.similar(movieId).value| > 0
    requires tmdb.similar(movieId).value[0].id == movieId
    ensures GetSimilarMovies(tmdb, movieId, limit).value[0].id == movieId
  {
  }

  function GenreIds(genres: seq<Genre>): (ids: seq<int>)
    ensures |ids| == |genres| && forall k :: 0 <= k < |genres| ==> ids[k] == genres[k].id
  {
    seq(|genres|, k requires 0 <= k < |genres| => genres[k].id)
  }

  /** `genreIds.join(",")` */
  function GenreQuery(ids: seq<int>): string {
    Join(seq(|ids|, k requires 0 <= k < |ids| => IntToString(ids[k])), ",")
  }

  /** The genre filter sent to the provider names exactly the genre ids, in order. */
  lemma GenreQueryRoundTrip(ids: seq<int>)
    requires |ids| > 0
    ensures var parts := Split(GenreQuery(ids), ",");
      && |parts| == |ids|
      && forall k :: 0 <= k < |ids| ==> IsNumeral(parts[k]) && ParseInt(parts[k]) == ids[k]
  {
    var strs := seq(|ids|, k requires 0 <= k < |ids| => IntToString(ids[k]));
    SplitJoin(strs, ",");
    forall k | 0 <= k < |ids|
      ensures ParseInt(strs[k]) == ids[k]
    {
      IntToStringRoundTrip(ids[k]);
    }
  }

  /** Serverless `getMoviesByGenre`: no genres means `[]` and no lookup;
      otherwise the genre discovery, excluded and capped. */
  function GetMoviesByGenre(tmdb: Tmdb, genres: Option<seq<Genre>>, excludeId: int, limit: nat)
    : (f: Fetched<seq<Movie>>)
    ensures genres.None? || |genres.value| == 0 ==> f.value == [] && f.requests == []
    ensures genres.Some? && |genres.value| > 0 ==>
      var ids := GenreIds(genres.value);
      && f.requests == [DiscoverByGenre(ids)]
      && f.value == ExcludeAndCap(tmdb.discover(WithGenres(GenreQuery(ids))).GetOr([]), excludeId, limit)
    ensures |f.value| <= limit && forall m :: m in f.value ==> m.id != excludeId
  {
    if genres.None? || |genres.value| == 0 then Fetched([], [])
    else
      var ids := GenreIds(genres.value);
      var results := tmdb.discover(WithGenres(GenreQuery(ids))).GetOr([]);
      Fetched(ExcludeAndCap(results, excludeId, limit), [DiscoverByGenre(ids)])
  }

  /** Standalone `getMoviesByGenre`, which receives the ids already mapped. */
  function ServiceGetMoviesByGenre(tmdb: Tmdb, genreIds: Option<seq<int>>, excludeId: int, limit: nat)
    : Fetched<seq<Movie>>
  {
    if genreIds.None? || |genreIds.value| == 0 then Fetched([], [])
    else
      var data := tmdb.discover(WithGenres(GenreQuery(genreIds.value)));
      if data.None? || |data.value| == 0 then Fetched([], [DiscoverByGenre(genreIds.value)])
      else Fetched(ExcludeAndCap(data.value, excludeId, limit), [DiscoverByGenre(genreIds.value)])
  }

  lemma GenreAgree(tmdb: Tmdb, genres: Option<seq<Genre>>, excludeId: int, limit: nat)
    ensures var ids := if genres.Some? then Some(GenreIds(genres.value)) else None;
      ServiceGetMoviesByGenre(tmdb, ids, excludeId, limit) == GetMoviesByGenre(tmdb, genres, excludeId, limit)
  {
  }
}
