# MovieDNA recommendation pipeline in Dafny

MovieDNA takes a movie title and answers with the movie's "creative DNA": its
director, lead actor and screenwriter, a generated analysis, and five lists of
recommendations. Four lists follow a connection: the same director, lead actor or
screenwriter, or the same genres. The fifth list holds the provider's "similar"
movies. Each recommendation carries a connection label and a generated one-line
insight.

The repository ships the pipeline twice, and both are modelled:

- the serverless handler, `api/movie-dna.js`;
- the standalone service, `server/services/movieDNA.js`, built on the provider
  client `server/services/tmdb.js`.

What is modelled:

- **Provider.** The movie-metadata provider (TMDB) is a value of function type.
  `Discovery.Tmdb` maps a search title, movie id or discovery query to its
  answer; a missing `results` array is `None`. Every lookup returns the list of
  requests it issued, so the model can state when no lookup happens.
- **Language model.** The Groq calls are two uninterpreted functions,
  `Recommend.Groq`: the movie analysis and the per-recommendation insight.
- **Modules.** The code is split by concern:
  - `Extraction`: picking the team from the credits;
  - `Format`: shaping a movie record;
  - `Discovery`: lookup, exclusion and capping;
  - `Recommend`: connections and the report's invariants;
  - `Handler`: the HTTP handler;
  - `Service`: the standalone service, written as loop-based methods;
  - `Agreement`: the two deployments build the same report.
- **Helpers.** `Seqs` holds subsequences, first match, join and split. `Decimal`
  holds integer-to-decimal conversion, used for the genre filter.
- **Falsy values.** JavaScript falsiness of optional strings is `Movies.Truthy`:
  a missing value and `""` are falsy.
- **Concurrency.** The serverless handler runs its lookups concurrently. Its
  calls are modelled in the order they are issued: director, actor, writer,
  similar, genre.

Behaviour worth knowing:

- The HTTP status of a provider answer is never checked. An error answer
  without `results` reads as an empty list for a discovery or similar lookup,
  and as not-found for the title search. The model's `None` answer stands for
  such a missing `results` array.
- Only a network failure or an answer that is not JSON throws, and that aborts
  the whole request (not modelled).
- An unknown title in the serverless handler is answered with a 500 and the
  not-found message (`Handler.Analyze`).
- The standalone service excludes the search hit's id from discovery, while the
  report shows the details record's id (`Service.AnalyzeMovieDna`).
- The similar list is never filtered, so it can contain the movie itself
  (`Discovery.SimilarKeepsOwnId`).
- A connection's name is the person's raw name, which may be `""`. The original
  movie's display names fall back to "Unknown" (`Recommend.DisplayName`).
- In the serverless handler a failed language-model call aborts the request
  with a 500; the standalone service falls back to a fixed sentence. Failed
  calls are not modelled.
- The two deployments use different language-model clients (different prompts,
  settings and fallback texts). Each is given its own `Recommend.Groq` value,
  so the generated texts of the two deployments are not related.

## Model

| member | source | states |
|---|---|---|
| Seqs.Find | server/services/tmdb.js:47 | `Array.find`: nothing found iff no element satisfies the predicate; otherwise the result is the first element that does |
| Extraction.ExtractDirector | server/services/tmdb.js:44-49 | a director exists iff there is a crew list with a "Director" credit, and then it is the first such credit in crew order |
| Extraction.ExtractLeadActor | server/services/tmdb.js:54-58 | a lead actor exists iff the cast list is present and non-empty, and then it is the first cast member |
| Extraction.ExtractScreenwriter | server/services/tmdb.js:63-75 | a screenwriter exists iff some crew credit is "Screenplay", "Writer" or "Story", and then it is the first such credit |
| Extraction.ExtractorsAgree | api/movie-dna.js:26-32 | the handler's optional-chaining extractors pick the same director, lead actor and screenwriter as the service's guarded ones, for every credits record |
| Extraction.ScreenwriterFollowsCrewOrder | server/services/tmdb.js:66-72 | the three writing jobs are not ranked: a "Story" credit listed before a "Screenplay" credit is chosen |
| Format.ReleaseYear | server/services/tmdb.js:154-156 | the year is "N/A" exactly when the release date is missing or empty; otherwise it is read from that date |
| Format.PosterUrl | server/services/tmdb.js:158-160 | no URL exactly when the poster path is missing or empty; otherwise the URL is the image base followed by the poster path |
| Format.PosterUrlInjective | api/movie-dna.js:67-69 | distinct poster paths give distinct URLs: the path can be recovered from the URL |
| Format.FormatMovie | api/movie-dna.js:62-71 | the summary presents the record (same id, title, overview, rating; derived year and poster URL) and carries no vote count |
| Format.FormatMovieData | server/services/tmdb.js:150-164 | the summary presents the record and keeps its vote count |
| Format.FormattersAgree | api/movie-dna.js:62-71 | the two formatters differ only in the vote count |
| Discovery.SearchMovie | server/services/tmdb.js:14-27 | one search request; success iff the result list is present and non-empty, giving its first entry; otherwise the `Movie "<title>" not found` error |
| Discovery.PersonQuery | server/services/tmdb.js:88-92 | actors are looked up by cast and directors and writers by crew, always for the given person id |
| Discovery.WithoutId | server/services/tmdb.js:102-104 | the filter keeps exactly the movies whose id differs from the excluded one, in their original order |
| Discovery.WithoutIdCounts | server/services/tmdb.js:102-104 | the filter drops no duplicates: each movie that is not excluded is kept as often as it occurs, and movies with the excluded id never |
| Discovery.ExcludeAndCap | server/services/tmdb.js:101-105 | the first `min(limit, eligible)` eligible movies in provider order; none is the excluded movie; when fewer than `limit` come back, every eligible movie is included |
| Discovery.DiscoverMoviesByPerson | api/movie-dna.js:34-42 | one discovery request for the person and role; at most `limit` results, none of them the excluded movie |
| Discovery.DiscoverByPersonAgree | server/services/tmdb.js:97-105 | the service's early return on an empty list gives the same answer and requests as the handler's fallback to an empty list |
| Discovery.GetSimilarMovies | api/movie-dna.js:44-50 | one similar-movies request; the result is the first `min(limit, n)` similar movies, unfiltered |
| Discovery.SimilarAgree | server/services/tmdb.js:111-121 | the service's similar-movies lookup equals the handler's |
| Discovery.SimilarKeepsOwnId | server/services/tmdb.js:120 | when the provider lists the movie itself first among the similar movies, it is recommended back |
| Discovery.GenreQueryRoundTrip | server/services/tmdb.js:131 | the comma-joined genre filter splits back into exactly the genre ids, in order |
| Discovery.GetMoviesByGenre | api/movie-dna.js:52-60 | without genres there is no lookup and no result; otherwise one discovery request for the genre ids, and the result is excluded and capped |
| Discovery.GenreAgree | server/services/tmdb.js:126-145 | the service's genre lookup on the mapped ids equals the handler's lookup on the genre records |
| Recommend.AxisOf | api/movie-dna.js:107-121 | the director, actor and writer axes are labelled "Director", "Lead Actor" and "Screenwriter" |
| Recommend.DisplayName | api/movie-dna.js:254-256 | the display name is never empty; it is "Unknown" iff the person is missing or has an empty name (or is called "Unknown"), and the person's name otherwise |
| Recommend.GenreNamesRoundTrip | api/movie-dna.js:229 | the genre connection name lists the genre names in order: splitting it on ", " gives them back when no name contains a comma |
| Recommend.BuildRecommendations | api/movie-dna.js:105-137 | each list maps its candidates one for one and in order to formatted entries, without vote counts, under its fixed connection type, keeping name and insight; a missing list becomes empty |
| Handler.AnnotatePersonShape | api/movie-dna.js:182-217 | each person candidate is paired with the person's name and the insight generated for it; there are at most two, and none is the movie itself |
| Handler.ExplainSimilarShape | api/movie-dna.js:218-228 | each similar movie, at most three, is paired with its "similar theme and story" insight |
| Handler.AnnotateGenreShape | api/movie-dna.js:229-241 | each genre candidate, at most three and none the movie itself, is named by the joined genre names |
| Handler.GatherProperties | api/movie-dna.js:165-249 | every list follows its discovery result; the provider calls are exactly the five axes' lookups in issue order (one discovery per named person, the similar fetch, the genre discovery when there are genres); a person is looked up iff the credits name one; the similar list is always fetched; the genre lookup runs iff there are genres; all five axis invariants hold |
| Handler.Respond | api/movie-dna.js:152-262 | a 200 report whose original movie is the details formatted without vote count, with display names; the analysis is generated for the formatted movie and extracted team; the recommendations satisfy every axis invariant, excluding the details' own id |
| Handler.Analyze | api/movie-dna.js:150-163 | an empty or missing search result is a 500 with the not-found message after only the search; otherwise the first hit's details are fetched and answered |
| Handler.Handle | api/movie-dna.js:139-148 | 405 for any method but POST, 500 without both keys, 400 without a title, all before any lookup; a report is only ever produced for an accepted request |
| Service.ConnectAll | server/services/movieDNA.js:94-109 | the push loop adds one entry per discovered movie, in order, each formatted with its vote count and carrying its connection and insight |
| Service.PersonAxisOf | server/services/movieDNA.js:86-110 | no person means no lookup and no entries; otherwise one discovery request, and the entries list its results under the person's axis, formatted with their vote counts, none of them the original movie |
| Service.SimilarAxisOf | server/services/movieDNA.js:167-184 | one similar-movies request; the entries list the first three similar movies, formatted with their vote counts, as "Story & Audience Match" |
| Service.GenreAxisOf | server/services/movieDNA.js:187-209 | without genres, no lookup and no entries; otherwise the entries list the genre discovery result, formatted with their vote counts, named by the joined genre names |
| Service.GetRecommendations | server/services/movieDNA.js:69-212 | all five axis invariants; each list is the standalone formatting of its lookup's result, vote counts included; the provider calls are exactly the five axes' lookups in issue order: one discovery per named person with that person's id, one similar fetch, and the genre discovery when there are genres |
| Service.AnalyzeMovieDna | server/services/movieDNA.js:17-64 | the not-found error after only the search when nothing matches; otherwise search, details, then a report satisfying the invariants with the search hit's id excluded, whose entries keep their vote counts |
| Agreement.DeploymentsAgree | api/movie-dna.js:150-262 | two reports built for the same details and excluded id, each with its own language-model client, agree on the original movie's fields, the display names, and every entry with its connection type and name; they differ at most in vote counts and in the generated analysis and insight texts |

## Left out

- HTTP transport, URLs, query-string encoding and API-key plumbing are left out. A
  request is a `Discovery.Request` value, and the keys only decide the 500 branch.
- The prompts, models, sampling settings and fallback texts of the Groq calls are
  left out. The analysis and insight are opaque functions of the arguments the
  code passes, one pair per deployment. The handler's `|| ""` fallback and the
  service client's fallback sentences (`server/services/groq.js`, not part of
  this model) are inside those functions. A failed call is not modelled: it
  aborts the serverless request with a 500, while the service's client catches
  it and returns a fixed sentence.
- Format.ReleaseYear: the calendar year is kept symbolic (`YearOf(releaseDate)`),
  because JavaScript date parsing is not modelled. An unparsable date gives `NaN`
  in the source and is not distinguished here.
- Thrown errors are left out: a network failure or an answer that is not JSON
  aborts the request in the source. The not-found error is modelled. The
  standalone service reports it as a `Failure`, which its caller
  (`server/index.js`, not part of this model) turns into an HTTP error.
- Records with missing fields are not modelled: every `Movie`, `Person` and
  `Genre` field is present. In the source a missing field flows on as
  `undefined`; for example, a details record without an id excludes nothing and
  asks for the similar movies of `undefined`.
- Genre ids are taken to be integers below 10^21, which JavaScript writes in
  plain decimal. From 10^21 up it uses exponent notation, and above 2^53 ids
  are no longer exact; neither is modelled.
- The serverless handler's concurrent `Promise.all` fan-out is left out: it is
  sequential here, in issue order. Its outcome does not depend on completion
  order, because nothing is shared between the calls.
- Handler.Handle: any thrown error becomes a 500 in the source; only the
  not-found error is modelled.
- Logging to the console is left out.
- Non-string titles are left out: a title is a string here, and any non-empty
  title is accepted.
- The Express server (`server/index.js`), the React client and the manual test
  script are not part of this model.
- Rating and vote count are copied, not computed. They are `real` and `int`,
  and JavaScript floating point plays no role.
