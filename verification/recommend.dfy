/** Recommendation entries and the response report, with the shape both
    deployments promise: fixed connection labels per axis, the person's or
    genre list's name, the generated insight for each candidate, the caps, and
    the exclusion of the original movie. */
module Recommend {
  import opened Wrappers
  import opened Seqs
  import opened Movies
  import opened Extraction
  import opened Format
  import opened Discovery

  /** The five recommendation axes. */
  datatype ConnectionType = DirectorLink | LeadActorLink | ScreenwriterLink | SimilarTheme | SameGenre {

    /** The `connection.type` string of the response. */
    function Label(): string {
      match this
      case DirectorLink => "Director"
      case LeadActorLink => "Lead Actor"
      case ScreenwriterLink => "Screenwriter"
      case SimilarTheme => "Similar Theme"
      case SameGenre => "Same Genre"
    }

    /** The shared attribute named in the insight prompt. */
    function Reason(): string {
      match this
      case DirectorLink => "director"
      case LeadActorLink => "lead actor"
      case ScreenwriterLink => "screenwriter"
      case SimilarTheme => "similar theme and story"
      case SameGenre => "genre"
    }
  }

  datatype Connection = Connection(kind: ConnectionType, name: string, insight: string)

  datatype Recommended = Recommended(movie: Summary, connection: Connection)

  datatype Recommendations = Recommendations(
    byDirector: seq<Recommended>,
    byActor: seq<Recommended>,
    byWriter: seq<Recommended>,
    similarMovies: seq<Recommended>,
    byGenre: seq<Recommended>)

  datatype OriginalMovie = OriginalMovie(
    movie: Summary,
    director: string,
    leadActor: string,
    screenwriter: string,
    aiAnalysis: string)

  datatype Report = Report(originalMovie: OriginalMovie, recommendations: Recommendations)

  /** The generative text provider: the narrative analysis of a movie and its
      team, and the one-sentence insight for (original title, recommended
      title, reason, name). Both are opaque, fallbacks on an empty completion
      included; the serverless handler does not catch a failed call, and a
      failed call is not modelled. The two deployments call different clients
      (different prompts, settings and fallback texts), so each is given its
      own value of this type. */
  datatype Groq = Groq(
    analyze: (Summary, Option<Person>, Option<Person>, Option<Person>) -> string,
    insight: (string, string, string, string) -> string)

  const SimilarName := "Story & Audience Match"
  const SimilarSubject := "TMDB algorithm"
  const UnknownName := "Unknown"

  /** The connection axis of a person search. */
  function AxisOf(t: PersonType): (k: ConnectionType)
    ensures k.Label() == match t
      case DirectorType => "Director"
      case ActorType => "Lead Actor"
      case WriterType => "Screenwriter"
  {
    match t
    case DirectorType => DirectorLink
    case ActorType => LeadActorLink
    case WriterType => ScreenwriterLink
  }

  /** `person?.name || "Unknown"`: a missing person or an empty name shows as "Unknown". */
  function DisplayName(p: Option<Person>): (n: string)
    ensures n != ""
    ensures n == UnknownName <==> p.None? || p.value.name == "" || p.value.name == UnknownName
    ensures p.Some? && p.value.name != "" ==> n == p.value.name
  {
    if p.Some? && p.value.name != "" then p.value.name else UnknownName
  }

  function GenreNameList(genres: seq<Genre>): (names: seq<string>)
    ensures |names| == |genres| && forall k :: 0 <= k < |genres| ==> names[k] == genres[k].name
  {
    seq(|genres|, k requires 0 <= k < |genres| => genres[k].name)
  }

  /** `genres?.map(g => g.name).join(", ") || ""` */
  function GenreNames(genres: Option<seq<Genre>>): string {
    if genres.None? then "" else Join(GenreNameList(genres.value), ", ")
  }

  /** The genre connection name lists the genre names in order: splitting it on
      ", " gives them back when no name contains a comma. */
  lemma GenreNamesRoundTrip(genres: seq<Genre>)
    requires |genres| > 0
    requires forall k :: 0 <= k < |genres| ==> ',' !in genres[k].name
    ensures Split(GenreNames(Some(genres)), ", ") == GenreNameList(genres)
  {
    SplitJoin(GenreNameList(genres), ", ");
  }

  /** `entries` present `movies` one for one, in order. */
  predicate Lists(entries: seq<Recommended>, movies: seq<Movie>) {
    |entries| == |movies| && forall i :: 0 <= i < |entries| ==> Presents(entries[i].movie, movies[i])
  }

  /** A person axis: empty without the person; otherwise at most two entries,
      none of them the excluded movie, each labelled with the axis and the
      person's name and carrying the insight generated for it. */
  ghost predicate PersonAxis(
    entries: seq<Recommended>, person: Option<Person>, kind: ConnectionType,
    excludeId: int, originalTitle: string, groq: Groq)
  {
    && (person.None? ==> entries == [])
    && |entries| <= PersonLimit
    && forall e :: e in entries ==>
         && person.Some?
         && e.movie.id != excludeId
         && e.connection == Connection(kind, person.value.name,
              groq.insight(originalTitle, e.movie.title, kind.Reason(), person.value.name))
  }

  /** The similar axis: at most three entries under the fixed placeholder name. */
  ghost predicate SimilarAxis(entries: seq<Recommended>, originalTitle: string, groq: Groq) {
    && |entries| <= SimilarLimit
    && forall e :: e in entries ==>
         e.connection == Connection(SimilarTheme, SimilarName,
           groq.insight(originalTitle, e.movie.title, SimilarTheme.Reason(), SimilarSubject))
  }

  /** The genre axis: empty without genres; otherwise at most three entries,
      none of them the excluded movie, named by the joined genre names. */
  ghost predicate GenreAxis(
    entries: seq<Recommended>, genres: Option<seq<Genre>>, excludeId: int,
    originalTitle: string, groq: Groq)
  {
    && (genres.None? || |genres.value| == 0 ==> entries == [])
    && |entries| <= GenreLimit
    && forall e :: e in entries ==>
         && e.movie.id != excludeId
         && e.connection == Connection(SameGenre, GenreNames(genres),
              groq.insight(originalTitle, e.movie.title, SameGenre.Reason(), GenreNames(genres)))
  }

  /** What both deployments promise about a successful report for `details`,
      when discovery excluded `excludeId`. */
  ghost predicate ReportInvariants(report: Report, details: Details, excludeId: int, groq: Groq) {
    var director := ExtractDirector(details.credits);
    var actor := ExtractLeadActor(details.credits);
    var writer := ExtractScreenwriter(details.credits);
    var title := details.movie.title;
    var recs := report.recommendations;
    && Presents(report.originalMovie.movie, details.movie)
    && report.originalMovie.director == DisplayName(director)
    && report.originalMovie.leadActor == DisplayName(actor)
    && report.originalMovie.screenwriter == DisplayName(writer)
    && PersonAxis(recs.byDirector, director, DirectorLink, excludeId, title, groq)
    && PersonAxis(recs.byActor, actor, LeadActorLink, excludeId, title, groq)
    && PersonAxis(recs.byWriter, writer, ScreenwriterLink, excludeId, title, groq)
    && SimilarAxis(recs.similarMovies, title, groq)
    && GenreAxis(recs.byGenre, details.genres, excludeId, title, groq)
  }

  /** The person a person axis is about. */
  function ExtractFor(credits: Option<Credits>, t: PersonType): Option<Person> {
    match t
    case DirectorType => ExtractDirector(credits)
    case ActorType => ExtractLeadActor(credits)
    case WriterType => ExtractScreenwriter(credits)
  }

  /** The list of a person axis. */
  function PersonList(recs: Recommendations, t: PersonType): seq<Recommended> {
    match t
    case DirectorType => recs.byDirector
    case ActorType => recs.byActor
    case WriterType => recs.byWriter
  }

  /** The provider's candidates for a person axis, or none without the person. */
  function PersonCandidates(tmdb: Tmdb, person: Option<Person>, t: PersonType, excludeId: int): seq<Movie> {
    if person.None? then [] else DiscoverMoviesByPerson(tmdb, person.value.id, t, excludeId, PersonLimit).value
  }

  /** Every axis lists its discovery result, one entry per candidate, in order. */
  ghost predicate FollowsProvider(
    recs: Recommendations, tmdb: Tmdb, movieId: int, genres: Option<seq<Genre>>,
    director: Option<Person>, actor: Option<Person>, writer: Option<Person>)
  {
    && Lists(recs.byDirector, PersonCandidates(tmdb, director, DirectorType, movieId))
    && Lists(recs.byActor, PersonCandidates(tmdb, actor, ActorType, movieId))
    && Lists(recs.byWriter, PersonCandidates(tmdb, writer, WriterType, movieId))
    && Lists(recs.similarMovies, GetSimilarMovies(tmdb, movieId, SimilarLimit).value)
    && Lists(recs.byGenre, GetMoviesByGenre(tmdb, genres, movieId, GenreLimit).value)
  }

  /** A person was looked up under role `t`. */
  predicate PersonLookedUp(requests: seq<Request>, t: PersonType) {
    exists r :: r in requests && r.DiscoverByPerson? && r.personType == t
  }

  predicate GenreLookedUp(requests: seq<Request>) {
    exists r :: r in requests && r.DiscoverByGenre?
  }

  /** The lookup of a person axis: one discovery for the person, or none. */
  function PersonTrace(person: Option<Person>, t: PersonType): (r: seq<Request>)
    ensures |r| <= 1 && (|r| == 1 <==> person.Some?)
    ensures forall q :: q in r ==> q == DiscoverByPerson(person.value.id, t)
  {
    if person.None? then [] else [DiscoverByPerson(person.value.id, t)]
  }

  /** The provider calls of the five axes, in the order they are issued:
      director, lead actor, screenwriter, similar, genre. */
  function AxesTrace(
    tmdb: Tmdb, movieId: int, genres: Option<seq<Genre>>,
    director: Option<Person>, actor: Option<Person>, writer: Option<Person>): seq<Request>
  {
    PersonTrace(director, DirectorType) + PersonTrace(actor, ActorType) + PersonTrace(writer, WriterType)
      + [FetchSimilar(movieId)] + GetMoviesByGenre(tmdb, genres, movieId, GenreLimit).requests
  }

  /** Every axis lists its discovery result for `movieId`; the provider calls
      are exactly those of the five axes, in order; a person is looked
      up exactly when the credits name one; the similar list is always fetched;
      the genre discovery runs exactly when there are genres. */
  ghost predicate GatheredFrom(f: Fetched<Recommendations>, tmdb: Tmdb, movieId: int, details: Details) {
    var director := ExtractDirector(details.credits);
    var actor := ExtractLeadActor(details.credits);
    var writer := ExtractScreenwriter(details.credits);
    && FollowsProvider(f.value, tmdb, movieId, details.genres, director, actor, writer)
    && f.requests == AxesTrace(tmdb, movieId, details.genres, director, actor, writer)
    && (PersonLookedUp(f.requests, DirectorType) <==> director.Some?)
    && (PersonLookedUp(f.requests, ActorType) <==> actor.Some?)
    && (PersonLookedUp(f.requests, WriterType) <==> writer.Some?)
    && FetchSimilar(movieId) in f.requests
    && (GenreLookedUp(f.requests) <==> details.genres.Some? && |details.genres.value| > 0)
  }

  /** Which lookups appear in the concatenated trace of the five axes. */
  lemma AxisTrace(requests: seq<Request>, d: seq<Request>, a: seq<Request>, w: seq<Request>, s: seq<Request>, g: seq<Request>)
    requires requests == d + a + w + s + g
    requires forall r :: r in d ==> r.DiscoverByPerson? && r.personType == DirectorType
    requires forall r :: r in a ==> r.DiscoverByPerson? && r.personType == ActorType
    requires forall r :: r in w ==> r.DiscoverByPerson? && r.personType == WriterType
    requires forall r :: r in s ==> r.FetchSimilar?
    requires forall r :: r in g ==> r.DiscoverByGenre?
    ensures PersonLookedUp(requests, DirectorType) <==> |d| > 0
    ensures PersonLookedUp(requests, ActorType) <==> |a| > 0
    ensures PersonLookedUp(requests, WriterType) <==> |w| > 0
    ensures GenreLookedUp(requests) <==> |g| > 0
  {
    if |d| > 0 { assert d[0] in requests; }
    if |a| > 0 { assert a[0] in requests; }
    if |w| > 0 { assert w[0] in requests; }
    if |g| > 0 { assert g[0] in requests; }
  }

  // The serverless handler first pairs each candidate with its name and
  // insight, then formats and labels them in `buildRecommendations`.

  datatype Annotated = Annotated(movie: Movie, name: string, insight: string)

  /** A similar-movie candidate: it carries no name. */
  datatype Explained = Explained(movie: Movie, insight: string)

  /** `entries` label `annotated` one for one under `kind`, keeping name and insight. */
  predicate LabelledFrom(entries: seq<Recommended>, annotated: seq<Annotated>, kind: ConnectionType) {
    && |entries| == |annotated|
    && forall i :: 0 <= i < |entries| ==>
         && Presents(entries[i].movie, annotated[i].movie)
         && entries[i].movie.voteCount.None?
         && entries[i].connection == Connection(kind, annotated[i].name, annotated[i].insight)
  }

  function LabelAll(annotated: seq<Annotated>, kind: ConnectionType): (entries: seq<Recommended>)
    ensures LabelledFrom(entries, annotated, kind)
  {
    seq(|annotated|, i requires 0 <= i < |annotated| =>
      Recommended(FormatMovie(annotated[i].movie), Connection(kind, annotated[i].name, annotated[i].insight)))
  }

  /** `buildRecommendations`: each list mapped element for element under its
      fixed connection type; a missing list becomes `[]`. */
  function BuildRecommendations(
    similar: Option<seq<Explained>>, director: Option<seq<Annotated>>, actor: Option<seq<Annotated>>,
    writer: Option<seq<Annotated>>, genres: Option<seq<Annotated>>): (r: Recommendations)
    ensures LabelledFrom(r.byDirector, director.GetOr([]), DirectorLink)
    ensures LabelledFrom(r.byActor, actor.GetOr([]), LeadActorLink)
    ensures LabelledFrom(r.byWriter, writer.GetOr([]), ScreenwriterLink)
    ensures LabelledFrom(r.byGenre, genres.GetOr([]), SameGenre)
    ensures var s := similar.GetOr([]);
      && |r.similarMovies| == |s|
      && forall i :: 0 <= i < |s| ==>
           && Presents(r.similarMovies[i].movie, s[i].movie)
           && r.similarMovies[i].movie.voteCount.None?
           && r.similarMovies[i].connection == Connection(SimilarTheme, SimilarName, s[i].insight)
  {
    var s := similar.GetOr([]);
    Recommendations(
      LabelAll(director.GetOr([]), DirectorLink),
      LabelAll(actor.GetOr([]), LeadActorLink),
      LabelAll(writer.GetOr([]), ScreenwriterLink),
      seq(|s|, i requires 0 <= i < |s| =>
        Recommended(FormatMovie(s[i].movie), Connection(SimilarTheme, SimilarName, s[i].insight))),
      LabelAll(genres.GetOr([]), SameGenre))
  }
}
