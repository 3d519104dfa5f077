/** The standalone service (server/services/movieDNA.js): `analyzeMovieDNA`
    and `getRecommendations`. Each axis is built by a loop that pushes one
    formatted, labelled entry per discovered movie; the axes run one after
    another. */
module Service {
  import opened Wrappers
  import opened Seqs
  import opened Movies
  import opened Extraction
  import opened Format
  import opened Discovery
  import opened Recommend

  /** `entries` are the standalone formatting of `movies`, one for one and in
      order, vote counts included. */
  predicate ListsWithVotes(entries: seq<Recommended>, movies: seq<Movie>) {
    |entries| == |movies| && forall i :: 0 <= i < |entries| ==> entries[i].movie == FormatMovieData(movies[i])
  }

  /** Every list of the service's recommendations is the standalone formatting
      of its discovery result. */
  ghost predicate ServiceListed(
    recs: Recommendations, tmdb: Tmdb, movieId: int, genres: Option<seq<Genre>>,
    director: Option<Person>, actor: Option<Person>, writer: Option<Person>)
  {
    && ListsWithVotes(recs.byDirector, PersonCandidates(tmdb, director, DirectorType, movieId))
    && ListsWithVotes(recs.byActor, PersonCandidates(tmdb, actor, ActorType, movieId))
    && ListsWithVotes(recs.byWriter, PersonCandidates(tmdb, writer, WriterType, movieId))
    && ListsWithVotes(recs.similarMovies, GetSimilarMovies(tmdb, movieId, SimilarLimit).value)
    && ListsWithVotes(recs.byGenre, GetMoviesByGenre(tmdb, genres, movieId, GenreLimit).value)
  }

  /** The standalone formatting presents every candidate, so a service report
      follows the provider as the invariants require. */
  lemma ListedFollows(
    recs: Recommendations, tmdb: Tmdb, movieId: int, genres: Option<seq<Genre>>,
    director: Option<Person>, actor: Option<Person>, writer: Option<Person>)
    requires ServiceListed(recs, tmdb, movieId, genres, director, actor, writer)
    ensures FollowsProvider(recs, tmdb, movieId, genres, director, actor, writer)
  {
  }

  /** The push loop of one axis: for each movie, in order, its insight and then
      an entry with the vote count kept. `subject` is what the insight prompt
      names; `name` is what the connection shows. */
  method ConnectAll(
    movies: seq<Movie>, kind: ConnectionType, name: string, subject: string,
    originalTitle: string, groq: Groq)
    returns (entries: seq<Recommended>)
    ensures Lists(entries, movies)
    ensures forall i :: 0 <= i < |entries| ==>
      && entries[i].movie == FormatMovieData(movies[i])
      && entries[i].connection == Connection(kind, name, groq.insight(originalTitle, movies[i].title, kind.Reason(), subject))
  {
    entries := [];
    var k := 0;
    while k < |movies|
      invariant 0 <= k <= |movies|
      invariant |entries| == k
      invariant forall i :: 0 <= i < k ==>
        entries[i] == Recommended(FormatMovieData(movies[i]),
          Connection(kind, name, groq.insight(originalTitle, movies[i].title, kind.Reason(), subject)))
    {
      var insight := groq.insight(originalTitle, movies[k].title, kind.Reason(), subject);
      entries := entries + [Recommended(FormatMovieData(movies[k]), Connection(kind, name, insight))];
      k := k + 1;
    }
  }

  /** `if (person) { ... }`: no person, no lookup and no entries. */
  method PersonAxisOf(
    tmdb: Tmdb, groq: Groq, person: Option<Person>, t: PersonType,
    originalMovieId: int, originalTitle: string)
    returns (entries: seq<Recommended>, requests: seq<Request>)
    ensures PersonAxis(entries, person, AxisOf(t), originalMovieId, originalTitle, groq)
    ensures Lists(entries, PersonCandidates(tmdb, person, t, originalMovieId))
    ensures ListsWithVotes(entries, PersonCandidates(tmdb, person, t, originalMovieId))
    ensures person.None? ==> requests == []
    ensures person.Some? ==> requests == [DiscoverByPerson(person.value.id, t)]
  {
    entries := [];
    requests := [];
    if person.Some? {
      var p := person.value;
      var found := ServiceDiscoverMoviesByPerson(tmdb, p.id, t, originalMovieId, PersonLimit);
      DiscoverByPersonAgree(tmdb, p.id, t, originalMovieId, PersonLimit);
      entries := ConnectAll(found.value, AxisOf(t), p.name, p.name, originalTitle, groq);
      requests := found.requests;
      forall e | e in entries
        ensures e.movie.id != originalMovieId
      {
        var i :| 0 <= i < |entries| && entries[i] == e;
        assert found.value[i] in found.value;
      }
    }
  }

  /** The similar axis, fetched unconditionally. */
  method SimilarAxisOf(tmdb: Tmdb, groq: Groq, originalMovieId: int, originalTitle: string)
    returns (entries: seq<Recommended>, requests: seq<Request>)
    ensures SimilarAxis(entries, originalTitle, groq)
    ensures Lists(entries, GetSimilarMovies(tmdb, originalMovieId, SimilarLimit).value)
    ensures ListsWithVotes(entries, GetSimilarMovies(tmdb, originalMovieId, SimilarLimit).value)
    ensures requests == [FetchSimilar(originalMovieId)]
  {
    var found := ServiceGetSimilarMovies(tmdb, originalMovieId, SimilarLimit);
    SimilarAgree(tmdb, originalMovieId, SimilarLimit);
    entries := ConnectAll(found.value, SimilarTheme, SimilarName, SimilarSubject, originalTitle, groq);
    requests := found.requests;
  }

  /** `if (genres && genres.length > 0) { ... }`: the genre ids go to the
      provider, the joined genre names become the connection name. */
  method GenreAxisOf(
    tmdb: Tmdb, groq: Groq, genres: Option<seq<Genre>>, originalMovieId: int, originalTitle: string)
    returns (entries: seq<Recommended>, requests: seq<Request>)
    ensures GenreAxis(entries, genres, originalMovieId, originalTitle, groq)
    ensures Lists(entries, GetMoviesByGenre(tmdb, genres, originalMovieId, GenreLimit).value)
    ensures ListsWithVotes(entries, GetMoviesByGenre(tmdb, genres, originalMovieId, GenreLimit).value)
    ensures requests == GetMoviesByGenre(tmdb, genres, originalMovieId, GenreLimit).requests
  {
    entries := [];
    requests := [];
    if genres.Some? && |genres.value| > 0 {
      var found := ServiceGetMoviesByGenre(tmdb, Some(GenreIds(genres.value)), originalMovieId, GenreLimit);
      GenreAgree(tmdb, genres, originalMovieId, GenreLimit);
      var names := Join(GenreNameList(genres.value), ", ");
      entries := ConnectAll(found.value, SameGenre, names, names, originalTitle, groq);
      requests := found.requests;
      forall e | e in entries
        ensures e.movie.id != originalMovieId
      {
        var i :| 0 <= i < |entries| && entries[i] == e;
        assert found.value[i] in found.value;
      }
    }
  }

  /** `getRecommendations`: the five axes in order, excluding `originalMovieId`. */
  method GetRecommendations(
    tmdb: Tmdb, groq: Groq, originalMovieId: int, originalTitle: string, genres: Option<seq<Genre>>,
    director: Option<Person>, leadActor: Option<Person>, screenwriter: Option<Person>)
    returns (recs: Recommendations, requests: seq<Request>)
    ensures PersonAxis(recs.byDirector, director, DirectorLink, originalMovieId, originalTitle, groq)
    ensures PersonAxis(recs.byActor, leadActor, LeadActorLink, originalMovieId, originalTitle, groq)
    ensures PersonAxis(recs.byWriter, screenwriter, ScreenwriterLink, originalMovieId, originalTitle, groq)
    ensures SimilarAxis(recs.similarMovies, originalTitle, groq)
    ensures GenreAxis(recs.byGenre, genres, originalMovieId, originalTitle, groq)
    ensures ServiceListed(recs, tmdb, originalMovieId, genres, director, leadActor, screenwriter)
    ensures requests == AxesTrace(tmdb, originalMovieId, genres, director, leadActor, screenwriter)
    ensures PersonLookedUp(requests, DirectorType) <==> director.Some?
    ensures PersonLookedUp(requests, ActorType) <==> leadActor.Some?
    ensures PersonLookedUp(requests, WriterType) <==> screenwriter.Some?
    ensures FetchSimilar(originalMovieId) in requests
    ensures GenreLookedUp(requests) <==> genres.Some? && |genres.value| > 0
  {
    var byDirector, d := PersonAxisOf(tmdb, groq, director, DirectorType, originalMovieId, originalTitle);
    var byActor, a := PersonAxisOf(tmdb, groq, leadActor, ActorType, originalMovieId, originalTitle);
    var byWriter, w := PersonAxisOf(tmdb, groq, screenwriter, WriterType, originalMovieId, originalTitle);
    var similar, s := SimilarAxisOf(tmdb, groq, originalMovieId, originalTitle);
    var byGenre, g := GenreAxisOf(tmdb, groq, genres, originalMovieId, originalTitle);
    recs := Recommendations(byDirector, byActor, byWriter, similar, byGenre);
    requests := d + a + w + s + g;
    AxisTrace(requests, d, a, w, s, g);
    assert s[0] in requests;
  }

  /** `analyzeMovieDNA`: the not-found error when the search is empty; else the
      report for the first hit, with discovery excluding the search hit's id. */
  method AnalyzeMovieDna(tmdb: Tmdb, groq: Groq, movieTitle: string)
    returns (result: Result<Report, string>, requests: seq<Request>)
    ensures result.Success? <==> tmdb.search(movieTitle).Some? && |tmdb.search(movieTitle).value| > 0
    ensures result.Failure? ==> result.error == NotFoundMessage(movieTitle) && requests == [SearchTitle(movieTitle)]
    ensures result.Success? ==>
      var hit := tmdb.search(movieTitle).value[0];
      var details := tmdb.details(hit.id);
      var report := result.value;
      && ReportInvariants(report, details, hit.id, groq)
      && report.originalMovie.movie == FormatMovieData(details.movie)
      && report.originalMovie.aiAnalysis == groq.analyze(FormatMovieData(details.movie),
           ExtractDirector(details.credits), ExtractLeadActor(details.credits), ExtractScreenwriter(details.credits))
      && |requests| >= 2
      && requests[..2] == [SearchTitle(movieTitle), FetchDetails(hit.id)]
      && GatheredFrom(Fetched(report.recommendations, requests[2..]), tmdb, hit.id, details)
      && ServiceListed(report.recommendations, tmdb, hit.id, details.genres,
           ExtractDirector(details.credits), ExtractLeadActor(details.credits), ExtractScreenwriter(details.credits))
  {
    var search := SearchMovie(tmdb, movieTitle);
    if search.value.Failure? {
      return Failure(search.value.error), search.requests;
    }
    var hit := search.value.value;
    var details := tmdb.details(hit.id);
    var director := ExtractDirector(details.credits);
    var leadActor := ExtractLeadActor(details.credits);
    var screenwriter := ExtractScreenwriter(details.credits);
    var aiAnalysis := groq.analyze(FormatMovieData(details.movie), director, leadActor, screenwriter);
    var recs, found := GetRecommendations(
      tmdb, groq, hit.id, details.movie.title, details.genres, director, leadActor, screenwriter);
    ListedFollows(recs, tmdb, hit.id, details.genres, director, leadActor, screenwriter);
    var original := OriginalMovie(
      FormatMovieData(details.movie), DisplayName(director), DisplayName(leadActor), DisplayName(screenwriter), aiAnalysis);
    result := Success(Report(original, recs));
    requests := search.requests + [FetchDetails(hit.id)] + found;
    assert requests[2..] == found;
  }
}
