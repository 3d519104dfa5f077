/** The two deployments build the same report. Each deployment has its own
    language-model client, with different prompts and fallbacks, so the
    generated analysis and insight texts may differ. Apart from those texts,
    two reports that satisfy the report invariants and follow the provider for
    the same details and excluded id agree: the same entries under the same
    connection types and names, and the same display names. They differ at
    most in the vote counts, which only the standalone service keeps. */
module Agreement {
  import opened Wrappers
  import opened Movies
  import opened Extraction
  import opened Format
  import opened Discovery
  import opened Recommend

  /** The summaries agree on every field but the vote count. */
  predicate SameSummary(s: Summary, t: Summary) {
    s.(voteCount := None) == t.(voteCount := None)
  }

  /** Entry for entry the same movie, up to the vote count, under the same
      connection type and name; the insight texts are not compared. */
  predicate SameEntries(a: seq<Recommended>, b: seq<Recommended>) {
    && |a| == |b|
    && forall i :: 0 <= i < |a| ==>
         && SameSummary(a[i].movie, b[i].movie)
         && a[i].connection.kind == b[i].connection.kind
         && a[i].connection.name == b[i].connection.name
  }

  /** Two presentations of the same record agree up to the vote count. */
  lemma PresentsSame(s: Summary, t: Summary, m: Movie)
    requires Presents(s, m) && Presents(t, m)
    ensures SameSummary(s, t)
  {
  }

  lemma PersonEntriesAgree(
    a: seq<Recommended>, b: seq<Recommended>, movies: seq<Movie>, person: Option<Person>,
    kind: ConnectionType, excludeId: int, title: string, groq1: Groq, groq2: Groq)
    requires Lists(a, movies) && Lists(b, movies)
    requires PersonAxis(a, person, kind, excludeId, title, groq1)
    requires PersonAxis(b, person, kind, excludeId, title, groq2)
    ensures SameEntries(a, b)
  {
    forall i | 0 <= i < |a|
      ensures SameSummary(a[i].movie, b[i].movie) && a[i].connection.kind == b[i].connection.kind && a[i].connection.name == b[i].connection.name
    {
      PresentsSame(a[i].movie, b[i].movie, movies[i]);
      assert a[i] in a && b[i] in b;
    }
  }

  lemma SimilarEntriesAgree(a: seq<Recommended>, b: seq<Recommended>, movies: seq<Movie>, title: string, groq1: Groq, groq2: Groq)
    requires Lists(a, movies) && Lists(b, movies)
    requires SimilarAxis(a, title, groq1) && SimilarAxis(b, title, groq2)
    ensures SameEntries(a, b)
  {
    forall i | 0 <= i < |a|
      ensures SameSummary(a[i].movie, b[i].movie) && a[i].connection.kind == b[i].connection.kind && a[i].connection.name == b[i].connection.name
    {
      PresentsSame(a[i].movie, b[i].movie, movies[i]);
      assert a[i] in a && b[i] in b;
    }
  }

  lemma GenreEntriesAgree(
    a: seq<Recommended>, b: seq<Recommended>, movies: seq<Movie>, genres: Option<seq<Genre>>,
    excludeId: int, title: string, groq1: Groq, groq2: Groq)
    requires Lists(a, movies) && Lists(b, movies)
    requires GenreAxis(a, genres, excludeId, title, groq1) && GenreAxis(b, genres, excludeId, title, groq2)
    ensures SameEntries(a, b)
  {
    forall i | 0 <= i < |a|
      ensures SameSummary(a[i].movie, b[i].movie) && a[i].connection.kind == b[i].connection.kind && a[i].connection.name == b[i].connection.name
    {
      PresentsSame(a[i].movie, b[i].movie, movies[i]);
      assert a[i] in a && b[i] in b;
    }
  }

  /** Reports gathered for the same details, excluding the same id, agree on
      everything but vote counts and the generated texts, whichever
      language-model client each deployment used. */
  lemma DeploymentsAgree(
    r1: Report, r2: Report, requests1: seq<Request>, requests2: seq<Request>,
    tmdb: Tmdb, groq1: Groq, groq2: Groq, details: Details, excludeId: int)
    requires ReportInvariants(r1, details, excludeId, groq1)
    requires ReportInvariants(r2, details, excludeId, groq2)
    requires GatheredFrom(Fetched(r1.recommendations, requests1), tmdb, excludeId, details)
    requires GatheredFrom(Fetched(r2.recommendations, requests2), tmdb, excludeId, details)
    ensures SameSummary(r1.originalMovie.movie, r2.originalMovie.movie)
    ensures r1.originalMovie.director == r2.originalMovie.director
    ensures r1.originalMovie.leadActor == r2.originalMovie.leadActor
    ensures r1.originalMovie.screenwriter == r2.originalMovie.screenwriter
    ensures SameEntries(r1.recommendations.byDirector, r2.recommendations.byDirector)
    ensures SameEntries(r1.recommendations.byActor, r2.recommendations.byActor)
    ensures SameEntries(r1.recommendations.byWriter, r2.recommendations.byWriter)
    ensures SameEntries(r1.recommendations.similarMovies, r2.recommendations.similarMovies)
    ensures SameEntries(r1.recommendations.byGenre, r2.recommendations.byGenre)
  {
    var c := details.credits;
    var title := details.movie.title;
    var x := r1.recommendations;
    var y := r2.recommendations;
    PresentsSame(r1.originalMovie.movie, r2.originalMovie.movie, details.movie);
    PersonEntriesAgree(x.byDirector, y.byDirector, PersonCandidates(tmdb, ExtractDirector(c), DirectorType, excludeId),
      ExtractDirector(c), DirectorLink, excludeId, title, groq1, groq2);
    PersonEntriesAgree(x.byActor, y.byActor, PersonCandidates(tmdb, ExtractLeadActor(c), ActorType, excludeId),
      ExtractLeadActor(c), LeadActorLink, excludeId, title, groq1, groq2);
    PersonEntriesAgree(x.byWriter, y.byWriter, PersonCandidates(tmdb, ExtractScreenwriter(c), WriterType, excludeId),
      ExtractScreenwriter(c), ScreenwriterLink, excludeId, title, groq1, groq2);
    SimilarEntriesAgree(x.similarMovies, y.similarMovies, GetSimilarMovies(tmdb, excludeId, SimilarLimit).value, title, groq1, groq2);
    GenreEntriesAgree(x.byGenre, y.byGenre, GetMoviesByGenre(tmdb, details.genres, excludeId, GenreLimit).value,
      details.genres, excludeId, title, groq1, groq2);
  }
}
