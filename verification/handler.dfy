/** The serverless entry point (api/movie-dna.js): request validation, the
    lookups, per-candidate insights, and report assembly. The concurrent
    fan-out is modelled in the order the calls are issued. */
module Handler {
  import opened Wrappers
  import opened Movies
  import opened Extraction
  import opened Format
  import opened Discovery
  import opened Recommend

  datatype RequestBody = RequestBody(movieTitle: Option<string>)

  datatype HttpRequest = HttpRequest(verb: string, body: Option<RequestBody>)

  /** The two provider credentials read from the environment. */
  datatype ApiKeys = ApiKeys(tmdbKey: Option<string>, groqKey: Option<string>)

  datatype HttpResponse =
    | Json(status: int, report: Report)
    | JsonError(status: int, error: string)
    | Empty(status: int)

  /** The response together with the metadata requests made to produce it. */
  datatype Handled = Handled(response: HttpResponse, requests: seq<Request>)

  /** `(req.body || {}).movieTitle` */
  function TitleOf(req: HttpRequest): Option<string> {
    if req.body.None? then None else req.body.value.movieTitle
  }

  /** The request gets past all three checks. */
  predicate Accepted(req: HttpRequest, keys: ApiKeys) {
    req.verb == "POST" && Truthy(keys.tmdbKey) && Truthy(keys.groqKey) && Truthy(TitleOf(req))
  }

  /** A person axis: no person, no lookup; otherwise each discovered movie
      paired with the person's name and its generated insight. */
  function AnnotatePerson(tmdb: Tmdb, groq: Groq, person: Option<Person>, t: PersonType, details: Details)
    : (f: Fetched<seq<Annotated>>)
    ensures person.None? ==> f.value == [] && f.requests == []
    ensures person.Some? ==> f.requests == [DiscoverByPerson(person.value.id, t)]
  {
    if person.None? then Fetched([], [])
    else
      var p := person.value;
      var found := DiscoverMoviesByPerson(tmdb, p.id, t, details.movie.id, PersonLimit);
      Fetched(
        seq(|found.value|, i requires 0 <= i < |found.value| =>
          Annotated(found.value[i], p.name, groq.insight(details.movie.title, found.value[i].title, AxisOf(t).Reason(), p.name))),
        found.requests)
  }

  /** The similar axis: each similar movie with its generated insight. */
  function ExplainSimilar(tmdb: Tmdb, groq: Groq, details: Details): (f: Fetched<seq<Explained>>)
    ensures f.requests == [FetchSimilar(details.movie.id)]
  {
    var found := GetSimilarMovies(tmdb, details.movie.id, SimilarLimit);
    Fetched(
      seq(|found.value|, i requires 0 <= i < |found.value| =>
        Explained(found.value[i], groq.insight(details.movie.title, found.value[i].title, SimilarTheme.Reason(), SimilarSubject))),
      found.requests)
  }

  /** The genre axis: each genre match named by the joined genre names. */
  function AnnotateGenre(tmdb: Tmdb, groq: Groq, details: Details): (f: Fetched<seq<Annotated>>)
    ensures f.requests == GetMoviesByGenre(tmdb, details.genres, details.movie.id, GenreLimit).requests
  {
    var names := GenreNames(details.genres);
    var found := GetMoviesByGenre(tmdb, details.genres, details.movie.id, GenreLimit);
    Fetched(
      seq(|found.value|, i requires 0 <= i < |found.value| =>
        Annotated(found.value[i], names, groq.insight(details.movie.title, found.value[i].title, SameGenre.Reason(), names))),
      found.requests)
  }

  /** Annotation keeps the discovery result's order and length, and pairs each
      candidate with the person's name and the insight generated for it. */
  lemma AnnotatePersonShape(tmdb: Tmdb, groq: Groq, person: Option<Person>, t: PersonType, details: Details)
    ensures var f := AnnotatePerson(tmdb, groq, person, t, details).value;
      var found := PersonCandidates(tmdb, person, t, details.movie.id);
      && |f| == |found| <= PersonLimit
      && forall i :: 0 <= i < |found| ==>
           && person.Some?
           && f[i].movie == found[i]
           && f[i].movie.id != details.movie.id
           && f[i].name == person.value.name
           && f[i].insight == groq.insight(details.movie.title, found[i].title, AxisOf(t).Reason(), person.value.name)
  {
    var found := PersonCandidates(tmdb, person, t, details.movie.id);
    assert forall i :: 0 <= i < |found| ==> found[i] in found;
  }

  lemma ExplainSimilarShape(tmdb: Tmdb, groq: Groq, details: Details)
    ensures var f := ExplainSimilar(tmdb, groq, details).value;
      var found := GetSimilarMovies(tmdb, details.movie.id, SimilarLimit).value;
      && |f| == |found| <= SimilarLimit
      && forall i :: 0 <= i < |found| ==>
           && f[i].movie == found[i]
           && f[i].insight == groq.insight(details.movie.title, found[i].title, SimilarTheme.Reason(), SimilarSubject)
  {
  }

  lemma AnnotateGenreShape(tmdb: Tmdb, groq: Groq, details: Details)
    ensures var f := AnnotateGenre(tmdb, groq, details).value;
      var found := GetMoviesByGenre(tmdb, details.genres, details.movie.id, GenreLimit).value;
      && |f| == |found| <= GenreLimit
      && forall i :: 0 <= i < |found| ==>
           && f[i].movie == found[i]
           && f[i].movie.id != details.movie.id
           && f[i].name == GenreNames(details.genres)
           && f[i].insight == groq.insight(details.movie.title, found[i].title, SameGenre.Reason(), GenreNames(details.genres))
  {
    var found := GetMoviesByGenre(tmdb, details.genres, details.movie.id, GenreLimit).value;
    assert forall i :: 0 <= i < |found| ==> found[i] in found;
  }

  /** The body of the `try` block for an accepted title: the not-found error
      when the search comes back empty, else the report for the first hit. */
  function Analyze(tmdb: Tmdb, groq: Groq, title: string): (h: Handled)
    ensures h.response.Json? <==> tmdb.search(title).Some? && |tmdb.search(title).value| > 0
    ensures !h.response.Json? ==> h == Handled(JsonError(500, NotFoundMessage(title)), [SearchTitle(title)])
    ensures h.response.Json? ==>
      var hit := tmdb.search(title).value[0];
      var r := Respond(tmdb, groq, tmdb.details(hit.id));
      && h.response == r.response
      && h.requests == [SearchTitle(title), FetchDetails(hit.id)] + r.requests
  {
    var search := SearchMovie(tmdb, title);
    if search.value.Failure? then Handled(JsonError(500, search.value.error), search.requests)
    else
      var hit := search.value.value;
      var r := Respond(tmdb, groq, tmdb.details(hit.id));
      Handled(r.response, search.requests + [FetchDetails(hit.id)] + r.requests)
  }

  /** What a successful serverless response promises about the movie's details:
      the report invariants with the details' own id excluded, the analysis
      generated for the formatted movie, and the axis facts of `GatheredFrom`. */
  ghost predicate ReportFor(h: Handled, tmdb: Tmdb, groq: Groq, details: Details) {
    var director := ExtractDirector(details.credits);
    var actor := ExtractLeadActor(details.credits);
    var writer := ExtractScreenwriter(details.credits);
    && h.response.Json?
    && h.response.status == 200
    && ReportInvariants(h.response.report, details, details.movie.id, groq)
    && h.response.report.originalMovie.movie == FormatMovie(details.movie)
    && h.response.report.originalMovie.aiAnalysis == groq.analyze(FormatMovie(details.movie), director, actor, writer)
    && GatheredFrom(Fetched(h.response.report.recommendations, h.requests), tmdb, details.movie.id, details)
  }

  /** The five axes as gathered have every per-axis shape and trace property. */
  lemma GatherProperties(tmdb: Tmdb, groq: Groq, details: Details)
    ensures var f := Gather(tmdb, groq, details);
      var title := details.movie.title;
      && GatheredFrom(f, tmdb, details.movie.id, details)
      && PersonAxis(f.value.byDirector, ExtractDirector(details.credits), DirectorLink, details.movie.id, title, groq)
      && PersonAxis(f.value.byActor, ExtractLeadActor(details.credits), LeadActorLink, details.movie.id, title, groq)
      && PersonAxis(f.value.byWriter, ExtractScreenwriter(details.credits), ScreenwriterLink, details.movie.id, title, groq)
      && SimilarAxis(f.value.similarMovies, title, groq)
      && GenreAxis(f.value.byGenre, details.genres, details.movie.id, title, groq)
  {
    GatherPersonAxis(tmdb, groq, details, DirectorType);
    GatherPersonAxis(tmdb, groq, details, ActorType);
    GatherPersonAxis(tmdb, groq, details, WriterType);
    GatherSimilarAxis(tmdb, groq, details);
    GatherGenreAxis(tmdb, groq, details);
    GatherPersonTrace(tmdb, groq, details, DirectorType);
    GatherPersonTrace(tmdb, groq, details, ActorType);
    GatherPersonTrace(tmdb, groq, details, WriterType);
    GatherTrace(tmdb, groq, details);
    GatherExactTrace(tmdb, groq, details);
  }

  /** Extraction, analysis, the five axes and assembly, once the details are in hand. */
  function Respond(tmdb: Tmdb, groq: Groq, details: Details): (h: Handled)
    ensures ReportFor(h, tmdb, groq, details)
  {
    ExtractorsAgree(details.credits);
    var director := ChainedDirector(details.credits);
    var actor := ChainedLeadActor(details.credits);
    var writer := ChainedScreenwriter(details.credits);
    var aiAnalysis := groq.analyze(FormatMovie(details.movie), director, actor, writer);
    var recs := Gather(tmdb, groq, details);
    GatherProperties(tmdb, groq, details);
    var original := OriginalMovie(
      FormatMovie(details.movie), DisplayName(director), DisplayName(actor), DisplayName(writer), aiAnalysis);
    Handled(Json(200, Report(original, recs.value)), recs.requests)
  }

  /** The five axes, discovered and annotated in the order the calls are issued,
      then formatted and labelled. */
  function Gather(tmdb: Tmdb, groq: Groq, details: Details): Fetched<Recommendations> {
    ExtractorsAgree(details.credits);
    var d := AnnotatePerson(tmdb, groq, ChainedDirector(details.credits), DirectorType, details);
    var a := AnnotatePerson(tmdb, groq, ChainedLeadActor(details.credits), ActorType, details);
    var w := AnnotatePerson(tmdb, groq, ChainedScreenwriter(details.credits), WriterType, details);
    var s := ExplainSimilar(tmdb, groq, details);
    var g := AnnotateGenre(tmdb, groq, details);
    var recs := BuildRecommendations(Some(s.value), Some(d.value), Some(a.value), Some(w.value), Some(g.value));
    Fetched(recs, d.requests + a.requests + w.requests + s.requests + g.requests)
  }

  /** Each person axis of the gathered recommendations has the person-axis
      shape and lists the person's discovery result. */
  lemma GatherPersonAxis(tmdb: Tmdb, groq: Groq, details: Details, t: PersonType)
    ensures var person := ExtractFor(details.credits, t);
      var entries := PersonList(Gather(tmdb, groq, details).value, t);
      && PersonAxis(entries, person, AxisOf(t), details.movie.id, details.movie.title, groq)
      && Lists(entries, PersonCandidates(tmdb, person, t, details.movie.id))
  {
    ExtractorsAgree(details.credits);
    var person := ExtractFor(details.credits, t);
    var annotated := AnnotatePerson(tmdb, groq, person, t, details).value;
    var entries := PersonList(Gather(tmdb, groq, details).value, t);
    assert LabelledFrom(entries, annotated, AxisOf(t));
    PersonAxisLabelled(tmdb, groq, details, person, t, entries);
  }

  lemma GatherSimilarAxis(tmdb: Tmdb, groq: Groq, details: Details)
    ensures var entries := Gather(tmdb, groq, details).value.similarMovies;
      && SimilarAxis(entries, details.movie.title, groq)
      && Lists(entries, GetSimilarMovies(tmdb, details.movie.id, SimilarLimit).value)
  {
    SimilarAxisLabelled(tmdb, groq, details, Gather(tmdb, groq, details).value.similarMovies);
  }

  lemma GatherGenreAxis(tmdb: Tmdb, groq: Groq, details: Details)
    ensures var entries := Gather(tmdb, groq, details).value.byGenre;
      && GenreAxis(entries, details.genres, details.movie.id, details.movie.title, groq)
      && Lists(entries, GetMoviesByGenre(tmdb, details.genres, details.movie.id, GenreLimit).value)
  {
    GenreAxisLabelled(tmdb, groq, details, Gather(tmdb, groq, details).value.byGenre);
  }

  /** The requests of a person axis: one discovery under its own role, if any. */
  lemma PersonRequests(tmdb: Tmdb, groq: Groq, details: Details, t: PersonType)
    ensures var requests := AnnotatePerson(tmdb, groq, ExtractFor(details.credits, t), t, details).requests;
      && (|requests| > 0 <==> ExtractFor(details.credits, t).Some?)
      && forall r :: r in requests ==> r.DiscoverByPerson? && r.personType == t
  {
  }

  /** A person is looked up exactly when the credits name one. */
  lemma GatherPersonTrace(tmdb: Tmdb, groq: Groq, details: Details, t: PersonType)
    ensures PersonLookedUp(Gather(tmdb, groq, details).requests, t) <==> ExtractFor(details.credits, t).Some?
  {
    ExtractorsAgree(details.credits);
    PersonRequests(tmdb, groq, details, DirectorType);
    PersonRequests(tmdb, groq, details, ActorType);
    PersonRequests(tmdb, groq, details, WriterType);
    var d := AnnotatePerson(tmdb, groq, ExtractDirector(details.credits), DirectorType, details).requests;
    var a := AnnotatePerson(tmdb, groq, ExtractLeadActor(details.credits), ActorType, details).requests;
    var w := AnnotatePerson(tmdb, groq, ExtractScreenwriter(details.credits), WriterType, details).requests;
    var s := ExplainSimilar(tmdb, groq, details).requests;
    var g := AnnotateGenre(tmdb, groq, details).requests;
    AxisTrace(Gather(tmdb, groq, details).requests, d, a, w, s, g);
  }

  /** The gathered calls are exactly those of the five axes, in issue order. */
  lemma GatherExactTrace(tmdb: Tmdb, groq: Groq, details: Details)
    ensures Gather(tmdb, groq, details).requests == AxesTrace(tmdb, details.movie.id, details.genres,
      ExtractDirector(details.credits), ExtractLeadActor(details.credits), ExtractScreenwriter(details.credits))
  {
    ExtractorsAgree(details.credits);
  }

  /** The similar list is always fetched; the genre discovery runs exactly when there are genres. */
  lemma GatherTrace(tmdb: Tmdb, groq: Groq, details: Details)
    ensures var requests := Gather(tmdb, groq, details).requests;
      && FetchSimilar(details.movie.id) in requests
      && (GenreLookedUp(requests) <==> details.genres.Some? && |details.genres.value| > 0)
  {
    ExtractorsAgree(details.credits);
    PersonRequests(tmdb, groq, details, DirectorType);
    PersonRequests(tmdb, groq, details, ActorType);
    PersonRequests(tmdb, groq, details, WriterType);
    var d := AnnotatePerson(tmdb, groq, ExtractDirector(details.credits), DirectorType, details).requests;
    var a := AnnotatePerson(tmdb, groq, ExtractLeadActor(details.credits), ActorType, details).requests;
    var w := AnnotatePerson(tmdb, groq, ExtractScreenwriter(details.credits), WriterType, details).requests;
    var s := ExplainSimilar(tmdb, groq, details).requests;
    var g := AnnotateGenre(tmdb, groq, details).requests;
    AxisTrace(Gather(tmdb, groq, details).requests, d, a, w, s, g);
    assert s[0] in Gather(tmdb, groq, details).requests;
  }

  /** Formatting and labelling an annotated person axis yields the person axis shape. */
  lemma PersonAxisLabelled(
    tmdb: Tmdb, groq: Groq, details: Details, person: Option<Person>, t: PersonType, entries: seq<Recommended>)
    requires LabelledFrom(entries, AnnotatePerson(tmdb, groq, person, t, details).value, AxisOf(t))
    ensures PersonAxis(entries, person, AxisOf(t), details.movie.id, details.movie.title, groq)
    ensures Lists(entries, PersonCandidates(tmdb, person, t, details.movie.id))
  {
    var annotated := AnnotatePerson(tmdb, groq, person, t, details).value;
    AnnotatePersonShape(tmdb, groq, person, t, details);
    forall e | e in entries
      ensures person.Some? && e.movie.id != details.movie.id
      ensures e.connection == Connection(AxisOf(t), person.value.name,
        groq.insight(details.movie.title, e.movie.title, AxisOf(t).Reason(), person.value.name))
    {
      var i :| 0 <= i < |entries| && entries[i] == e;
      assert Presents(e.movie, annotated[i].movie);
    }
  }

  lemma SimilarAxisLabelled(tmdb: Tmdb, groq: Groq, details: Details, entries: seq<Recommended>)
    requires var s := ExplainSimilar(tmdb, groq, details).value;
      && |entries| == |s|
      && forall i :: 0 <= i < |s| ==>
           && Presents(entries[i].movie, s[i].movie)
           && entries[i].connection == Connection(SimilarTheme, SimilarName, s[i].insight)
    ensures SimilarAxis(entries, details.movie.title, groq)
    ensures Lists(entries, GetSimilarMovies(tmdb, details.movie.id, SimilarLimit).value)
  {
    var s := ExplainSimilar(tmdb, groq, details).value;
    ExplainSimilarShape(tmdb, groq, details);
    forall e | e in entries
      ensures e.connection == Connection(SimilarTheme, SimilarName,
        groq.insight(details.movie.title, e.movie.title, SimilarTheme.Reason(), SimilarSubject))
    {
      var i :| 0 <= i < |entries| && entries[i] == e;
      assert Presents(e.movie, s[i].movie);
    }
  }

  lemma GenreAxisLabelled(tmdb: Tmdb, groq: Groq, details: Details, entries: seq<Recommended>)
    requires LabelledFrom(entries, AnnotateGenre(tmdb, groq, details).value, SameGenre)
    ensures GenreAxis(entries, details.genres, details.movie.id, details.movie.title, groq)
    ensures Lists(entries, GetMoviesByGenre(tmdb, details.genres, details.movie.id, GenreLimit).value)
  {
    var annotated := AnnotateGenre(tmdb, groq, details).value;
    AnnotateGenreShape(tmdb, groq, details);
    forall e | e in entries
      ensures e.movie.id != details.movie.id
      ensures e.connection == Connection(SameGenre, GenreNames(details.genres),
        groq.insight(details.movie.title, e.movie.title, SameGenre.Reason(), GenreNames(details.genres)))
    {
      var i :| 0 <= i < |entries| && entries[i] == e;
      assert Presents(e.movie, annotated[i].movie);
    }
  }

  /** `handler`: 405 for anything but POST, 500 without both keys, 400 without
      a title (all before any lookup), and the analysis otherwise. */
  function Handle(req: HttpRequest, keys: ApiKeys, tmdb: Tmdb, groq: Groq): (h: Handled)
    ensures req.verb != "POST" ==> h == Handled(Empty(405), [])
    ensures req.verb == "POST" && !(Truthy(keys.tmdbKey) && Truthy(keys.groqKey)) ==>
      h == Handled(JsonError(500, "Missing API keys"), [])
    ensures req.verb == "POST" && Truthy(keys.tmdbKey) && Truthy(keys.groqKey) && !Truthy(TitleOf(req)) ==>
      h == Handled(JsonError(400, "Movie title is required"), [])
    ensures h.response.Json? ==> Accepted(req, keys)
    ensures Accepted(req, keys) ==> h == Analyze(tmdb, groq, TitleOf(req).value)
  {
    if req.verb != "POST" then Handled(Empty(405), [])
    else if !Truthy(keys.tmdbKey) || !Truthy(keys.groqKey) then Handled(JsonError(500, "Missing API keys"), [])
    else if !Truthy(TitleOf(req)) then Handled(JsonError(400, "Movie title is required"), [])
    else Analyze(tmdb, groq, TitleOf(req).value)
  }
}
