/** Shaping a provider movie record into the summary the response carries:
    `formatMovie` in the serverless handler and `formatMovieData` in the
    standalone service, which differ only in that the latter keeps the vote count. */
module Format {
  import opened Wrappers
  import opened Movies

  const ImageBase := "https://image.tmdb.org/t/p/w500"

  /** The displayed year: the calendar year the runtime reads from the release
      date (kept symbolic: date parsing is not modelled), or the "N/A" sentinel. */
  datatype Year = YearOf(releaseDate: string) | NotAvailable

  datatype Summary = Summary(
    id: int,
    title: string,
    year: Year,
    overview: string,
    posterUrl: Option<string>,
    rating: real,
    voteCount: Option<int>)

  function ReleaseYear(releaseDate: Option<string>): (y: Year)
    ensures y == NotAvailable <==> !Truthy(releaseDate)
    ensures y.YearOf? ==> y.releaseDate == releaseDate.value
  {
    if Truthy(releaseDate) then YearOf(releaseDate.value) else NotAvailable
  }

  /** A full image URL whose tail after the image base is the poster path, or
      null when the record has no poster path. */
  function PosterUrl(posterPath: Option<string>): (u: Option<string>)
    ensures u.None? <==> !Truthy(posterPath)
    ensures u.Some? ==>
      |ImageBase| < |u.value| && u.value[..|ImageBase|] == ImageBase && u.value[|ImageBase|..] == posterPath.value
  {
    if Truthy(posterPath) then Some(ImageBase + posterPath.value) else None
  }

  /** `s` presents `m`: the fields both formatters fill in agree with the record. */
  predicate Presents(s: Summary, m: Movie) {
    && s.id == m.id
    && s.title == m.title
    && s.year == ReleaseYear(m.releaseDate)
    && s.overview == m.overview
    && s.posterUrl == PosterUrl(m.posterPath)
    && s.rating == m.voteAverage
  }

  /** Serverless `formatMovie`: no vote count. */
  function FormatMovie(m: Movie): (s: Summary)
    ensures Presents(s, m)
    ensures s.voteCount.None?
  {
    Summary(m.id, m.title, ReleaseYear(m.releaseDate), m.overview, PosterUrl(m.posterPath), m.voteAverage, None)
  }

  /** Standalone `formatMovieData`: also copies the vote count. */
  function FormatMovieData(m: Movie): (s: Summary)
    ensures Presents(s, m)
    ensures s.voteCount == Some(m.voteCount)
  {
    Summary(m.id, m.title, ReleaseYear(m.releaseDate), m.overview, PosterUrl(m.posterPath), m.voteAverage, Some(m.voteCount))
  }

  /** The two formatters differ in the vote count only. */
  lemma FormattersAgree(m: Movie)
    ensures FormatMovie(m) == FormatMovieData(m).(voteCount := None)
  {
  }

  /** The poster path is recoverable from the formatted URL. */
  lemma PosterUrlInjective(p: Option<string>, q: Option<string>)
    requires Truthy(p) && Truthy(q)
    requires PosterUrl(p) == PosterUrl(q)
    ensures p == q
  {
    assert PosterUrl(p).value[|ImageBase|..] == p.value;
  }
}
