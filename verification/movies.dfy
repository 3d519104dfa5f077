/** The records the movie metadata provider returns, as far as the
    recommendation pipeline reads them. A field the provider may omit is an
    `Option`; JavaScript treats both a missing string and `""` as false. */
module Movies {
  import opened Wrappers

  /** A cast or crew credit: provider-assigned person id, display name and job
      (the job is meaningful for crew credits only). */
  datatype Person = Person(id: int, name: string, job: string)

  /** The `credits` sub-record of a detail response. */
  datatype Credits = Credits(cast: Option<seq<Person>>, crew: Option<seq<Person>>)

  datatype Genre = Genre(id: int, name: string)

  /** A movie as it appears in search, discovery and similar-movie results. */
  datatype Movie = Movie(
    id: int,
    title: string,
    releaseDate: Option<string>,
    overview: string,
    posterPath: Option<string>,
    voteAverage: real,
    voteCount: int)

  /** A detail response fetched with its credits appended. */
  datatype Details = Details(movie: Movie, genres: Option<seq<Genre>>, credits: Option<Credits>)

  /** JavaScript truthiness of an optional string. */
  predicate Truthy(s: Option<string>) {
    s.Some? && s.value != ""
  }
}
