/** Picking the creative team out of a credits record. The standalone service
    (server/services/tmdb.js) guards each step explicitly; the serverless
    handler (api/movie-dna.js) writes the same searches with optional chaining.
    Both are modelled and shown equal. */
module Extraction {
  import opened Wrappers
  import opened Seqs
  import opened Movies

  predicate IsDirectorCredit(p: Person) {
    p.job == "Director"
  }

  /** Any of the three writing jobs; no job is preferred over another. */
  predicate IsWritingCredit(p: Person) {
    p.job == "Screenplay" || p.job == "Writer" || p.job == "Story"
  }

  /** The crew list is present exactly when both the credits record and its crew are. */
  predicate HasCrew(credits: Option<Credits>) {
    credits.Some? && credits.value.crew.Some?
  }

  function ExtractDirector(credits: Option<Credits>): (d: Option<Person>)
    ensures d.Some? <==>
      HasCrew(credits) && exists i :: 0 <= i < |credits.value.crew.value| && IsDirectorCredit(credits.value.crew.value[i])
    ensures d.Some? ==> IsFirstMatch(credits.value.crew.value, IsDirectorCredit, d.value)
  {
    if credits.None? || credits.value.crew.None? then None
    else Find(credits.value.crew.value, IsDirectorCredit)
  }

  function ExtractLeadActor(credits: Option<Credits>): (a: Option<Person>)
    ensures a.Some? <==> credits.Some? && credits.value.cast.Some? && |credits.value.cast.value| > 0
    ensures a.Some? ==> a.value == credits.value.cast.value[0]
  {
    if credits.None? || credits.value.cast.None? || |credits.value.cast.value| == 0 then None
    else Some(credits.value.cast.value[0])
  }

  function ExtractScreenwriter(credits: Option<Credits>): (w: Option<Person>)
    ensures w.Some? <==>
      HasCrew(credits) && exists i :: 0 <= i < |credits.value.crew.value| && IsWritingCredit(credits.value.crew.value[i])
    ensures w.Some? ==> IsFirstMatch(credits.value.crew.value, IsWritingCredit, w.value)
  {
    if credits.None? || credits.value.crew.None? then None
    else Find(credits.value.crew.value, IsWritingCredit)
  }

  /** `credits?.crew?.find(p => p.job === "Director") || null` */
  function ChainedDirector(credits: Option<Credits>): Option<Person> {
    match credits
    case None => None
    case Some(c) =>
      match c.crew
      case None => None
      case Some(crew) => Find(crew, IsDirectorCredit)
  }

  /** `credits?.cast?.[0] || null`: indexing an empty array gives `undefined`. */
  function ChainedLeadActor(credits: Option<Credits>): Option<Person> {
    match credits
    case None => None
    case Some(c) =>
      match c.cast
      case None => None
      case Some(cast) => if 0 < |cast| then Some(cast[0]) else None
  }

  function ChainedScreenwriter(credits: Option<Credits>): Option<Person> {
    match credits
    case None => None
    case Some(c) =>
      match c.crew
      case None => None
      case Some(crew) => Find(crew, IsWritingCredit)
  }

  /** The two deployments pick the same team from every credits record. */
  lemma ExtractorsAgree(credits: Option<Credits>)
    ensures ChainedDirector(credits) == ExtractDirector(credits)
    ensures ChainedLeadActor(credits) == ExtractLeadActor(credits)
    ensures ChainedScreenwriter(credits) == ExtractScreenwriter(credits)
  {
  }

  /** The screenwriter is the first writing credit in crew order, whatever its
      job: a "Story" credit listed before a "Screenplay" credit wins. */
  lemma ScreenwriterFollowsCrewOrder(crew: seq<Person>, i: nat, j: nat)
    requires i < j < |crew|
    requires crew[i].job == "Story" && crew[j].job == "Screenplay"
    requires forall k :: 0 <= k < i ==> !IsWritingCredit(crew[k])
    ensures ExtractScreenwriter(Some(Credits(None, Some(crew)))) == Some(crew[i])
    ensures ExtractScreenwriter(Some(Credits(None, Some(crew)))) != Some(crew[j])
  {
    var w := ExtractScreenwriter(Some(Credits(None, Some(crew))));
    assert IsWritingCredit(crew[i]);
    var k :| 0 <= k < |crew| && crew[k] == w.value && IsWritingCredit(w.value)
             && forall m :: 0 <= m < k ==> !IsWritingCredit(crew[m]);
    assert k == i;
  }
}
