/** functions/handlers/clubHandler.js: `handleClubRecommendations`. It matches
    clubs, asks the venue table for the first five and lists what comes back.
    The venue table is a parameter from the batch of names to its answer. */
module ClubHandler {
  import opened Values
  import opened Clubs

  const NoMatchReply := "Sorry, no matching clubs found."
  const ClubsHeader := "Here are some clubs you might like:\n\n"

  /** At most this many clubs are looked up. */
  const BatchSize := 5

  /** `clubs.slice(0, 5)`. */
  function Batch(clubs: seq<string>): (b: seq<string>)
    ensures |b| <= BatchSize && b <= clubs
    ensures |clubs| <= BatchSize ==> b == clubs
    ensures |clubs| > BatchSize ==> |b| == BatchSize
  {
    if |clubs| <= BatchSize then clubs else clubs[..BatchSize]
  }

  /** One club's block: its name as stored, then its fields. */
  function ClubBlock(d: ClubDetail): string {
    "\n      " + Render(Some(d.venueName))
    + "\n      \U{1F4CD} Location: " + RenderOr(Some(d.municipality), "N/A")
    + "\n      \U{1F3F7}\U{FE0F} Address: " + RenderOr(Some(d.address), "N/A")
    + "\n      \U{1F4EE} Postcode: " + RenderOr(Some(d.postcode), "N/A")
    + "\n      \U{1F378} Cocktail Max Price: " + RenderOr(Some(d.cocktailMaxPrice), "N/A")
    + "\n      \U{1F4DD} Description: " + RenderOr(Some(d.description), "N/A") + "\n\n"
  }

  /** The reply `handleClubRecommendations` gives, or `Throw`. */
  function ClubReply(rules: seq<Rule>, prefs: Object, venues: seq<string> -> Query<VenueRow>): Outcome<string> {
    match GetMatchingClubs(rules, prefs)
    case Throw => Throw
    case Ok(clubs) =>
      if clubs == [] then Ok(NoMatchReply)
      else Ok(ClubsHeader + Blocks(DetailsOf(venues(Batch(clubs))), ClubBlock))
  }

  /** `handleClubRecommendations(senderNumber, preferences)`. `batch` is the
      list of names sent to the venue table, empty when none is sent. */
  method HandleClubRecommendations(rules: seq<Rule>, prefs: Object, venues: seq<string> -> Query<VenueRow>)
    returns (reply: Outcome<string>, batch: seq<string>)
    ensures reply == ClubReply(rules, prefs, venues)
    ensures reply.Throw? <==> GetMatchingClubs(rules, prefs).Throw?
    ensures GetMatchingClubs(rules, prefs) == Ok([]) ==> reply == Ok(NoMatchReply) && batch == []
    ensures reply.Throw? ==> batch == []
    ensures GetMatchingClubs(rules, prefs).Ok? && GetMatchingClubs(rules, prefs).value != [] ==>
      && batch == Batch(GetMatchingClubs(rules, prefs).value)
      && reply == Ok(ClubsHeader + Blocks(DetailsOf(venues(batch)), ClubBlock))
  {
    batch := [];
    var matched := GetMatchingClubs(rules, prefs);
    if matched.Throw? {
      return Throw, batch;
    }
    var clubs := matched.value;
    if |clubs| == 0 {
      return Ok(NoMatchReply), batch;
    }
    batch := clubs[..if |clubs| < BatchSize then |clubs| else BatchSize];
    assert batch == Batch(clubs);
    var details := GetClubDetails(venues(batch));
    var message := AppendBlocks(ClubsHeader, details, ClubBlock);
    reply := Ok(message);
  }

  /** The two fallbacks agree: a field shows as stored when it is a non-empty
      string and as `N/A` when it is falsy, whether `getClubDetails` or the
      template substituted it. */
  lemma FieldShownOrNA(v: Value)
    ensures !Truthy(Some(v)) ==> RenderOr(Some(OrElse(Some(v), "N/A")), "N/A") == "N/A"
    ensures Truthy(Some(v)) && v.Str? ==> RenderOr(Some(OrElse(Some(v), "N/A")), "N/A") == v.s
  {
  }
}
