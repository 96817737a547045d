/** The rule-matching engine (`getMatchingClubs`) and the venue-row mapping
    (`getClubDetails`) of functions/clubs.js. The rule table is a parameter. */
module Clubs {
  import opened Values

  /** A rule's `music_preferences`: a flat array of tags, or an object that may
      carry `group_a`, `group_b` and `match_mode`. */
  datatype MusicSpec =
    | TagList(tags: seq<string>)
    | Groups(groupA: Option<seq<string>>, groupB: Option<seq<string>>, matchMode: bool)

  datatype Rule = Rule(music: MusicSpec, budget: string, vibe: seq<string>, gender: seq<string>, clubs: seq<string>)

  /** The parts of a user's preference object that a rule looks at, once
      `music_preferences` and `vibe` are known to be arrays. */
  datatype Profile = Profile(gender: Option<Value>, music: seq<Value>, budget: Option<Value>, vibe: seq<Value>)

  /** `tags.some(t => pool.includes(t))`: some user tag is a string in `pool`. */
  predicate Hits(tags: seq<Value>, pool: seq<string>) {
    exists i :: 0 <= i < |tags| && tags[i].Str? && tags[i].s in pool
  }

  /** The rule's music is in grouped mode: both groups present and `match_mode` truthy. */
  predicate Grouped(m: MusicSpec) {
    m.Groups? && m.groupA.Some? && m.groupB.Some? && m.matchMode
  }

  /** The flat-mode pool `(group_a || []).concat(group_b || []).concat(music_preferences)`:
      concatenating an array adds its elements, concatenating an object adds
      the object itself, which never equals a tag. */
  function FlatPool(m: MusicSpec): seq<string> {
    match m
    case TagList(tags) => tags
    case Groups(a, b, _) =>
      (if a.Some? then a.value else []) + (if b.Some? then b.value else [])
  }

  predicate MusicMatches(m: MusicSpec, p: Profile) {
    if Grouped(m) then Hits(p.music, m.groupA.value) && Hits(p.music, m.groupB.value)
    else Hits(p.music, FlatPool(m))
  }

  predicate RuleMatches(r: Rule, p: Profile) {
    && MusicMatches(r.music, p)
    && p.budget == Some(Str(r.budget))
    && Hits(p.vibe, r.vibe)
    && (p.gender.Some? && p.gender.value.Str? && p.gender.value.s in r.gender)
  }

  /** `rules.find(...)`, as the index of the winning rule: the first one, in
      table order, whose four tests hold. */
  function FindRule(rules: seq<Rule>, p: Profile): (r: Option<nat>)
    ensures r.Some? ==> r.value < |rules| && RuleMatches(rules[r.value], p)
    ensures r.Some? ==> forall j :: 0 <= j < r.value ==> !RuleMatches(rules[j], p)
    ensures r.None? ==> forall j :: 0 <= j < |rules| ==> !RuleMatches(rules[j], p)
  {
    if rules == [] then None
    else if RuleMatches(rules[0], p) then Some(0)
    else
      match FindRule(rules[1..], p)
      case None => None
      case Some(i) => Some(i + 1)
  }

  /** The winning rule's `clubs`, or `[]` when no rule matches. */
  function MatchClubs(rules: seq<Rule>, p: Profile): (clubs: seq<string>)
    ensures FindRule(rules, p).Some? ==> clubs == rules[FindRule(rules, p).value].clubs
    ensures FindRule(rules, p).None? ==> clubs == []
  {
    match FindRule(rules, p)
    case None => []
    case Some(i) => rules[i].clubs
  }

  /** The preference object seen by a rule's test. `.some` on
      `music_preferences` or `vibe` throws unless both are arrays. */
  function ProfileOf(prefs: Object): (r: Option<Profile>)
    ensures r.Some? <==> ("music_preferences" in prefs && prefs["music_preferences"].Arr?
                          && "vibe" in prefs && prefs["vibe"].Arr?)
  {
    var music := Get(prefs, "music_preferences");
    var vibe := Get(prefs, "vibe");
    if music.Some? && music.value.Arr? && vibe.Some? && vibe.value.Arr? then
      Some(Profile(Get(prefs, "gender"), music.value.items, Get(prefs, "budget"), vibe.value.items))
    else None
  }

  /** `getMatchingClubs(preferences)`. With an empty table the test never runs,
      so nothing can throw; otherwise a preference object whose music or vibe is
      not an array throws on the first rule. */
  function GetMatchingClubs(rules: seq<Rule>, prefs: Object): (r: Outcome<seq<string>>)
    ensures rules == [] ==> r == Ok([])
    ensures rules != [] ==> (r.Throw? <==> ProfileOf(prefs).None?)
    ensures r.Ok? && rules != [] ==> r.value == MatchClubs(rules, ProfileOf(prefs).value)
  {
    if rules == [] then Ok([])
    else
      match ProfileOf(prefs)
      case None => Throw
      case Some(p) => Ok(MatchClubs(rules, p))
  }

  /** The first rule, in table order, whose tests all hold decides the result:
      no later rule, and no union of rules, is ever returned. */
  lemma FirstSatisfyingRuleWins(rules: seq<Rule>, p: Profile, i: nat)
    requires i < |rules| && RuleMatches(rules[i], p)
    requires forall j :: 0 <= j < i ==> !RuleMatches(rules[j], p)
    ensures MatchClubs(rules, p) == rules[i].clubs
  {
    var k := FindRule(rules, p);
    assert k.Some?;
    if k.value < i {
    } else if k.value > i {
    }
  }

  /** When no rule's tests all hold, the result is empty. */
  lemma NoSatisfyingRuleGivesNothing(rules: seq<Rule>, p: Profile)
    requires forall j :: 0 <= j < |rules| ==> !RuleMatches(rules[j], p)
    ensures MatchClubs(rules, p) == []
  {
  }

  /** Grouped mode needs a hit in `group_a` and a hit in `group_b`: a profile
      whose tags hit only one of the two groups fails the music test. */
  lemma GroupedNeedsBothGroups(m: MusicSpec, p: Profile)
    requires Grouped(m)
    ensures MusicMatches(m, p) <==> Hits(p.music, m.groupA.value) && Hits(p.music, m.groupB.value)
    ensures (forall i :: 0 <= i < |p.music| && p.music[i].Str? ==> p.music[i].s !in m.groupB.value)
            ==> !MusicMatches(m, p)
  {
  }

  /** Flat mode matches iff some user tag lies in `group_a ++ group_b ++` the
      rule's array: an array rule contributes its own elements; an object rule
      only its groups. */
  lemma FlatModePool(m: MusicSpec, p: Profile)
    requires !Grouped(m)
    ensures m.TagList? ==> (MusicMatches(m, p) <==> Hits(p.music, m.tags))
    ensures m.Groups? ==> (MusicMatches(m, p) <==>
      (m.groupA.Some? && Hits(p.music, m.groupA.value)) || (m.groupB.Some? && Hits(p.music, m.groupB.value)))
  {
    if m.Groups? && MusicMatches(m, p) {
      var a := if m.groupA.Some? then m.groupA.value else [];
      var b := if m.groupB.Some? then m.groupB.value else [];
      var i :| 0 <= i < |p.music| && p.music[i].Str? && p.music[i].s in a + b;
      assert p.music[i].s in a || p.music[i].s in b;
    }
  }

  /** The other three tests: budget is compared with `===`, vibe needs a common
      tag, and the user's gender must be listed by the rule. */
  lemma OtherTests(r: Rule, p: Profile)
    ensures RuleMatches(r, p) ==> p.budget == Some(Str(r.budget))
    ensures RuleMatches(r, p) ==> exists i :: 0 <= i < |p.vibe| && p.vibe[i] in StrAll(r.vibe)
    ensures RuleMatches(r, p) ==> exists g :: g in r.gender && p.gender == Some(Str(g))
  {
    if RuleMatches(r, p) {
      var i :| 0 <= i < |p.vibe| && p.vibe[i].Str? && p.vibe[i].s in r.vibe;
      StrAllHas(r.vibe, p.vibe[i].s);
      assert p.gender == Some(Str(p.gender.value.s));
    }
  }

  function StrAll(xs: seq<string>): (r: seq<Value>)
    ensures |r| == |xs| && forall i :: 0 <= i < |xs| ==> r[i] == Str(xs[i])
  {
    seq(|xs|, i requires 0 <= i < |xs| => Str(xs[i]))
  }

  lemma StrAllHas(xs: seq<string>, x: string)
    requires x in xs
    ensures Str(x) in StrAll(xs)
  {
    var i :| 0 <= i < |xs| && xs[i] == x;
    assert StrAll(xs)[i] == Str(x);
  }

  /** A profile with no music tags, or with no vibe tags, matches no rule. */
  lemma EmptyMusicOrVibeMatchesNothing(rules: seq<Rule>, p: Profile)
    requires p.music == [] || p.vibe == []
    ensures MatchClubs(rules, p) == []
  {
    forall j | 0 <= j < |rules| ensures !RuleMatches(rules[j], p) {
    }
    NoSatisfyingRuleGivesNothing(rules, p);
  }

  // ---------------------------------------------------------------------------
  // getClubDetails

  /** A row of the `venues` table, as selected. */
  datatype VenueRow = VenueRow(name: Value, municipality: Value, postcode: Value,
                               address: Value, description: Value, cocktailMaxPrice: Value)

  datatype ClubDetail = ClubDetail(venueName: Value, municipality: Value, postcode: Value,
                                   address: Value, description: Value, cocktailMaxPrice: Value)

  /** One record per row: the name as stored, every other falsy field `'N/A'`. */
  function DetailOf(row: VenueRow): (d: ClubDetail)
    ensures d.venueName == row.name
    ensures Truthy(Some(d.municipality)) && Truthy(Some(d.postcode)) && Truthy(Some(d.address))
    ensures Truthy(Some(d.description)) && Truthy(Some(d.cocktailMaxPrice))
    ensures d.municipality == (if Truthy(Some(row.municipality)) then row.municipality else Str("N/A"))
    ensures d.postcode == (if Truthy(Some(row.postcode)) then row.postcode else Str("N/A"))
    ensures d.address == (if Truthy(Some(row.address)) then row.address else Str("N/A"))
    ensures d.description == (if Truthy(Some(row.description)) then row.description else Str("N/A"))
    ensures d.cocktailMaxPrice == (if Truthy(Some(row.cocktailMaxPrice)) then row.cocktailMaxPrice else Str("N/A"))
  {
    ClubDetail(row.name, OrElse(Some(row.municipality), "N/A"), OrElse(Some(row.postcode), "N/A"),
               OrElse(Some(row.address), "N/A"), OrElse(Some(row.description), "N/A"),
               OrElse(Some(row.cocktailMaxPrice), "N/A"))
  }

  /** The records `getClubDetails` builds from the venue table's answer to
      `in('name', clubs)`: one per row, in row order; none on a query error. */
  function DetailsOf(answer: Query<VenueRow>): (ds: seq<ClubDetail>)
    ensures answer.QueryError? ==> ds == []
    ensures answer.Rows? ==> |ds| == |answer.rows|
    ensures answer.Rows? ==> forall i :: 0 <= i < |ds| ==> ds[i] == DetailOf(answer.rows[i])
  {
    match answer
    case QueryError => []
    case Rows(rows) => seq(|rows|, i requires 0 <= i < |rows| => DetailOf(rows[i]))
  }

  /** `getClubDetails`: a `forEach` over the rows that pushes one record each. */
  method GetClubDetails(answer: Query<VenueRow>) returns (details: seq<ClubDetail>)
    ensures details == DetailsOf(answer)
  {
    if answer.QueryError? {
      return [];
    }
    details := [];
    var rows := answer.rows;
    for i := 0 to |rows|
      invariant |details| == i
      invariant forall j :: 0 <= j < i ==> details[j] == DetailOf(rows[j])
    {
      details := details + [DetailOf(rows[i])];
    }
  }
}
