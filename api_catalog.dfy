/**
 * The API catalogue page: the search and advanced filters over the fixed API
 * list, the "trending" and "new" lists, the health badge colour, and the
 * daily challenge with its XP and level. Ratings and scores are in tenths of
 * a star.
 */
module ApiCatalog {
  import opened Js

  datatype Api = Api(
    id: int, name: string, description: string, tags: seq<string>, popularity: int,
    isNew: bool, score: nat, rating: nat, comments: nat, health: string)

  const ApiData: seq<Api> := [
    Api(1, "Payments", "Securely process payments", ["Financial", "Security"], 95, false, 48, 49, 120, "excellent"),
    Api(2, "Authentication", "Easily authenticate users", ["Security", "Users"], 88, false, 46, 47, 95, "good"),
    Api(3, "Notifications", "Send real-time notifications", ["Communication", "Real-time"], 75, true, 42, 45, 60, "good"),
    Api(4, "Analytics", "Analyze application usage data", ["Data", "Reporting"], 82, false, 44, 46, 78, "excellent"),
    Api(5, "Machine Learning", "Integrate AI into your projects", ["AI", "Data"], 90, true, 47, 48, 110, "good"),
    Api(6, "Storage", "Store and retrieve data in the cloud", ["Cloud", "Data"], 78, false, 43, 44, 85, "fair")
  ]

  /** The advanced search panel: tags to match, a minimum rating in whole stars, a health filter. */
  datatype AdvancedSearch = AdvancedSearch(tags: seq<string>, minRating: int, healthStatus: string)

  const InitialSearch: AdvancedSearch := AdvancedSearch([], 0, "all")

  // ---------------------------------------------------------------------------
  // Filtering
  // ---------------------------------------------------------------------------

  predicate TermMatches(api: Api, term: string)
  {
    var t := ToLower(term);
    Includes(ToLower(api.name), t) || Includes(ToLower(api.description), t)
    || exists i :: 0 <= i < |api.tags| && Includes(ToLower(api.tags[i]), t)
  }

  predicate TagsMatch(api: Api, selected: seq<string>)
  {
    |selected| == 0 || exists i :: 0 <= i < |selected| && selected[i] in api.tags
  }

  predicate RatingMatches(api: Api, minRating: int)
  {
    api.rating >= 10 * minRating
  }

  predicate HealthMatches(api: Api, healthStatus: string)
  {
    healthStatus == "all" || api.health == healthStatus
  }

  predicate Shown(api: Api, term: string, adv: AdvancedSearch)
  {
    TermMatches(api, term) && TagsMatch(api, adv.tags) && RatingMatches(api, adv.minRating)
    && HealthMatches(api, adv.healthStatus)
  }

  /** `filteredApis` */
  function FilteredApis(apis: seq<Api>, term: string, adv: AdvancedSearch): seq<Api>
  {
    Filter(apis, (api: Api) => Shown(api, term, adv))
  }

  /**
   * An API is shown iff the term occurs in its name, description or a tag,
   * no tag is selected or one of its tags is, its rating reaches the minimum,
   * and the health filter is "all" or its health; shown APIs keep their order.
   */
  lemma FilteredApisSpec(apis: seq<Api>, term: string, adv: AdvancedSearch)
    ensures var r := FilteredApis(apis, term, adv);
      && (forall i :: 0 <= i < |r| ==>
            r[i] in apis && TermMatches(r[i], term) && TagsMatch(r[i], adv.tags)
            && RatingMatches(r[i], adv.minRating) && HealthMatches(r[i], adv.healthStatus))
      && (forall i :: 0 <= i < |apis| && TermMatches(apis[i], term) && TagsMatch(apis[i], adv.tags)
            && RatingMatches(apis[i], adv.minRating) && HealthMatches(apis[i], adv.healthStatus)
            ==> apis[i] in r)
      && (forall a, b :: apis == a + b ==> r == FilteredApis(a, term, adv) + FilteredApis(b, term, adv))
  {
    forall a, b | apis == a + b
      ensures FilteredApis(apis, term, adv) == FilteredApis(a, term, adv) + FilteredApis(b, term, adv)
    {
      FilterAppend(a, b, (api: Api) => Shown(api, term, adv));
    }
  }

  /** With the initial filters (empty term, no tags, minimum 0, "all") every API is shown. */
  lemma InitialFiltersShowAll(apis: seq<Api>)
    ensures FilteredApis(apis, "", InitialSearch) == apis
  {
    assert ToLower("") == "";
    forall i | 0 <= i < |apis| ensures Shown(apis[i], "", InitialSearch) {
      IncludesEmpty(ToLower(apis[i].name));
    }
    FilterKeepsAll(apis, (api: Api) => Shown(api, "", InitialSearch));
  }

  /** The tag checkbox: checking appends the tag, unchecking removes every occurrence of it. */
  function ToggleTag(tags: seq<string>, tag: string, checked: bool): seq<string>
  {
    if checked then tags + [tag] else Filter(tags, (t: string) => t != tag)
  }

  /**
   * Checking appends the tag at the end; unchecking leaves no occurrence of
   * it and keeps every other tag, in order.
   */
  lemma ToggleTagSpec(tags: seq<string>, tag: string)
    ensures ToggleTag(tags, tag, true) == tags + [tag]
    ensures var r := ToggleTag(tags, tag, false);
      && tag !in r
      && (forall t :: t != tag ==> (t in r <==> t in tags))
  {
    var r := ToggleTag(tags, tag, false);
    forall t | t != tag ensures t in r <==> t in tags {
      if t in tags {
        var i :| 0 <= i < |tags| && tags[i] == t;
      }
      if t in r {
        var i :| 0 <= i < |r| && r[i] == t;
      }
    }
  }

  // ---------------------------------------------------------------------------
  // Trending and new APIs
  // ---------------------------------------------------------------------------

  predicate SortedByPopularity(s: seq<Api>)
  {
    forall i, j :: 0 <= i < j < |s| ==> s[i].popularity >= s[j].popularity
  }

  /** Insert `a` into a list sorted by descending popularity, before the first less popular API. */
  function Insert(a: Api, s: seq<Api>): (r: seq<Api>)
    requires SortedByPopularity(s)
    ensures SortedByPopularity(r)
    ensures multiset(r) == multiset(s) + multiset{a}
    ensures |r| == |s| + 1
    ensures r[0] == a || (|s| > 0 && r[0] == s[0])
  {
    if s == [] || a.popularity >= s[0].popularity then
      [a] + s
    else
      var rest := Insert(a, s[1..]);
      InsertStep(a, s, rest);
      [s[0]] + rest
  }

  /** The recursive case of `Insert`: the head stays in front of the insertion into the tail. */
  lemma InsertStep(a: Api, s: seq<Api>, rest: seq<Api>)
    requires SortedByPopularity(s) && s != [] && a.popularity < s[0].popularity
    requires SortedByPopularity(rest)
    requires multiset(rest) == multiset(s[1..]) + multiset{a}
    requires |rest| == |s| && (rest[0] == a || (|s| > 1 && rest[0] == s[1]))
    ensures SortedByPopularity([s[0]] + rest)
    ensures multiset([s[0]] + rest) == multiset(s) + multiset{a}
  {
    assert s == [s[0]] + s[1..];
    assert multiset(s) == multiset{s[0]} + multiset(s[1..]);
    ConsSorted(s[0], rest);
  }

  /** An API at least as popular as the head of a sorted list can go in front of it. */
  lemma ConsSorted(x: Api, t: seq<Api>)
    requires SortedByPopularity(t)
    requires t == [] || t[0].popularity <= x.popularity
    ensures SortedByPopularity([x] + t)
  {
    var r := [x] + t;
    forall i, j | 0 <= i < j < |r| ensures r[i].popularity >= r[j].popularity {
      if i == 0 {
        assert r[j] == t[j - 1];
        assert t[0].popularity >= t[j - 1].popularity;
      } else {
        assert r[i] == t[i - 1] && r[j] == t[j - 1];
      }
    }
  }

  /** `[...apis].sort((a, b) => b.popularity - a.popularity)`: a copy in descending popularity. */
  function SortByPopularity(s: seq<Api>): (r: seq<Api>)
    ensures SortedByPopularity(r)
    ensures multiset(r) == multiset(s)
    ensures |r| == |s|
  {
    if s == [] then []
    else
      assert s == [s[0]] + s[1..];
      Insert(s[0], SortByPopularity(s[1..]))
  }

  /** `trendingApis` */
  function Trending(apis: seq<Api>): seq<Api>
  {
    Slice(SortByPopularity(apis), 0, 3)
  }

  /**
   * The trending list holds min(3, |apis|) APIs in descending popularity,
   * drawn from the list, and no API left out is more popular than any API
   * in it.
   */
  lemma TrendingSpec(apis: seq<Api>)
    ensures var r := Trending(apis);
      var sorted := SortByPopularity(apis);
      && |r| == (if |apis| < 3 then |apis| else 3)
      && SortedByPopularity(r)
      && multiset(r) <= multiset(apis)
      && multiset(r) + multiset(sorted[|r|..]) == multiset(apis)
      && (forall i, j :: 0 <= i < |r| && |r| <= j < |sorted| ==> sorted[j].popularity <= r[i].popularity)
  {
    var sorted := SortByPopularity(apis);
    var n := if |apis| < 3 then |apis| else 3;
    assert Trending(apis) == sorted[..n];
    SortedSplit(sorted, n);
  }

  /** A sorted list splits into a sorted head, none less popular than the tail, holding its part of the list. */
  lemma SortedSplit(s: seq<Api>, n: int)
    requires SortedByPopularity(s) && 0 <= n <= |s|
    ensures SortedByPopularity(s[..n])
    ensures multiset(s[..n]) + multiset(s[n..]) == multiset(s)
    ensures forall i, j :: 0 <= i < n <= j < |s| ==> s[j].popularity <= s[..n][i].popularity
  {
    assert s == s[..n] + s[n..];
  }

  /** On the shipped list the new APIs are Notifications and Machine Learning. */
  lemma NewOfApiData()
    ensures NewApis(ApiData) == [ApiData[2], ApiData[4]]
  {
  }

  /** `newApis` */
  function NewApis(apis: seq<Api>): seq<Api>
  {
    Filter(apis, (api: Api) => api.isNew)
  }

  /** The new list is exactly the APIs flagged new, in their order. */
  lemma NewApisSpec(apis: seq<Api>)
    ensures var r := NewApis(apis);
      && (forall i :: 0 <= i < |r| ==> r[i].isNew && r[i] in apis)
      && (forall i :: 0 <= i < |apis| && apis[i].isNew ==> apis[i] in r)
      && (forall a, b :: apis == a + b ==> r == NewApis(a) + NewApis(b))
  {
    forall a, b | apis == a + b ensures NewApis(apis) == NewApis(a) + NewApis(b) {
      FilterAppend(a, b, (api: Api) => api.isNew);
    }
  }

  /** `getHealthColor` */
  function HealthColor(health: string): string
  {
    if health == "excellent" then "bg-green-500"
    else if health == "good" then "bg-blue-500"
    else if health == "fair" then "bg-yellow-500"
    else "bg-gray-500"
  }

  /** The three known health values get three distinct colours; anything else is gray. */
  lemma HealthColorSpec(health: string)
    ensures HealthColor("excellent") != HealthColor("good")
    ensures HealthColor("excellent") != HealthColor("fair")
    ensures HealthColor("good") != HealthColor("fair")
    ensures health !in ["excellent", "good", "fair"] ==> HealthColor(health) == "bg-gray-500"
    ensures health in ["excellent", "good", "fair"] ==> HealthColor(health) != "bg-gray-500"
  {
  }

  // ---------------------------------------------------------------------------
  // Daily challenge
  // ---------------------------------------------------------------------------

  datatype Challenge = Challenge(xp: int, level: int, completed: bool, progress: int)

  const InitialChallenge: Challenge := Challenge(750, 5, false, 0)

  /** XP stays below a level's 1000 points and progress within 0..100. */
  predicate ChallengeValid(c: Challenge)
  {
    0 <= c.xp < 1000 && 0 <= c.progress <= 100
  }

  /**
   * `completeDailyChallenge`: +100 XP, wrapping into a new level at 1000;
   * completed, progress 100. Of the two queued XP updates the later one wins.
   */
  function Complete(c: Challenge): Challenge
  {
    var sum := c.xp + 100;
    if sum >= 1000 then Challenge(sum % 1000, c.level + 1, true, 100)
    else Challenge(sum, c.level, true, 100)
  }

  /**
   * `incrementDailyChallengeProgress`: +25 progress capped at 100, and the
   * challenge completes once progress + 25 reaches 100 (its progress update,
   * queued last, then sets 100).
   */
  function Increment(c: Challenge): Challenge
  {
    var stepped := if c.progress < 100 then c.(progress := if c.progress + 25 < 100 then c.progress + 25 else 100) else c;
    if c.progress + 25 >= 100 then Complete(stepped) else stepped
  }

  /**
   * Completing adds exactly 100 to the total XP (level * 1000 + xp), moves up
   * one level exactly when the sum reaches 1000, keeps xp below 1000 and
   * marks the challenge completed at progress 100.
   */
  lemma CompleteAddsHundredXp(c: Challenge)
    requires ChallengeValid(c)
    ensures var d := Complete(c);
      && ChallengeValid(d)
      && d.level * 1000 + d.xp == c.level * 1000 + c.xp + 100
      && d.level == (if c.xp + 100 >= 1000 then c.level + 1 else c.level)
      && d.completed && d.progress == 100
  {
    if c.xp + 100 >= 1000 {
      assert (c.xp + 100) % 1000 == c.xp + 100 - 1000;
    }
  }

  /**
   * A progress step never leaves 0..100, adds 25 below the threshold, and
   * completes the challenge (with its 100 XP) exactly when progress + 25
   * reaches 100.
   */
  lemma IncrementSpec(c: Challenge)
    requires ChallengeValid(c)
    ensures var d := Increment(c);
      && ChallengeValid(d)
      && (c.progress + 25 >= 100 ==> d.completed && d.progress == 100
                                     && d.level * 1000 + d.xp == c.level * 1000 + c.xp + 100)
      && (c.progress + 25 < 100 ==> d == c.(progress := c.progress + 25))
  {
    var stepped := if c.progress < 100 then c.(progress := if c.progress + 25 < 100 then c.progress + 25 else 100) else c;
    CompleteAddsHundredXp(stepped);
  }

  /** From the start (0%), four steps complete the challenge: 750 XP becomes 850 at level 5. */
  lemma FourStepsComplete()
    ensures Increment(Increment(Increment(Increment(InitialChallenge)))) == Challenge(850, 5, true, 100)
  {
  }

  // ---------------------------------------------------------------------------
  // The page
  // ---------------------------------------------------------------------------

  class CatalogPage {
    var searchTerm: string
    var advanced: AdvancedSearch
    var xp: int
    var level: int
    var dailyChallengeCompleted: bool
    var dailyChallengeProgress: int

    function ChallengeView(): Challenge
      reads this
    {
      Challenge(xp, level, dailyChallengeCompleted, dailyChallengeProgress)
    }

    predicate Valid()
      reads this
    {
      ChallengeValid(ChallengeView())
    }

    constructor ()
      ensures Valid() && ChallengeView() == InitialChallenge
      ensures searchTerm == "" && advanced == InitialSearch
    {
      searchTerm, advanced := "", InitialSearch;
      xp, level, dailyChallengeCompleted, dailyChallengeProgress := 750, 5, false, 0;
    }

    /** The APIs the page lists under "all". */
    function Listed(apis: seq<Api>): seq<Api>
      reads this
    {
      FilteredApis(apis, searchTerm, advanced)
    }

    method SetSearchTerm(term: string)
      modifies this`searchTerm
      ensures searchTerm == term
    {
      searchTerm := term;
    }

    /** A tag checkbox: only the selected tags change. */
    method TagChecked(tag: string, checked: bool)
      modifies this`advanced
      ensures advanced == old(advanced).(tags := ToggleTag(old(advanced).tags, tag, checked))
    {
      advanced := advanced.(tags := ToggleTag(advanced.tags, tag, checked));
    }

    method SetMinRating(rating: int)
      modifies this`advanced
      ensures advanced == old(advanced).(minRating := rating)
    {
      advanced := advanced.(minRating := rating);
    }

    method SetHealthStatus(status: string)
      modifies this`advanced
      ensures advanced == old(advanced).(healthStatus := status)
    {
      advanced := advanced.(healthStatus := status);
    }

    method CompleteDailyChallenge()
      requires Valid()
      modifies this`xp, this`level, this`dailyChallengeCompleted, this`dailyChallengeProgress
      ensures Valid() && ChallengeView() == Complete(old(ChallengeView()))
    {
      var sum := xp + 100;
      xp := sum;
      dailyChallengeCompleted := true;
      dailyChallengeProgress := 100;
      if sum >= 1000 {
        level := level + 1;
        xp := sum % 1000;
      }
      CompleteAddsHundredXp(old(ChallengeView()));
    }

    method IncrementDailyChallengeProgress()
      requires Valid()
      modifies this`xp, this`level, this`dailyChallengeCompleted, this`dailyChallengeProgress
      ensures Valid() && ChallengeView() == Increment(old(ChallengeView()))
    {
      var p := dailyChallengeProgress;
      if p < 100 {
        dailyChallengeProgress := if p + 25 < 100 then p + 25 else 100;
      }
      if p + 25 >= 100 {
        CompleteDailyChallenge();
      }
      IncrementSpec(old(ChallengeView()));
    }
  }
}
