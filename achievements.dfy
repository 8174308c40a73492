/** The achievements board (app/conquistas.tsx): a fixed table of goals per
    category, unlocked by the user's counts. */
module Achievements {
  import opened Outcomes

  /** One badge of the goal table. */
  datatype Goal = Goal(nome: string, meta: int)

  const ReviewGoals: seq<Goal> := [
    Goal("Avaliador Iniciante", 1), Goal("Crítico Júnior", 5),
    Goal("Crítico Pleno", 10), Goal("Especialista Local", 20)
  ]

  const ListGoals: seq<Goal> := [
    Goal("Colecionador", 1), Goal("Organizador", 3), Goal("Curador", 5)
  ]

  /** Each goal of a table asks for more than the one before it. */
  predicate StrictlyIncreasing(goals: seq<Goal>)
  {
    forall k :: 0 <= k < |goals| - 1 ==> goals[k].meta < goals[k + 1].meta
  }

  /** Every goal asks for at least one. */
  predicate AllPositive(goals: seq<Goal>)
  {
    forall k :: 0 <= k < |goals| ==> goals[k].meta >= 1
  }

  lemma GoalTablesWellFormed()
    ensures StrictlyIncreasing(ReviewGoals) && AllPositive(ReviewGoals) && |ReviewGoals| == 4
    ensures StrictlyIncreasing(ListGoals) && AllPositive(ListGoals) && |ListGoals| == 3
  {
  }

  /** The user's counts, as the screen keeps them. */
  datatype Stats = Stats(reviewsCount: int, listsCount: int)

  /** `value || 0` for a count the server may leave out: a missing or zero
      count becomes 0, any other count is kept. */
  function CountOrZero(value: Option<int>): (c: int)
    ensures value.Some? ==> c == value.value
    ensures value.None? ==> c == 0
  {
    if value.Some? && value.value != 0 then value.value else 0
  }

  /** The counts from the body of `GET /users/me`. */
  function StatsFrom(reviewsCount: Option<int>, listsCount: Option<int>): (s: Stats)
    ensures s.reviewsCount == CountOrZero(reviewsCount) && s.listsCount == CountOrZero(listsCount)
  {
    Stats(CountOrZero(reviewsCount), CountOrZero(listsCount))
  }

  /** The badge rule `count >= meta`. */
  predicate IsUnlocked(count: int, meta: int)
    ensures count < meta ==> !IsUnlocked(count, meta)
    ensures meta <= count ==> IsUnlocked(count, meta)
  {
    count >= meta
  }

  /** Which count a caption talks about. */
  datatype Category = Reviews | Lists

  /** A badge's second line: "Concluído!" or "Faça <meta> <noun>
      (<count>/<meta>)". */
  datatype BadgeText = Completed | Progress(noun: Category, count: int, meta: int)

  /** The caption exactly as the screen builds it: a locked badge always
      asks for reviews, in both sections. */
  function CaptionAsWritten(meta: int, count: int): (c: BadgeText)
    ensures c == Completed <==> IsUnlocked(count, meta)
    ensures c.Progress? ==> c == Progress(Reviews, count, meta)
  {
    if IsUnlocked(count, meta) then Completed else Progress(Reviews, count, meta)
  }

  /** The list section's locked badges ask the user for reviews: with no
      list yet, "Colecionador" reads "Faça 1 avaliações (0/1)". */
  lemma ListCaptionAsksForReviews()
    ensures CaptionAsWritten(ListGoals[0].meta, 0) == Progress(Reviews, 0, 1)
  {
  }

  /** The caption as intended: a locked badge names its own category and
      shows the progress `count/meta`. */
  function CaptionFor(category: Category, meta: int, count: int): (c: BadgeText)
    ensures c == Completed <==> IsUnlocked(count, meta)
    ensures c.Progress? ==> c == Progress(category, count, meta)
  {
    if IsUnlocked(count, meta) then Completed else Progress(category, count, meta)
  }

  /** One rendered badge. */
  datatype Badge = Badge(nome: string, unlocked: bool, caption: BadgeText)

  /** The badges of one section: one per goal, in table order, each judged
      against the section's count. */
  function Badges(category: Category, goals: seq<Goal>, count: int): (bs: seq<Badge>)
    ensures |bs| == |goals|
    ensures forall k :: 0 <= k < |goals| ==>
      bs[k].nome == goals[k].nome && (bs[k].unlocked <==> IsUnlocked(count, goals[k].meta))
      && bs[k].caption == CaptionFor(category, goals[k].meta, count)
  {
    if goals == [] then []
    else
      var first := Badge(goals[0].nome, IsUnlocked(count, goals[0].meta), CaptionFor(category, goals[0].meta, count));
      [first] + Badges(category, goals[1..], count)
  }

  /** The review section of the board. */
  function ReviewBadges(stats: Stats): seq<Badge>
  {
    Badges(Reviews, ReviewGoals, stats.reviewsCount)
  }

  /** The list section of the board. */
  function ListBadges(stats: Stats): seq<Badge>
  {
    Badges(Lists, ListGoals, stats.listsCount)
  }

  /** Each section is judged by its own count: review badges by
      `reviewsCount`, list badges by `listsCount`. */
  lemma SectionsUseTheirOwnCount(stats: Stats, k: nat)
    ensures |ReviewBadges(stats)| == |ReviewGoals| && |ListBadges(stats)| == |ListGoals|
    ensures k < |ReviewGoals| ==> (ReviewBadges(stats)[k].unlocked <==> stats.reviewsCount >= ReviewGoals[k].meta)
    ensures k < |ListGoals| ==> (ListBadges(stats)[k].unlocked <==> stats.listsCount >= ListGoals[k].meta)
  {
  }

  /** In a strictly increasing table, a goal's target exceeds every earlier
      goal's target. */
  lemma {:induction false} IncreasingIsTransitive(goals: seq<Goal>, i: nat, j: nat)
    requires StrictlyIncreasing(goals) && i < j < |goals|
    ensures goals[i].meta < goals[j].meta
  {
    if i + 1 < j {
      IncreasingIsTransitive(goals, i, j - 1);
    }
  }

  /** Unlocked badges form a prefix of their section: if a goal is reached,
      so is every smaller goal before it. */
  lemma UnlockedIsPrefixClosed(category: Category, goals: seq<Goal>, count: int, i: nat, j: nat)
    requires StrictlyIncreasing(goals) && i < j < |goals|
    requires Badges(category, goals, count)[j].unlocked
    ensures Badges(category, goals, count)[i].unlocked
  {
    IncreasingIsTransitive(goals, i, j);
  }

  /** More activity never locks a badge. */
  lemma UnlockIsMonotone(category: Category, goals: seq<Goal>, count: int, more: int, k: nat)
    requires count <= more && k < |goals|
    requires Badges(category, goals, count)[k].unlocked
    ensures Badges(category, goals, more)[k].unlocked
  {
  }

  /** With a zero count nothing is unlocked, and every caption shows
      progress. */
  lemma ZeroUnlocksNothing(category: Category, goals: seq<Goal>, k: nat)
    requires AllPositive(goals) && k < |goals|
    ensures !Badges(category, goals, 0)[k].unlocked
    ensures Badges(category, goals, 0)[k].caption == Progress(category, 0, goals[k].meta)
  {
  }

  /** A user the server reports nothing about sees every badge of both
      sections locked. */
  lemma EmptyStatsUnlockNothing(k: nat)
    ensures k < |ReviewGoals| ==> !ReviewBadges(StatsFrom(None, None))[k].unlocked
    ensures k < |ListGoals| ==> !ListBadges(StatsFrom(None, None))[k].unlocked
  {
    GoalTablesWellFormed();
    if k < |ReviewGoals| {
      ZeroUnlocksNothing(Reviews, ReviewGoals, k);
    }
    if k < |ListGoals| {
      ZeroUnlocksNothing(Lists, ListGoals, k);
    }
  }

  /** What the screen shows: the spinner until counts are present. */
  datatype Screen = Loading | Board(reviews: seq<Badge>, lists: seq<Badge>)

  /** `isLoading || !stats` shows the spinner; otherwise both sections. */
  function View(isLoading: bool, stats: Option<Stats>): (v: Screen)
    ensures v == Loading <==> isLoading || stats.None?
    ensures v.Board? ==> v.reviews == ReviewBadges(stats.value) && v.lists == ListBadges(stats.value)
  {
    if isLoading || stats.None? then Loading
    else Board(ReviewBadges(stats.value), ListBadges(stats.value))
  }

  /** The stats after `fetchStats` settled: set from a successful response,
      still `null` after a failure. */
  function FetchedStats(response: Outcome<(Option<int>, Option<int>)>): (s: Option<Stats>)
    ensures s.Some? <==> response.Ok?
    ensures response.Ok? ==> s.value == StatsFrom(response.value.0, response.value.1)
  {
    match response
    case Ok((reviews, lists)) => Some(StatsFrom(reviews, lists))
    case Err(_) => None
  }

  /** The alert `fetchStats` raises: the achievements could not be loaded. */
  datatype Notice = CouldNotLoad

  /** The alert after `fetchStats` settled: raised exactly when the fetch
      failed, which is exactly when no stats are set. */
  function FetchNotice(response: Outcome<(Option<int>, Option<int>)>): (n: Option<Notice>)
    ensures n.Some? <==> FetchedStats(response).None?
    ensures n.Some? ==> n.value == CouldNotLoad
  {
    if response.Err? then Some(CouldNotLoad) else None
  }

  /** A failed fetch leaves the spinner on for good: loading is over, but
      there are no stats to show. */
  lemma FailedFetchKeepsSpinner(failure: Failure)
    ensures View(false, FetchedStats(Err(failure))) == Loading
  {
  }
}
