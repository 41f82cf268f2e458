/** Leaderboards: per-user totals of best scores over the progress items of a
    scope (every progress item, one level's, or those of the levels found
    under a topic), names looked up in the users' metadata rows, a stable sort
    by descending total, ranks 1..n, and the first `limit` entries. */
module Leaderboards {
  import opened Values
  import opened Keys
  import opened Seqs
  import opened Sorting
  import opened Store

  const ProgressEntity := "user_progress"
  /** The name the list endpoints give a user whose metadata row or name is missing. */
  const UnknownUser := "Unknown User"
  /** The name the rank endpoint gives in the topic and level scopes. */
  const Unknown := "Unknown"

  /** A leaderboard line before ranks are assigned. */
  datatype Standing = Standing(userId: Value, username: Value, score: real)
  /** `LeaderboardEntry` */
  datatype Entry = Entry(userId: Value, username: Value, score: real, rank: nat)
  /** The insertion-ordered `user_scores` dict: its keys in order, and the sums. */
  datatype Totals = Totals(users: seq<Value>, sums: map<Value, real>)
  /** The answer of the rank endpoint; `rank` is `None` for a user without progress in scope. */
  datatype RankReport = RankReport(userId: string, rank: Option<nat>, score: real, totalUsers: nat)

  /** `item.get('user_id')` */
  function UserOf(item: Item): Value
  {
    Get(item, "user_id", Null)
  }

  /** `float(item.get('best_score', 0))`; `None` where `float()` raises. */
  function ScoreOf(item: Item): Option<real>
  {
    FloatOf(Get(item, "best_score", Int(0)))
  }

  predicate AllScored(items: seq<Item>)
  {
    forall i :: 0 <= i < |items| ==> ScoreOf(items[i]).Some?
  }

  /** The users of `items` in order of first appearance: the key order of the
      `user_scores` dict. */
  function Users(items: seq<Item>): (r: seq<Value>)
    ensures Distinct(r)
    ensures forall u :: u in r <==> exists i :: 0 <= i < |items| && UserOf(items[i]) == u
  {
    if items == [] then []
    else
      var init := items[..|items| - 1];
      var u := UserOf(items[|items| - 1]);
      var r0 := Users(init);
      assert forall i :: 0 <= i < |init| ==> init[i] == items[i];
      if u in r0 then r0
      else
        assert forall i :: 0 <= i < |r0| ==> r0[i] in r0;
        r0 + [u]
  }

  /** The sum of the best scores of `u`'s items, added in scan order. */
  function UserTotal(items: seq<Item>, u: Value): real
    requires AllScored(items)
  {
    if items == [] then 0.0
    else
      var init := items[..|items| - 1];
      var last := items[|items| - 1];
      assert forall i :: 0 <= i < |init| ==> init[i] == items[i];
      UserTotal(init, u) + (if UserOf(last) == u then ScoreOf(last).value else 0.0)
  }

  /** A user without items has a total of zero. */
  lemma {:induction false} UserTotalAbsent(items: seq<Item>, u: Value)
    requires AllScored(items) && u !in Users(items)
    ensures UserTotal(items, u) == 0.0
  {
    if items != [] {
      var init := items[..|items| - 1];
      assert forall i :: 0 <= i < |init| ==> init[i] == items[i];
      UserTotalAbsent(init, u);
    }
  }

  /** `user.get('name', placeholder)` for the item at `(USER#u, METADATA)`,
      or the placeholder when there is none. */
  function NameOf(m: map<Key, Item>, u: Value, placeholder: string): Value
  {
    if u.Str? && KeyOf(UserRow(u.s)) in m then Get(m[KeyOf(UserRow(u.s))], "name", Str(placeholder))
    else Str(placeholder)
  }

  /** One line per user, in first-appearance order. */
  function Standings(items: seq<Item>, m: map<Key, Item>, placeholder: string): seq<Standing>
    requires AllScored(items)
  {
    var us := Users(items);
    seq(|us|, i requires 0 <= i < |us| => Standing(us[i], NameOf(m, us[i], placeholder), UserTotal(items, us[i])))
  }

  /** `sort(key=lambda x: x['score'], reverse=True)` is the stable ascending
      sort by the negated score. */
  function ByScore(s: Standing): real
  {
    -s.score
  }

  /** The lines with `rank` set to their 1-based position. */
  function Ranked(s: seq<Standing>): (r: seq<Entry>)
    ensures |r| == |s|
    ensures forall i :: 0 <= i < |s| ==> r[i] == Entry(s[i].userId, s[i].username, s[i].score, i + 1)
  {
    if s == [] then []
    else
      var last := s[|s| - 1];
      Ranked(s[..|s| - 1]) + [Entry(last.userId, last.username, last.score, |s|)]
  }

  /** The full leaderboard of a scope whose items all have a readable score. */
  function Board(items: seq<Item>, m: map<Key, Item>, placeholder: string): seq<Entry>
    requires AllScored(items)
  {
    Ranked(SortBy(Standings(items, m, placeholder), ByScore))
  }

  /** The leaderboard, or 500 when some `best_score` is not a number. */
  function Ranking(items: seq<Item>, m: map<Key, Item>, placeholder: string): Result<seq<Entry>>
  {
    if AllScored(items) then Ok(Board(items, m, placeholder)) else Failure(ServerError)
  }

  /** `leaderboard[:limit]` */
  function Top(board: seq<Entry>, limit: nat): (r: seq<Entry>)
    ensures |r| == if limit < |board| then limit else |board|
    ensures r <= board
  {
    if limit < |board| then board[..limit] else board
  }

  function Limited(r: Result<seq<Entry>>, limit: nat): Result<seq<Entry>>
  {
    match r
    case Ok(board) => Ok(Top(board, limit))
    case Failure(status) => Failure(status)
  }

  // ----- Scopes -----

  predicate IsProgress(item: Item)
  {
    Get(item, "entity_type", Null) == Str(ProgressEntity)
  }

  /** The scan filter of `calculate_user_scores_for_scope`: progress items,
      and with a non-empty scope only those whose `level_id` starts with it. */
  predicate InScope(item: Item, scope: string)
  {
    IsProgress(item) && (scope == "" || (UserLevel(item).Str? && StartsWith(UserLevel(item).s, scope)))
  }

  function UserLevel(item: Item): Value
  {
    Get(item, "level_id", Null)
  }

  function ScopeProgress(rows: seq<Item>, scope: string): seq<Item>
  {
    Filter(rows, x => InScope(x, scope))
  }

  /** The progress items of one level. */
  function LevelProgress(rows: seq<Item>, level: string): seq<Item>
  {
    Filter(rows, x => IsProgress(x) && UserLevel(x) == Str(level))
  }

  /** The query `PK = TOPIC#t AND begins_with(SK, 'LEVEL#')`. */
  predicate IsLevelOf(item: Item, topic: string)
  {
    && Get(item, "PK", Null) == Str(TopicPrefix + topic)
    && Get(item, "SK", Null).Str? && StartsWith(Get(item, "SK", Null).s, LevelPrefix)
  }

  function SortKeyText(item: Item): string
  {
    match Get(item, "SK", Null)
    case Str(s) => s
    case _ => ""
  }

  /** `[item['SK'].replace('LEVEL#', '') for item in levels]` */
  function TopicLevelIds(rows: seq<Item>, topic: string): seq<string>
  {
    Map(Filter(rows, x => IsLevelOf(x, topic)), x => LevelIdOfSortKey(SortKeyText(x)))
  }

  /** The per-level scans, one after the other: `all_progress.extend(...)`. */
  function ProgressOfLevels(rows: seq<Item>, levels: seq<string>): (r: seq<Item>)
    ensures forall x :: x in r <==> exists i :: 0 <= i < |levels| && x in LevelProgress(rows, levels[i])
  {
    if levels == [] then []
    else
      var init := levels[..|levels| - 1];
      assert forall i :: 0 <= i < |init| ==> init[i] == levels[i];
      ProgressOfLevels(rows, init) + LevelProgress(rows, levels[|levels| - 1])
  }

  function TopicProgress(rows: seq<Item>, topic: string): seq<Item>
  {
    ProgressOfLevels(rows, TopicLevelIds(rows, topic))
  }

  /** `get_topic_leaderboard`: no level under the topic gives an empty list. */
  function TopicLeaderboard(rows: seq<Item>, m: map<Key, Item>, topic: string, limit: nat): Result<seq<Entry>>
  {
    if TopicLevelIds(rows, topic) == [] then Ok([])
    else Limited(Ranking(TopicProgress(rows, topic), m, UnknownUser), limit)
  }

  /** The leaderboard `get_user_rank` builds for a scope string. The 400 for
      an unknown scope is raised inside the endpoint's catch-all, which turns
      it into a 500. */
  function ScopeBoard(rows: seq<Item>, m: map<Key, Item>, scope: string): Result<seq<Entry>>
  {
    if scope == "global" then Ranking(ScopeProgress(rows, ""), m, UnknownUser)
    else if StartsWith(scope, "topic:") then Ranking(TopicProgress(rows, scope[6..]), m, Unknown)
    else if StartsWith(scope, "level:") then Ranking(LevelProgress(rows, scope[6..]), m, Unknown)
    else Failure(ServerError)
  }

  /** `next((e for e in leaderboard if e['user_id'] == u), None)`, as an index. */
  function FindUser(board: seq<Entry>, u: Value): (r: Option<nat>)
    ensures r.Some? ==> r.value < |board| && board[r.value].userId == u
    ensures r.Some? ==> forall j :: 0 <= j < r.value ==> board[j].userId != u
    ensures r.None? ==> forall j :: 0 <= j < |board| ==> board[j].userId != u
  {
    if board == [] then None
    else if board[0].userId == u then Some(0)
    else
      match FindUser(board[1..], u)
      case None => None
      case Some(k) => Some(k + 1)
  }

  function Report(board: seq<Entry>, userId: string): RankReport
  {
    match FindUser(board, Str(userId))
    case None => RankReport(userId, None, 0.0, |board|)
    case Some(i) => RankReport(userId, Some(board[i].rank), board[i].score, |board|)
  }

  function UserRank(rows: seq<Item>, m: map<Key, Item>, userId: string, scope: string): Result<RankReport>
  {
    match ScopeBoard(rows, m, scope)
    case Ok(board) => Ok(Report(board, userId))
    case Failure(status) => Failure(status)
  }

  // ----- The endpoints' loops -----

  /** Taking one more item into the running totals: its user joins the
      list on first sight and its score is added to that user's total only. */
  lemma {:induction false} TotalsStep(items: seq<Item>, i: nat)
    requires i < |items| && AllScored(items[..i]) && ScoreOf(items[i]).Some?
    ensures AllScored(items[..i + 1])
    ensures Users(items[..i + 1]) ==
      if UserOf(items[i]) in Users(items[..i]) then Users(items[..i]) else Users(items[..i]) + [UserOf(items[i])]
    ensures forall u ::
      UserTotal(items[..i + 1], u) == UserTotal(items[..i], u) + (if UserOf(items[i]) == u then ScoreOf(items[i]).value else 0.0)
  {
    assert items[..i + 1][..i] == items[..i];
    assert items[..i + 1][i] == items[i];
  }

  /** The aggregation loop: `user_scores[user_id] += score`, or a first entry;
      `None` where `float()` raises. */
  method AggregateScores(items: seq<Item>) returns (r: Option<Totals>)
    ensures r.None? <==> !AllScored(items)
    ensures r.Some? ==> r.value.users == Users(items)
    ensures r.Some? ==> forall u :: u in r.value.sums <==> u in Users(items)
    ensures r.Some? ==> forall u :: u in r.value.sums ==> r.value.sums[u] == UserTotal(items, u)
  {
    var users: seq<Value> := [];
    var sums: map<Value, real> := map[];
    var i := 0;
    while i < |items|
      invariant 0 <= i <= |items|
      invariant AllScored(items[..i])
      invariant users == Users(items[..i])
      invariant forall u :: u in sums <==> u in users
      invariant forall u :: u in sums ==> sums[u] == UserTotal(items[..i], u)
    {
      var score := ScoreOf(items[i]);
      if score.None? {
        return None;
      }
      var u := UserOf(items[i]);
      TotalsStep(items, i);
      if u in sums {
        sums := sums[u := sums[u] + score.value];
      } else {
        UserTotalAbsent(items[..i], u);
        users := users + [u];
        sums := sums[u := score.value];
      }
      i := i + 1;
    }
    assert items[..i] == items;
    return Some(Totals(users, sums));
  }

  /** The name lookups: one `get_item` on `(USER#u, METADATA)` per user. */
  method ResolveNames(table: Table, t: Totals, placeholder: string) returns (s: seq<Standing>)
    requires forall u :: u in t.users ==> u in t.sums
    ensures |s| == |t.users|
    ensures forall i :: 0 <= i < |s| ==> s[i] == Standing(t.users[i], NameOf(table.items, t.users[i], placeholder), t.sums[t.users[i]])
  {
    s := [];
    var i := 0;
    while i < |t.users|
      invariant 0 <= i <= |t.users|
      invariant |s| == i
      invariant forall j :: 0 <= j < i ==> s[j] == Standing(t.users[j], NameOf(table.items, t.users[j], placeholder), t.sums[t.users[j]])
    {
      var u := t.users[i];
      var name := Str(placeholder);
      if u.Str? && KeyOf(UserRow(u.s)) in table.items {
        name := Get(table.items[KeyOf(UserRow(u.s))], "name", Str(placeholder));
      }
      s := s + [Standing(u, name, t.sums[u])];
      i := i + 1;
    }
  }

  /** `for idx, entry in enumerate(leaderboard, 1): entry['rank'] = idx` */
  method AssignRanks(s: seq<Standing>) returns (r: seq<Entry>)
    ensures r == Ranked(s)
  {
    r := [];
    var i := 0;
    while i < |s|
      invariant 0 <= i <= |s|
      invariant r == Ranked(s[..i])
    {
      assert s[..i + 1][..i] == s[..i];
      r := r + [Entry(s[i].userId, s[i].username, s[i].score, i + 1)];
      i := i + 1;
    }
    assert s[..i] == s;
  }

  /** Aggregate, name, sort, rank: the pipeline every scope shares. */
  method BuildLeaderboard(table: Table, items: seq<Item>, placeholder: string) returns (r: Result<seq<Entry>>)
    ensures r == Ranking(items, table.items, placeholder)
  {
    var totals := AggregateScores(items);
    if totals.None? {
      return Failure(ServerError);
    }
    var standings := ResolveNames(table, totals.value, placeholder);
    assert standings == Standings(items, table.items, placeholder);
    var ranked := AssignRanks(SortBy(standings, ByScore));
    return Ok(ranked);
  }

  // ----- Endpoints -----

  method CalculateUserScoresForScope(table: Table, scopeFilter: string) returns (r: Result<seq<Entry>>)
    requires table.Valid()
    ensures r == Ranking(ScopeProgress(table.Rows(), scopeFilter), table.items, UnknownUser)
  {
    r := BuildLeaderboard(table, ScopeProgress(table.Rows(), scopeFilter), UnknownUser);
  }

  method GetGlobalLeaderboard(table: Table, limit: int) returns (r: Result<seq<Entry>>)
    requires table.Valid()
    requires 1 <= limit <= 100
    ensures r == Limited(Ranking(ScopeProgress(table.Rows(), ""), table.items, UnknownUser), limit)
  {
    var board := CalculateUserScoresForScope(table, "");
    r := Limited(board, limit);
  }

  method GetTopicLeaderboard(table: Table, topicId: string, limit: int) returns (r: Result<seq<Entry>>)
    requires table.Valid()
    requires 1 <= limit <= 100
    ensures r == TopicLeaderboard(table.Rows(), table.items, topicId, limit)
  {
    var rows := table.Rows();
    var levelIds := TopicLevelIds(rows, topicId);
    if levelIds == [] {
      return Ok([]);
    }
    var all: seq<Item> := [];
    var i := 0;
    while i < |levelIds|
      invariant 0 <= i <= |levelIds|
      invariant all == ProgressOfLevels(rows, levelIds[..i])
    {
      assert levelIds[..i + 1][..i] == levelIds[..i];
      all := all + LevelProgress(rows, levelIds[i]);
      i := i + 1;
    }
    assert levelIds[..i] == levelIds;
    var board := BuildLeaderboard(table, all, UnknownUser);
    r := Limited(board, limit);
  }

  method GetLevelLeaderboard(table: Table, levelId: string, limit: int) returns (r: Result<seq<Entry>>)
    requires table.Valid()
    requires 1 <= limit <= 100
    ensures r == Limited(Ranking(LevelProgress(table.Rows(), levelId), table.items, UnknownUser), limit)
  {
    var board := BuildLeaderboard(table, LevelProgress(table.Rows(), levelId), UnknownUser);
    r := Limited(board, limit);
  }

  method GetUserRank(table: Table, userId: string, scope: string) returns (r: Result<RankReport>)
    requires table.Valid()
    ensures r == UserRank(table.Rows(), table.items, userId, scope)
  {
    var rows := table.Rows();
    var board: Result<seq<Entry>>;
    if scope == "global" {
      board := CalculateUserScoresForScope(table, "");
    } else if StartsWith(scope, "topic:") {
      board := BuildLeaderboard(table, TopicProgress(rows, scope[6..]), Unknown);
    } else if StartsWith(scope, "level:") {
      board := BuildLeaderboard(table, LevelProgress(rows, scope[6..]), Unknown);
    } else {
      return Failure(ServerError);
    }
    if board.Failure? {
      return Failure(board.status);
    }
    r := Ok(Report(board.value, userId));
  }

  // ----- Properties -----

  /** The board is ordered by non-increasing score, and ranks are 1..n in that order. */
  lemma BoardOrdered(items: seq<Item>, m: map<Key, Item>, placeholder: string)
    requires AllScored(items)
    ensures var b := Board(items, m, placeholder);
      && (forall i, j :: 0 <= i < j < |b| ==> b[i].score >= b[j].score)
      && (forall i :: 0 <= i < |b| ==> b[i].rank == i + 1)
  {
    SortIsSorted(Standings(items, m, placeholder), ByScore);
  }

  /** The user ids of a board, in order. */
  function UserIds(b: seq<Entry>): (r: seq<Value>)
    ensures |r| == |b| && forall i :: 0 <= i < |b| ==> r[i] == b[i].userId
  {
    Map(b, (e: Entry) => e.userId)
  }

  /** Every line of the board is the standing of one user. */
  lemma BoardFromStandings(items: seq<Item>, m: map<Key, Item>, placeholder: string, i: nat)
    requires AllScored(items)
    requires i < |Board(items, m, placeholder)|
    ensures var b := Board(items, m, placeholder);
      exists j :: 0 <= j < |Users(items)| && Standings(items, m, placeholder)[j] == Standing(b[i].userId, b[i].username, b[i].score)
  {
    var st := Standings(items, m, placeholder);
    var ss := SortBy(st, ByScore);
    SortIsPermutation(st, ByScore);
    assert ss[i] in multiset(st);
  }

  /** No user appears twice. */
  lemma BoardDistinct(items: seq<Item>, m: map<Key, Item>, placeholder: string)
    requires AllScored(items)
    ensures Distinct(UserIds(Board(items, m, placeholder)))
  {
    var st := Standings(items, m, placeholder);
    var us := Users(items);
    SortIsPermutation(st, ByScore);
    forall i, j | 0 <= i < j < |st| ensures st[i].userId != st[j].userId {
      assert st[i].userId == us[i] && st[j].userId == us[j];
    }
    SortKeepsDistinct(st, ByScore, (s: Standing) => s.userId);
  }

  /** The users on the board are exactly the users with an item in scope. */
  lemma BoardUsers(items: seq<Item>, m: map<Key, Item>, placeholder: string)
    requires AllScored(items)
    ensures forall u :: u in UserIds(Board(items, m, placeholder)) <==> u in Users(items)
  {
    var st := Standings(items, m, placeholder);
    var us := Users(items);
    var ss := SortBy(st, ByScore);
    var ids := UserIds(Board(items, m, placeholder));
    SortIsPermutation(st, ByScore);
    forall u | u in ids ensures u in us {
      var i :| 0 <= i < |ids| && ids[i] == u;
      BoardFromStandings(items, m, placeholder, i);
    }
    forall u | u in us ensures u in ids {
      var j :| 0 <= j < |us| && us[j] == u;
      assert st[j] in multiset(ss);
      var i :| 0 <= i < |ss| && ss[i] == st[j];
      assert ids[i] == u;
    }
  }

  /** Each user's score is the sum of their best scores in scope, and their
      name is the one their metadata row gives. */
  lemma BoardScores(items: seq<Item>, m: map<Key, Item>, placeholder: string)
    requires AllScored(items)
    ensures var b := Board(items, m, placeholder);
      forall i :: 0 <= i < |b| ==> b[i].score == UserTotal(items, b[i].userId) && b[i].username == NameOf(m, b[i].userId, placeholder)
  {
    var b := Board(items, m, placeholder);
    forall i | 0 <= i < |b| ensures b[i].score == UserTotal(items, b[i].userId) && b[i].username == NameOf(m, b[i].userId, placeholder) {
      BoardFromStandings(items, m, placeholder, i);
    }
  }

  /** Ties keep the order in which their users first appear in the scan:
      any ordering of the lines that is sorted by score and keeps that order
      within each score is the board itself. */
  lemma BoardUnique(items: seq<Item>, m: map<Key, Item>, placeholder: string, x: seq<Standing>)
    requires AllScored(items)
    requires SortedBy(x, ByScore)
    requires forall v :: WithKey(x, ByScore, v) == WithKey(Standings(items, m, placeholder), ByScore, v)
    ensures Ranked(x) == Board(items, m, placeholder)
  {
    var st := Standings(items, m, placeholder);
    SortIsSorted(st, ByScore);
    forall v ensures WithKey(x, ByScore, v) == WithKey(SortBy(st, ByScore), ByScore, v) {
      SortIsStable(st, ByScore, v);
    }
    StableSortUnique(x, SortBy(st, ByScore), ByScore);
  }

  /** A returned list is the first `min(limit, n)` entries of the full ranking. */
  lemma LimitedIsPrefix(r: Result<seq<Entry>>, limit: nat)
    requires r.Ok?
    ensures Limited(r, limit).Ok?
    ensures Limited(r, limit).value == r.value[..if limit < |r.value| then limit else |r.value|]
  {
  }

  /** The topic scope holds exactly the progress items whose `level_id` is one
      of the level ids read from the topic's `LEVEL#` rows. */
  lemma TopicScope(rows: seq<Item>, topic: string, x: Item)
    ensures x in TopicProgress(rows, topic) <==>
      x in rows && IsProgress(x) && exists l :: l in TopicLevelIds(rows, topic) && UserLevel(x) == Str(l)
  {
    var lids := TopicLevelIds(rows, topic);
    if x in TopicProgress(rows, topic) {
      var i :| 0 <= i < |lids| && x in LevelProgress(rows, lids[i]);
      assert lids[i] in lids;
    }
    if x in rows && IsProgress(x) && exists l :: l in lids && UserLevel(x) == Str(l) {
      var l :| l in lids && UserLevel(x) == Str(l);
      var i :| 0 <= i < |lids| && lids[i] == l;
      assert x in LevelProgress(rows, lids[i]);
    }
  }

  /** What the rank endpoint reports on a board: the user's rank and total
      when present, otherwise no rank and a score of 0; the user count always. */
  lemma ReportFacts(items: seq<Item>, m: map<Key, Item>, placeholder: string, userId: string)
    requires AllScored(items)
    ensures var rep := Report(Board(items, m, placeholder), userId);
      && rep.totalUsers == |Users(items)|
      && (rep.rank.Some? <==> Str(userId) in Users(items))
      && (rep.rank.Some? ==> 1 <= rep.rank.value <= rep.totalUsers && rep.score == UserTotal(items, Str(userId)))
      && (rep.rank.None? ==> rep.score == 0.0)
  {
    var b := Board(items, m, placeholder);
    BoardUsers(items, m, placeholder);
    BoardScores(items, m, placeholder);
    SortIsPermutation(Standings(items, m, placeholder), ByScore);
    match FindUser(b, Str(userId))
    case None =>
      assert Str(userId) !in UserIds(b);
    case Some(i) =>
      assert UserIds(b)[i] == Str(userId);
  }

  /** An unrecognised scope ends in 500, not the 400 raised for it. */
  lemma UnknownScopeIsServerError(rows: seq<Item>, m: map<Key, Item>, userId: string, scope: string)
    requires scope != "global" && !StartsWith(scope, "topic:") && !StartsWith(scope, "level:")
    ensures UserRank(rows, m, userId, scope) == Failure(ServerError)
  {
  }
}
