/** The leaderboard: every registered member's total over all stored
    ballots, ranked by total (highest first, ties in registry order) and
    cut to the top three, together with the number of ballots. The same
    computation backs the Express server's results route, the serverless
    results handler and the client's local fallback. */
module Aggregation {
  import opened Model
  import Registry

  /** A leaderboard row: the member's own fields plus its total. */
  datatype ResultRow = ResultRow(member: Member, totalScore: int)

  /** The `{results, totalVotes}` payload. */
  datatype Results = Results(results: seq<ResultRow>, totalVotes: nat)

  /** The leaderboard is not configurable: three rows at most. */
  const LeaderboardSize: nat := 3

  /** Points a ballot gives to `id`. */
  function PointsFor(scores: Scores, id: string): int
  {
    if scores == [] then 0
    else
      var last := scores[|scores| - 1];
      PointsFor(scores[..|scores| - 1], id) + (if last.0 == id then last.1 else 0)
  }

  /** The total a member with id `id` receives over the ballots `votes`. */
  function TotalFor(votes: seq<Vote>, id: string): int
  {
    if votes == [] then 0
    else TotalFor(votes[..|votes| - 1], id) + PointsFor(votes[|votes| - 1].scores, id)
  }

  /** `scores[id] || 0` on the accumulator object: an id never written reads as 0. */
  function Lookup(acc: map<string, int>, id: string): int
  {
    if id in acc then acc[id] else 0
  }

  /** One row per registered member, in registry order, before sorting. */
  function Rows(members: seq<Member>, votes: seq<Vote>): (r: seq<ResultRow>)
    ensures |r| == |members|
    ensures forall i :: 0 <= i < |members| ==> r[i] == ResultRow(members[i], TotalFor(votes, members[i].id))
  {
    seq(|members|, i requires 0 <= i < |members| => ResultRow(members[i], TotalFor(votes, members[i].id)))
  }

  /** Non-increasing by total. */
  predicate SortedDesc(s: seq<ResultRow>) {
    forall i, j :: 0 <= i < j < |s| ==> s[i].totalScore >= s[j].totalScore
  }

  /** One step of a stable insertion sort: `x` passes every trailing row
      whose total is strictly smaller than its own, and no other. */
  function Insert(s: seq<ResultRow>, x: ResultRow): (r: seq<ResultRow>)
    ensures multiset(r) == multiset(s) + multiset{x}
    ensures |r| == |s| + 1
  {
    if s == [] || s[|s| - 1].totalScore >= x.totalScore then s + [x]
    else
      assert s == s[..|s| - 1] + [s[|s| - 1]];
      Insert(s[..|s| - 1], x) + [s[|s| - 1]]
  }

  /** The order `results.sort((a, b) => b.totalScore - a.totalScore)` leaves
      the rows in. The sort is stable (section 23.1.3.30 of ECMA-262, since
      the 2019 edition), so this order is the only one that is non-increasing
      by total and keeps rows of equal total in their original order; the
      lemmas SortDescSorted and SortDescStable prove both of SortDesc. */
  function SortDesc(s: seq<ResultRow>): (r: seq<ResultRow>)
    ensures multiset(r) == multiset(s)
    ensures |r| == |s|
  {
    if s == [] then []
    else
      assert s == s[..|s| - 1] + [s[|s| - 1]];
      Insert(SortDesc(s[..|s| - 1]), s[|s| - 1])
  }

  /** The full ranking, before the cut to three. */
  function Ranking(members: seq<Member>, votes: seq<Vote>): seq<ResultRow>
  {
    SortDesc(Rows(members, votes))
  }

  /** What the results endpoint answers. */
  function Leaderboard(members: seq<Member>, votes: seq<Vote>): Results
  {
    var ranked := Ranking(members, votes);
    var n := if |ranked| < LeaderboardSize then |ranked| else LeaderboardSize;
    Results(ranked[..n], |votes|)
  }

  // ---------------------------------------------------------------------
  // The computation as the handlers run it.

  /** One pass of the insertion sort: `a[i]` moves left past every row
      with a strictly smaller total, so `a[..i + 1]` becomes the ranking of
      `a[..i]` with `a[i]` inserted. */
  method InsertAt(a: array<ResultRow>, i: nat)
    requires i < a.Length
    modifies a
    ensures a[..] == Insert(old(a[..])[..i], old(a[..])[i]) + old(a[..])[i + 1..]
  {
    ghost var sorted, rest := a[..][..i], a[..][i + 1..];
    var x := a[i];
    ghost var pre, post := sorted, [];
    assert a[..] == pre + [x] + post + rest;
    var j := i;
    while j > 0 && a[j - 1].totalScore < x.totalScore
      invariant 0 <= j <= i && |pre| == j && |post| == i - j
      invariant a[..] == pre + [x] + post + rest
      invariant Insert(sorted, x) == Insert(pre, x) + post
    {
      ghost var before := a[..];
      assert a[j - 1] == before[j - 1] == pre[j - 1];
      var prev := a[j - 1];
      InsertStep(pre, x, sorted, post);
      SwapLeft(pre, x, post, rest);
      a[j - 1], a[j] := x, prev;
      assert a[..] == before[j - 1 := x][j := prev];
      pre, post := pre[..j - 1], [prev] + post;
      j := j - 1;
    }
    InsertStop(pre, x);
    assert a[..] == Insert(sorted, x) + rest;
  }

  lemma InsertStep(s: seq<ResultRow>, x: ResultRow, sorted: seq<ResultRow>, post: seq<ResultRow>)
    requires s != [] && s[|s| - 1].totalScore < x.totalScore
    requires Insert(sorted, x) == Insert(s, x) + post
    ensures Insert(sorted, x) == Insert(s[..|s| - 1], x) + ([s[|s| - 1]] + post)
  {
  }

  lemma InsertStop(s: seq<ResultRow>, x: ResultRow)
    requires s == [] || s[|s| - 1].totalScore >= x.totalScore
    ensures Insert(s, x) == s + [x]
  {
  }

  lemma SplitAt<T>(front: seq<T>, back: seq<T>)
    ensures (front + back)[..|front|] == front && (front + back)[|front|..] == back
  {
  }

  /** The swap of the insertion pass, on the array's contents. */
  lemma SwapLeft(pre: seq<ResultRow>, x: ResultRow, post: seq<ResultRow>, rest: seq<ResultRow>)
    requires pre != []
    ensures (pre + [x] + post + rest)[|pre| - 1 := x][|pre| := pre[|pre| - 1]]
         == pre[..|pre| - 1] + [x] + ([pre[|pre| - 1]] + post) + rest
  {
  }

  /** `results.sort(...)` on the array of rows, as a stable insertion sort. */
  method SortByTotalDesc(a: array<ResultRow>)
    modifies a
    ensures a[..] == SortDesc(old(a[..]))
  {
    ghost var orig := a[..];
    var i := 0;
    while i < a.Length
      invariant 0 <= i <= a.Length
      invariant a[..] == SortDesc(orig[..i]) + orig[i..]
    {
      ghost var before := a[..];
      InsertAt(a, i);
      SortStep(orig, i, before, a[..]);
      i := i + 1;
    }
    assert orig[..a.Length] == orig;
    assert orig[a.Length..] == [];
  }

  /** One pass of the outer loop extends the sorted prefix by one row. */
  lemma SortStep(orig: seq<ResultRow>, i: nat, before: seq<ResultRow>, after: seq<ResultRow>)
    requires i < |orig|
    requires before == SortDesc(orig[..i]) + orig[i..]
    requires after == Insert(before[..i], before[i]) + before[i + 1..]
    ensures after == SortDesc(orig[..i + 1]) + orig[i + 1..]
  {
    var sorted := SortDesc(orig[..i]);
    SplitAt(sorted, orig[i..]);
    assert before[i] == orig[i] by {
      assert before[i..][0] == before[i];
    }
    assert before[i + 1..] == orig[i + 1..] by {
      assert before[i + 1..] == before[i..][1..];
    }
    var p := orig[..i + 1];
    assert p[..i] == orig[..i];
    assert SortDesc(p) == Insert(sorted, orig[i]);
  }

  /** The inner loop over one ballot: every entry adds its points to the
      running total of its id, registered or not. */
  method AddBallot(acc: map<string, int>, s: Scores) returns (r: map<string, int>)
    ensures forall k :: Lookup(r, k) == Lookup(acc, k) + PointsFor(s, k)
  {
    r := acc;
    for j := 0 to |s|
      invariant forall k :: Lookup(r, k) == Lookup(acc, k) + PointsFor(s[..j], k)
    {
      assert s[..j + 1][..j] == s[..j];
      r := r[s[j].0 := Lookup(r, s[j].0) + s[j].1];
    }
    assert s[..|s|] == s;
  }

  /** The accumulator object after the two loops: every registered id set
      to 0, then every ballot's points added. Reading it with `|| 0` gives
      each id's total over all ballots. */
  method Tally(members: seq<Member>, votes: seq<Vote>) returns (acc: map<string, int>)
    ensures forall k :: Lookup(acc, k) == TotalFor(votes, k)
  {
    acc := map[];
    for m := 0 to |members|
      invariant forall k :: k in acc ==> acc[k] == 0
    {
      acc := acc[members[m].id := 0];
    }
    for i := 0 to |votes|
      invariant forall k :: Lookup(acc, k) == TotalFor(votes[..i], k)
    {
      assert votes[..i + 1][..i] == votes[..i];
      acc := AddBallot(acc, votes[i].scores);
    }
    assert votes[..|votes|] == votes;
  }

  /** The results handler's body: tally, build one row per member in
      registry order, sort, keep three. */
  method CalculateResults(members: seq<Member>, votes: seq<Vote>) returns (r: Results)
    ensures r == Leaderboard(members, votes)
  {
    var acc := Tally(members, votes);
    var rows := new ResultRow[|members|](n requires 0 <= n < |members| => ResultRow(members[n], Lookup(acc, members[n].id)));
    assert rows[..] == Rows(members, votes);
    SortByTotalDesc(rows);
    var n := if rows.Length < LeaderboardSize then rows.Length else LeaderboardSize;
    r := Results(rows[..n], |votes|);
  }

  // ---------------------------------------------------------------------
  // Properties of the sort.

  lemma {:induction false} InsertSorted(s: seq<ResultRow>, x: ResultRow)
    requires SortedDesc(s)
    ensures SortedDesc(Insert(s, x))
    decreases |s|
  {
    if s == [] || s[|s| - 1].totalScore >= x.totalScore {
    } else {
      var init, last := s[..|s| - 1], s[|s| - 1];
      InsertSorted(init, x);
      var front := Insert(init, x);
      forall k | 0 <= k < |front| ensures front[k].totalScore >= last.totalScore {
        assert front[k] in multiset(front);
        if front[k] != x {
          assert front[k] in multiset(init);
          var p :| 0 <= p < |init| && init[p] == front[k];
          assert s[p] == init[p];
        }
      }
    }
  }

  /** The ranking is non-increasing by total. */
  lemma {:induction false} SortDescSorted(s: seq<ResultRow>)
    ensures SortedDesc(SortDesc(s))
    decreases |s|
  {
    if s != [] {
      SortDescSorted(s[..|s| - 1]);
      InsertSorted(SortDesc(s[..|s| - 1]), s[|s| - 1]);
    }
  }

  /** The rows of `s` whose total is `v`, in their order in `s`. */
  function WithTotal(s: seq<ResultRow>, v: int): seq<ResultRow>
  {
    if s == [] then []
    else WithTotal(s[..|s| - 1], v) + (if s[|s| - 1].totalScore == v then [s[|s| - 1]] else [])
  }

  lemma WithTotalSnoc(s: seq<ResultRow>, y: ResultRow, v: int)
    ensures WithTotal(s + [y], v) == WithTotal(s, v) + (if y.totalScore == v then [y] else [])
  {
    assert (s + [y])[..|s|] == s;
  }

  lemma {:induction false} InsertKeepsTies(s: seq<ResultRow>, x: ResultRow, v: int)
    ensures WithTotal(Insert(s, x), v) == WithTotal(s, v) + (if x.totalScore == v then [x] else [])
    decreases |s|
  {
    if s == [] || s[|s| - 1].totalScore >= x.totalScore {
      WithTotalSnoc(s, x, v);
    } else {
      var init, last := s[..|s| - 1], s[|s| - 1];
      var front := Insert(init, x);
      assert s == init + [last];
      InsertUnfold(s, x);
      InsertKeepsTies(init, x, v);
      WithTotalSnoc(front, last, v);
      WithTotalSnoc(init, last, v);
      if x.totalScore == v {
        assert WithTotal(front + [last], v) == WithTotal(init, v) + [x];
        assert WithTotal(s, v) == WithTotal(init, v);
      } else {
        assert WithTotal(front, v) == WithTotal(init, v);
      }
    }
  }

  lemma InsertUnfold(s: seq<ResultRow>, x: ResultRow)
    requires s != [] && s[|s| - 1].totalScore < x.totalScore
    ensures Insert(s, x) == Insert(s[..|s| - 1], x) + [s[|s| - 1]]
  {
  }

  /** Rows of equal total keep their original relative order. */
  lemma {:induction false} SortDescStable(s: seq<ResultRow>, v: int)
    ensures WithTotal(SortDesc(s), v) == WithTotal(s, v)
    decreases |s|
  {
    if s != [] {
      SortDescStable(s[..|s| - 1], v);
      InsertKeepsTies(SortDesc(s[..|s| - 1]), s[|s| - 1], v);
    }
  }

  // ---------------------------------------------------------------------
  // Properties of the leaderboard.

  /** `results` holds min(3, |members|) rows and `totalVotes` counts every
      stored ballot. */
  lemma LeaderboardShape(members: seq<Member>, votes: seq<Vote>)
    ensures |Leaderboard(members, votes).results| == if |members| < LeaderboardSize then |members| else LeaderboardSize
    ensures Leaderboard(members, votes).totalVotes == |votes|
  {
    assert |Ranking(members, votes)| == |multiset(Ranking(members, votes))| == |multiset(Rows(members, votes))|;
  }

  /** The full ranking holds every registered member exactly as often as
      the registry does, each with the sum of its points over all ballots,
      and nothing else: ids not in the registry never produce a row. */
  lemma RankingIsRegistry(members: seq<Member>, votes: seq<Vote>)
    ensures multiset(Ranking(members, votes)) == multiset(Rows(members, votes))
    ensures forall row :: row in Ranking(members, votes) ==>
              row.member in members && row.totalScore == TotalFor(votes, row.member.id)
  {
    forall row | row in Ranking(members, votes)
      ensures row.member in members && row.totalScore == TotalFor(votes, row.member.id)
    {
      assert row in multiset(Rows(members, votes));
      var i :| 0 <= i < |members| && Rows(members, votes)[i] == row;
    }
  }

  /** The ranking is non-increasing, ties stay in registry order, and the
      leaderboard is its first three rows. */
  lemma RankingOrder(members: seq<Member>, votes: seq<Vote>)
    ensures SortedDesc(Ranking(members, votes))
    ensures forall v :: WithTotal(Ranking(members, votes), v) == WithTotal(Rows(members, votes), v)
    ensures Leaderboard(members, votes).results <= Ranking(members, votes)
  {
    var rows := Rows(members, votes);
    var ranked := SortDesc(rows);
    SortDescSorted(rows);
    forall v ensures WithTotal(ranked, v) == WithTotal(rows, v) {
      SortDescStable(rows, v);
    }
    var n := if |ranked| < LeaderboardSize then |ranked| else LeaderboardSize;
    assert Leaderboard(members, votes).results == ranked[..n];
  }

  /** In a non-increasing sequence, whatever is left out of a prefix is no
      larger than anything in it. */
  lemma PrefixIsTop(ranked: seq<ResultRow>, n: nat)
    requires SortedDesc(ranked) && n <= |ranked|
    ensures forall x :: x in multiset(ranked) - multiset(ranked[..n]) ==>
              forall i :: 0 <= i < n ==> x.totalScore <= ranked[i].totalScore
  {
    var top, rest := ranked[..n], ranked[n..];
    assert ranked == top + rest;
    assert multiset(ranked) - multiset(top) == multiset(rest);
    forall x: ResultRow | x in multiset(rest)
      ensures forall i :: 0 <= i < n ==> x.totalScore <= ranked[i].totalScore
    {
      var k :| 0 <= k < |rest| && rest[k] == x;
      assert ranked[n + k] == x;
    }
  }

  /** The rows shown are the highest: every registered member left out has
      a total no larger than any shown row's. */
  lemma LeaderboardIsTop(members: seq<Member>, votes: seq<Vote>)
    ensures forall x :: x in multiset(Rows(members, votes)) - multiset(Leaderboard(members, votes).results) ==>
              forall i :: 0 <= i < |Leaderboard(members, votes).results| ==>
                x.totalScore <= Leaderboard(members, votes).results[i].totalScore
  {
    var ranked := Ranking(members, votes);
    SortDescSorted(Rows(members, votes));
    PrefixIsTop(ranked, |Leaderboard(members, votes).results|);
  }

  /** With no ballots, every row shows 0 and `totalVotes` is 0; with no
      members, there are no rows. */
  lemma LeaderboardEmpty(members: seq<Member>, votes: seq<Vote>)
    ensures votes == [] ==> (Leaderboard(members, votes).totalVotes == 0 &&
              forall row :: row in Leaderboard(members, votes).results ==> row.totalScore == 0)
    ensures members == [] ==> Leaderboard(members, votes).results == []
  {
    RankingIsRegistry(members, votes);
  }

  /** Totals add up over a split of the ballots, so a ballot stored twice
      counts twice. */
  lemma {:induction false} TotalForAppend(a: seq<Vote>, b: seq<Vote>, id: string)
    ensures TotalFor(a + b, id) == TotalFor(a, id) + TotalFor(b, id)
    decreases |b|
  {
    if b != [] {
      assert (a + b)[..|a + b| - 1] == a + b[..|b| - 1];
      TotalForAppend(a, b[..|b| - 1], id);
    } else {
      assert a + b == a;
    }
  }

  // ---------------------------------------------------------------------
  // Conservation of points.

  /** The ids of a registry. */
  function Ids(members: seq<Member>): set<string>
  {
    set m | m in members :: m.id
  }

  /** Points a ballot gives to any of the ids in `ids`. */
  function PointsForAny(scores: Scores, ids: set<string>): int
  {
    if scores == [] then 0
    else
      var last := scores[|scores| - 1];
      PointsForAny(scores[..|scores| - 1], ids) + (if last.0 in ids then last.1 else 0)
  }

  /** Points all ballots give to registered ids. */
  function TotalForAny(votes: seq<Vote>, ids: set<string>): int
  {
    if votes == [] then 0
    else TotalForAny(votes[..|votes| - 1], ids) + PointsForAny(votes[|votes| - 1].scores, ids)
  }

  function SumTotals(rows: seq<ResultRow>): int
  {
    if rows == [] then 0 else SumTotals(rows[..|rows| - 1]) + rows[|rows| - 1].totalScore
  }

  lemma {:induction false} PointsForAnyAdd(scores: Scores, ids: set<string>, x: string)
    requires x !in ids
    ensures PointsForAny(scores, ids + {x}) == PointsForAny(scores, ids) + PointsFor(scores, x)
    decreases |scores|
  {
    if scores != [] {
      PointsForAnyAdd(scores[..|scores| - 1], ids, x);
    }
  }

  lemma {:induction false} TotalForAnyAdd(votes: seq<Vote>, ids: set<string>, x: string)
    requires x !in ids
    ensures TotalForAny(votes, ids + {x}) == TotalForAny(votes, ids) + TotalFor(votes, x)
    decreases |votes|
  {
    if votes != [] {
      TotalForAnyAdd(votes[..|votes| - 1], ids, x);
      PointsForAnyAdd(votes[|votes| - 1].scores, ids, x);
    }
  }

  lemma {:induction false} TotalForAnyNone(votes: seq<Vote>)
    ensures TotalForAny(votes, {}) == 0
    decreases |votes|
  {
    if votes != [] {
      TotalForAnyNone(votes[..|votes| - 1]);
      PointsForAnyNone(votes[|votes| - 1].scores);
    }
  }

  lemma {:induction false} PointsForAnyNone(scores: Scores)
    ensures PointsForAny(scores, {}) == 0
    decreases |scores|
  {
    if scores != [] {
      PointsForAnyNone(scores[..|scores| - 1]);
    }
  }

  /** With distinct member ids, the rows' totals add up to exactly the
      points all ballots gave to registered members: nothing is lost and
      nothing counted twice. */
  lemma {:induction false} RowsConservePoints(members: seq<Member>, votes: seq<Vote>)
    requires Registry.DistinctIds(members)
    ensures SumTotals(Rows(members, votes)) == TotalForAny(votes, Ids(members))
    decreases |members|
  {
    if members == [] {
      assert Ids(members) == {};
      TotalForAnyNone(votes);
    } else {
      var init, last := members[..|members| - 1], members[|members| - 1];
      RowsConservePoints(init, votes);
      assert Rows(members, votes)[..|members| - 1] == Rows(init, votes);
      assert Ids(members) == Ids(init) + {last.id};
      assert last.id !in Ids(init);
      TotalForAnyAdd(votes, Ids(init), last.id);
    }
  }

  lemma {:induction false} InsertSum(s: seq<ResultRow>, x: ResultRow)
    ensures SumTotals(Insert(s, x)) == SumTotals(s) + x.totalScore
    decreases |s|
  {
    if s == [] || s[|s| - 1].totalScore >= x.totalScore {
      assert (s + [x])[..|s|] == s;
    } else {
      var init, last := s[..|s| - 1], s[|s| - 1];
      InsertSum(init, x);
      assert (Insert(init, x) + [last])[..|Insert(init, x)|] == Insert(init, x);
    }
  }

  lemma {:induction false} SortDescSum(s: seq<ResultRow>)
    ensures SumTotals(SortDesc(s)) == SumTotals(s)
    decreases |s|
  {
    if s != [] {
      SortDescSum(s[..|s| - 1]);
      InsertSum(SortDesc(s[..|s| - 1]), s[|s| - 1]);
    }
  }

  /** The full ranking conserves points for registered members. */
  lemma RankingConservesPoints(members: seq<Member>, votes: seq<Vote>)
    requires Registry.DistinctIds(members)
    ensures SumTotals(Ranking(members, votes)) == TotalForAny(votes, Ids(members))
  {
    SortDescSum(Rows(members, votes));
    RowsConservePoints(members, votes);
  }
}
