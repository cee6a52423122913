/** The lucky-draw page: sampling winners without replacement from a copy
    of the registry, the guards before a draw, the winner-count stepper, and
    the history entry a finished draw posts. `Math.random` is replaced by the
    index the caller supplies for each pick. */
module LuckyDraw {
  import opened Model
  import opened Registry
  import LuckyDrawLogsApi

  /** `pool.splice(i, 1)`: the pool without its i-th element. */
  function RemoveAt(pool: seq<Member>, i: nat): (r: seq<Member>)
    requires i < |pool|
    ensures |r| == |pool| - 1
    ensures forall j :: 0 <= j < i ==> r[j] == pool[j]
    ensures forall j :: i <= j < |r| ==> r[j] == pool[j + 1]
  {
    pool[..i] + pool[i + 1..]
  }

  /** The splice takes out exactly the picked element. */
  lemma RemoveAtSplice(pool: seq<Member>, i: nat)
    requires i < |pool|
    ensures multiset(RemoveAt(pool, i)) + multiset{pool[i]} == multiset(pool)
  {
    assert pool == pool[..i] + [pool[i]] + pool[i + 1..];
  }

  /** How many winners a draw yields: `drawCount` capped by the pool size. */
  function Needed(count: int, n: nat): (r: nat)
    ensures r <= n
    ensures count >= 0 ==> r == if count <= n then count else n
  {
    if count <= 0 then 0 else if count <= n then count else n
  }

  /** The picks are indexes a uniform random choice could produce: the k-th
      lies below the size of the pool left after k removals. */
  predicate PicksFit(n: nat, count: int, picks: seq<nat>) {
    |picks| >= Needed(count, n) && forall k :: 0 <= k < Needed(count, n) ==> picks[k] < n - k
  }

  /** After one pick the remaining picks fit the smaller pool. */
  lemma PicksFitRest(n: nat, count: int, picks: seq<nat>)
    requires n > 0 && count > 0 && PicksFit(n, count, picks)
    ensures picks[0] < n && PicksFit(n - 1, count - 1, picks[1..])
  {
    assert picks[0] < n - 0;
    forall k | 0 <= k < Needed(count - 1, n - 1) ensures picks[1..][k] < n - 1 - k {
      assert picks[1..][k] == picks[k + 1];
    }
  }

  /** The winners a draw yields, pick by pick. */
  function Draw(pool: seq<Member>, count: int, picks: seq<nat>): seq<Member>
    requires PicksFit(|pool|, count, picks)
    decreases |pool|
  {
    if count <= 0 || pool == [] then []
    else
      PicksFitRest(|pool|, count, picks);
      [pool[picks[0]]] + Draw(RemoveAt(pool, picks[0]), count - 1, picks[1..])
  }

  /** The final selection loop of `startDraw`. */
  method SelectWinners(members: seq<Member>, drawCount: int, picks: seq<nat>) returns (winners: seq<Member>)
    requires PicksFit(|members|, drawCount, picks)
    ensures winners == Draw(members, drawCount, picks)
  {
    winners := [];
    var available := members;
    var i := 0;
    while i < drawCount && |available| > 0
      invariant 0 <= i <= |members|
      invariant |available| == |members| - i
      invariant i <= Needed(drawCount, |members|)
      invariant PicksFit(|available|, drawCount - i, picks[i..])
      invariant winners + Draw(available, drawCount - i, picks[i..]) == Draw(members, drawCount, picks)
      decreases |available|
    {
      var randomIndex := picks[i];
      assert randomIndex == picks[i..][0];
      assert picks[i..][1..] == picks[i + 1..];
      winners := winners + [available[randomIndex]];
      available := RemoveAt(available, randomIndex);
      i := i + 1;
    }
  }

  /** A draw yields exactly min(drawCount, |members|) winners (none for a
      count below one). */
  lemma {:induction false} DrawLength(pool: seq<Member>, count: int, picks: seq<nat>)
    requires PicksFit(|pool|, count, picks)
    ensures |Draw(pool, count, picks)| == Needed(count, |pool|)
    decreases |pool|
  {
    if count > 0 && pool != [] {
      PicksFitRest(|pool|, count, picks);
      DrawLength(RemoveAt(pool, picks[0]), count - 1, picks[1..]);
    }
  }

  /** Every element occurs in `a` at most as often as in `b`. */
  predicate SubBag(a: seq<Member>, b: seq<Member>) {
    multiset(a) <= multiset(b)
  }

  /** Without replacement: the winners form a sub-multiset of the pool, so
      no position is drawn twice and every winner is a member. */
  lemma {:induction false} DrawFromPool(pool: seq<Member>, count: int, picks: seq<nat>)
    requires PicksFit(|pool|, count, picks)
    ensures SubBag(Draw(pool, count, picks), pool)
    ensures forall w :: w in Draw(pool, count, picks) ==> w in pool
    decreases |pool|
  {
    if count > 0 && pool != [] {
      PicksFitRest(|pool|, count, picks);
      var p := picks[0];
      var rest := RemoveAt(pool, p);
      var tail := Draw(rest, count - 1, picks[1..]);
      DrawFromPool(rest, count - 1, picks[1..]);
      assert SubBag(tail, rest);
      AddMonotone(multiset(tail), multiset(rest), multiset{pool[p]});
      RemoveAtSplice(pool, p);
      var d := Draw(pool, count, picks);
      assert d == [pool[p]] + tail;
      assert multiset(d) == multiset([pool[p]]) + multiset(tail);
      assert multiset([pool[p]]) == multiset{pool[p]};
    }
    var d := Draw(pool, count, picks);
    forall w | w in d ensures w in pool {
      assert multiset(d)[w] > 0;
    }
  }

  lemma AddMonotone(a: multiset<Member>, b: multiset<Member>, c: multiset<Member>)
    requires a <= b
    ensures c + a <= b + c
  {
    forall x ensures (c + a)[x] <= (b + c)[x] {
      assert a[x] <= b[x];
    }
  }

  /** With distinct ids in the registry, the winners have distinct ids. */
  lemma {:induction false} DrawDistinct(pool: seq<Member>, count: int, picks: seq<nat>)
    requires PicksFit(|pool|, count, picks)
    requires DistinctIds(pool)
    ensures DistinctIds(Draw(pool, count, picks))
    decreases |pool|
  {
    if count > 0 && pool != [] {
      PicksFitRest(|pool|, count, picks);
      var p := picks[0];
      var rest := RemoveAt(pool, p);
      assert DistinctIds(rest) by {
        forall i, j | 0 <= i < j < |rest| ensures rest[i].id != rest[j].id {
          var a := if i < p then i else i + 1;
          var b := if j < p then j else j + 1;
          assert rest[i] == pool[a] && rest[j] == pool[b] && a < b;
        }
      }
      DrawDistinct(rest, count - 1, picks[1..]);
      DrawFromPool(rest, count - 1, picks[1..]);
      var tail := Draw(rest, count - 1, picks[1..]);
      forall j | 0 <= j < |tail| ensures tail[j].id != pool[p].id {
        assert tail[j] in rest;
        var k :| 0 <= k < |rest| && rest[k] == tail[j];
        var b := if k < p then k else k + 1;
        assert rest[k] == pool[b] && b != p;
      }
    }
  }

  datatype StartCheck = NoMembers | TooManyWinners | Go

  /** `startDraw`'s guards: an empty registry first, then a count above the
      member count. */
  function CheckStart(memberCount: nat, drawCount: int): (r: StartCheck)
    ensures r == NoMembers <==> memberCount == 0
    ensures r == TooManyWinners <==> memberCount > 0 && drawCount > memberCount
    ensures r == Go <==> 0 < memberCount && drawCount <= memberCount
  {
    if memberCount == 0 then NoMembers
    else if drawCount > memberCount then TooManyWinners
    else Go
  }

  /** `saveDrawHistory`'s request body: winners projected to
      `{id, name, photo || null}` in draw order, and `drawCount` set to the
      number of winners. */
  function HistoryEntry(drawId: string, timestamp: string, winners: seq<Member>): (r: DrawLogEntry)
    ensures r.drawId == drawId && r.timestamp == timestamp
    ensures r.drawCount == |winners| && |r.winners| == |winners|
    ensures forall i :: 0 <= i < |winners| ==>
              r.winners[i] == Member(winners[i].id, winners[i].name, NullIfFalsy(winners[i].photo))
  {
    DrawLogEntry(drawId, timestamp, Project(winners), |winners|)
  }

  function Project(winners: seq<Member>): (r: seq<Member>)
    ensures |r| == |winners|
    ensures forall i :: 0 <= i < |winners| ==>
              r[i] == Member(winners[i].id, winners[i].name, NullIfFalsy(winners[i].photo))
  {
    if winners == [] then []
    else [Member(winners[0].id, winners[0].name, NullIfFalsy(winners[0].photo))] + Project(winners[1..])
  }

  /** The history handler accepts what the page posts (given non-empty
      drawId and timestamp) and stores it as posted: the count it stores is
      the number of winners, whether or not there were any. */
  lemma HistoryEntryStored(drawId: string, timestamp: string, winners: seq<Member>)
    requires drawId != "" && timestamp != ""
    ensures var e := HistoryEntry(drawId, timestamp, winners);
            LuckyDrawLogsApi.Acceptable(Some(e.drawId), Some(e.timestamp), LuckyDrawLogsApi.Winners(e.winners)) &&
            LuckyDrawLogsApi.EffectiveCount(Some(e.drawCount), e.winners) == e.drawCount == |winners|
  {
  }

  function Max(a: int, b: int): int {
    if a >= b then a else b
  }

  /** The page's state. The stepper and the start button are shown only
      while no draw is running and no result is shown. */
  class DrawPage {
    var members: seq<Member>
    var drawCount: int
    var isDrawing: bool
    var showResult: bool
    var winners: seq<Member>

    /** The stepper's range: at least one winner, at most one per member
        (one when there are none). */
    predicate Valid()
      reads this
    {
      1 <= drawCount <= Max(1, |members|)
    }

    /** Mounting the page loads the registry; a failed load shows none. */
    constructor(loaded: Option<seq<Member>>)
      ensures Valid()
      ensures members == (if loaded.Some? then loaded.value else [])
      ensures drawCount == 1 && !isDrawing && !showResult && winners == []
    {
      members := if loaded.Some? then loaded.value else [];
      drawCount := 1;
      isDrawing := false;
      showResult := false;
      winners := [];
    }

    /** The − button: disabled at one, otherwise one fewer (never below one). */
    method Decrement()
      requires Valid()
      modifies this
      ensures Valid()
      ensures drawCount == if isDrawing || showResult || old(drawCount) <= 1 then old(drawCount) else old(drawCount) - 1
      ensures members == old(members) && isDrawing == old(isDrawing) && showResult == old(showResult) && winners == old(winners)
    {
      if !isDrawing && !showResult && !(drawCount <= 1) {
        drawCount := Max(1, drawCount - 1);
      }
    }

    /** The + button: disabled at the member count, otherwise one more
        (never above the member count). */
    method Increment()
      requires Valid()
      modifies this
      ensures Valid()
      ensures drawCount == if isDrawing || showResult || old(drawCount) >= |members| then old(drawCount) else old(drawCount) + 1
      ensures members == old(members) && isDrawing == old(isDrawing) && showResult == old(showResult) && winners == old(winners)
    {
      if !isDrawing && !showResult && !(drawCount >= |members|) {
        drawCount := if |members| <= drawCount + 1 then |members| else drawCount + 1;
      }
    }

    /** The start button, run through to the shown result (the animation and
        its timers are not modelled). A refused draw changes nothing and posts
        nothing; an accepted one shows the winners and posts their history
        entry, whose outcome the page ignores. */
    method StartDraw(picks: seq<nat>, drawId: string, timestamp: string) returns (check: StartCheck, posted: Option<DrawLogEntry>)
      requires Valid()
      requires PicksFit(|members|, drawCount, picks)
      modifies this
      ensures Valid()
      ensures check == CheckStart(|old(members)|, old(drawCount))
      ensures check != Go ==> posted == None && unchanged(this)
      ensures check == Go ==> winners == Draw(old(members), old(drawCount), picks) && |winners| == old(drawCount)
      ensures check == Go ==> posted == Some(HistoryEntry(drawId, timestamp, winners))
      ensures check == Go ==> showResult && !isDrawing
      ensures members == old(members) && drawCount == old(drawCount)
    {
      check := CheckStart(|members|, drawCount);
      if check != Go {
        return check, None;
      }
      isDrawing := true;
      showResult := false;
      winners := [];
      var selected := SelectWinners(members, drawCount, picks);
      DrawLength(members, drawCount, picks);
      winners := selected;
      posted := Some(HistoryEntry(drawId, timestamp, selected));
      isDrawing := false;
      showResult := true;
    }

    /** "Draw again": back to the stepper. */
    method ResetDraw()
      requires Valid()
      modifies this
      ensures Valid()
      ensures winners == [] && !showResult
      ensures members == old(members) && drawCount == old(drawCount) && isDrawing == old(isDrawing)
    {
      winners := [];
      showResult := false;
    }
  }
}
