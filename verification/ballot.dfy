/** The ballot form: each registered member gets between 0 and 100 points,
    and the points of one ballot add up to at most 100. A change that would
    overshoot the budget is cut down to what is left; a ballot is sent only
    with a voter name and at least one point. */
module Ballot {
  import opened Model
  import opened Text

  const Budget: int := 100

  /** `scores[id] || 0`: the points of `id`, 0 when it has none. */
  function Get(s: Scores, id: string): int
  {
    if s == [] then 0 else if s[0].0 == id then s[0].1 else Get(s[1..], id)
  }

  /** `Object.values(scores).reduce((sum, score) => sum + Number(score || 0), 0)`. */
  function Sum(s: Scores): int
  {
    if s == [] then 0 else s[0].1 + Sum(s[1..])
  }

  /** `{ ...scores, [id]: v }`: an existing key keeps its place and takes the
      new value; a new key goes last. */
  function Set(s: Scores, id: string, v: int): (r: Scores)
    ensures Get(r, id) == v
    ensures forall k :: k != id ==> Get(r, k) == Get(s, k)
  {
    if s == [] then [(id, v)]
    else if s[0].0 == id then [(id, v)] + s[1..]
    else [s[0]] + Set(s[1..], id, v)
  }

  /** No key occurs twice, as in a JavaScript object. */
  predicate DistinctKeys(s: Scores) {
    forall i, j :: 0 <= i < j < |s| ==> s[i].0 != s[j].0
  }

  /** Every value lies in [0, 100]. */
  predicate Bounded(s: Scores) {
    forall i :: 0 <= i < |s| ==> 0 <= s[i].1 <= Budget
  }

  /** The invariant of the form: a well-formed object of points in range
      whose total stays within the budget. */
  predicate WithinBudget(s: Scores) {
    DistinctKeys(s) && Bounded(s) && Sum(s) <= Budget
  }

  /** Setting one key changes the total by the difference at that key. */
  lemma {:induction false} SumSet(s: Scores, id: string, v: int)
    ensures Sum(Set(s, id, v)) == Sum(s) - Get(s, id) + v
    decreases |s|
  {
    if s != [] && s[0].0 != id {
      SumSet(s[1..], id, v);
    }
  }

  lemma {:induction false} SetKeys(s: Scores, id: string, v: int)
    ensures forall i :: 0 <= i < |Set(s, id, v)| ==> Set(s, id, v)[i].0 == id || Set(s, id, v)[i].0 in KeysOf(s)
    ensures DistinctKeys(s) ==> DistinctKeys(Set(s, id, v))
    ensures 0 <= v <= Budget && Bounded(s) ==> Bounded(Set(s, id, v))
    decreases |s|
  {
    if s != [] && s[0].0 != id {
      SetKeys(s[1..], id, v);
      var r := Set(s, id, v);
      assert r == [s[0]] + Set(s[1..], id, v);
      if DistinctKeys(s) {
        forall j | 1 <= j < |r| ensures r[j].0 != s[0].0 {
          if r[j].0 != id {
            var k :| 1 <= k < |s| && s[k].0 == r[j].0;
          }
        }
      }
    }
  }

  function KeysOf(s: Scores): set<string>
  {
    set i | 0 <= i < |s| :: s[i].0
  }

  /** `Math.max(0, Math.min(100, Number(value) || 0))`: input that is not a
      number counts as 0. */
  function Clamp(value: Option<int>): (r: int)
    ensures 0 <= r <= Budget
    ensures value.Some? && 0 <= value.value <= Budget ==> r == value.value
    ensures value.None? || value.value <= 0 ==> r == 0
    ensures value.Some? && value.value >= Budget ==> r == Budget
  {
    var n := if value.Some? then value.value else 0;
    if n < 0 then 0 else if n > Budget then Budget else n
  }

  function Min(a: int, b: int): int {
    if a <= b then a else b
  }

  /** `handleScoreChange(id, value)` given the current points and the
      displayed total. */
  function NextScores(scores: Scores, totalScore: int, id: string, value: Option<int>): Scores
  {
    var num := Clamp(value);
    var proposed := Set(scores, id, num);
    if Sum(proposed) <= Budget then proposed
    else
      var remaining := Budget - (totalScore - Get(scores, id));
      Set(scores, id, Min(num, remaining))
  }

  /** A change keeps the form within budget, and only the changed key's
      points move. */
  lemma NextScoresKeepsBudget(scores: Scores, id: string, value: Option<int>)
    requires WithinBudget(scores)
    ensures WithinBudget(NextScores(scores, Sum(scores), id, value))
    ensures forall k :: k != id ==> Get(NextScores(scores, Sum(scores), id, value), k) == Get(scores, k)
  {
    var num := Clamp(value);
    var proposed := Set(scores, id, num);
    var r := NextScores(scores, Sum(scores), id, value);
    SumSet(scores, id, num);
    if Sum(proposed) <= Budget {
      assert r == proposed;
      SetKeys(scores, id, num);
    } else {
      GetBounded(scores, id);
      var remaining := Budget - (Sum(scores) - Get(scores, id));
      var v := Min(num, remaining);
      assert 0 <= v <= Budget;
      assert r == Set(scores, id, v);
      SumSet(scores, id, v);
      SetKeys(scores, id, v);
    }
  }

  /** The changed key gets the clamped value when the new total fits, and
      otherwise exactly what the other keys leave over. */
  lemma NextScoresValue(scores: Scores, id: string, value: Option<int>)
    requires WithinBudget(scores)
    ensures var others := Sum(scores) - Get(scores, id);
            Get(NextScores(scores, Sum(scores), id, value), id)
              == if others + Clamp(value) <= Budget then Clamp(value) else Budget - others
  {
    SumSet(scores, id, Clamp(value));
  }

  lemma {:induction false} GetBounded(s: Scores, id: string)
    requires Bounded(s)
    ensures 0 <= Get(s, id) <= Budget
    decreases |s|
  {
    if s != [] && s[0].0 != id {
      GetBounded(s[1..], id);
    }
  }

  /** `initialScores[member.id] = 0` for every member, in registry order. */
  function Zeros(members: seq<Member>): (r: Scores)
    ensures WithinBudget(r) && Sum(r) == 0
    ensures forall k :: Get(r, k) == 0
    ensures forall i :: 0 <= i < |r| ==> r[i].1 == 0
    decreases |members|
  {
    if members == [] then []
    else
      var init := Zeros(members[..|members| - 1]);
      SumSet(init, members[|members| - 1].id, 0);
      SetKeys(init, members[|members| - 1].id, 0);
      ZeroValues(init, members[|members| - 1].id);
      Set(init, members[|members| - 1].id, 0)
  }

  lemma {:induction false} ZeroValues(s: Scores, id: string)
    requires forall i :: 0 <= i < |s| ==> s[i].1 == 0
    ensures forall i :: 0 <= i < |Set(s, id, 0)| ==> Set(s, id, 0)[i].1 == 0
    decreases |s|
  {
    if s != [] && s[0].0 != id {
      ZeroValues(s[1..], id);
    }
  }

  datatype Submission = NameMissing | NoPoints | Send(voterName: string, scores: Scores)

  /** `handleSubmit`'s guards: a blank voter name is refused first, then a
      zero total; otherwise the trimmed name goes out with the points. */
  function CheckSubmission(voterName: string, totalScore: int, scores: Scores): (r: Submission)
    ensures r == NameMissing <==> IsBlank(voterName)
    ensures r == NoPoints <==> !IsBlank(voterName) && totalScore == 0
    ensures r.Send? ==> r.voterName == Trim(voterName) && r.voterName != [] && r.scores == scores
  {
    TrimEmptyIffBlank(voterName);
    if Trim(voterName) == [] then NameMissing
    else if totalScore == 0 then NoPoints
    else Send(Trim(voterName), scores)
  }

  /** The voting page's state. `totalScore` is recomputed from `scores`
      whenever they change. */
  class VotingPage {
    var members: seq<Member>
    var scores: Scores
    var totalScore: int
    var voterName: string
    var submitted: bool

    predicate Valid()
      reads this
    {
      WithinBudget(scores) && totalScore == Sum(scores)
    }

    constructor()
      ensures Valid() && members == [] && scores == [] && voterName == "" && !submitted
    {
      members := [];
      scores := [];
      totalScore := 0;
      voterName := "";
      submitted := false;
    }

    /** Loading the registry zeroes every member's points; a failed load
        shows no members and leaves the points as they were. */
    method Load(loaded: Option<seq<Member>>)
      requires Valid()
      modifies this
      ensures Valid()
      ensures loaded.Some? ==> members == loaded.value && scores == Zeros(loaded.value)
      ensures loaded.None? ==> members == [] && scores == old(scores)
      ensures voterName == old(voterName) && submitted == old(submitted)
    {
      if loaded.Some? {
        members := loaded.value;
        scores := Zeros(loaded.value);
        totalScore := Sum(scores);
      } else {
        members := [];
      }
    }

    method ChangeVoterName(name: string)
      requires Valid()
      modifies this
      ensures Valid() && voterName == name
      ensures members == old(members) && scores == old(scores) && submitted == old(submitted)
    {
      voterName := name;
    }

    /** A change of one member's points; the total follows. */
    method ScoreChange(id: string, value: Option<int>)
      requires Valid()
      modifies this
      ensures Valid()
      ensures scores == NextScores(old(scores), old(totalScore), id, value)
      ensures forall k :: k != id ==> Get(scores, k) == Get(old(scores), k)
      ensures members == old(members) && voterName == old(voterName) && submitted == old(submitted)
    {
      NextScoresKeepsBudget(scores, id, value);
      var num := Clamp(value);
      var newScores := Set(scores, id, num);
      var newTotal := Sum(newScores);
      if newTotal <= Budget {
        scores := newScores;
      } else {
        var remaining := Budget - (totalScore - Get(scores, id));
        scores := Set(scores, id, Min(num, remaining));
      }
      totalScore := Sum(scores);
    }

    /** Submitting: refused ballots change nothing; a ballot the store
        accepted clears the form back to zero points for every member
        (the two-second delay before the reset is not modelled); a ballot
        the store rejected leaves the form as it was. */
    method Submit(saved: bool) returns (outcome: Submission)
      requires Valid()
      modifies this
      ensures Valid()
      ensures outcome == CheckSubmission(old(voterName), old(totalScore), old(scores))
      ensures outcome.Send? && saved ==> scores == Zeros(members) && voterName == "" && !submitted
      ensures !(outcome.Send? && saved) ==> scores == old(scores) && voterName == old(voterName) && submitted == old(submitted)
      ensures members == old(members)
    {
      outcome := CheckSubmission(voterName, totalScore, scores);
      if outcome.Send? && saved {
        var zeros := Zeros(members);
        scores := zeros;
        totalScore := 0;
        voterName := "";
        submitted := false;
      }
    }
  }
}
