/** The member registry operations shared by the server routes and the
    client pages: lookup by id, update of the first match, removal of every
    match, and the client's local edit that rewrites every match. */
module Registry {
  import opened Model

  /** `members.findIndex(m => m.id === id)`: the first position holding
      `id`, or None where the source gets -1. */
  function FindIndex(members: seq<Member>, id: string): (r: Option<nat>)
    ensures r.Some? ==> r.value < |members| && members[r.value].id == id
    ensures r.Some? ==> forall j :: 0 <= j < r.value ==> members[j].id != id
    ensures r.None? <==> forall j :: 0 <= j < |members| ==> members[j].id != id
  {
    if members == [] then None
    else if members[0].id == id then Some(0)
    else match FindIndex(members[1..], id) {
      case None => None
      case Some(k) => Some(k + 1)
    }
  }

  /** The name a log entry records: the name of the first member with that
      id (`members.find`), or 'Unknown'. */
  function MemberName(members: seq<Member>, id: string): (r: string)
    ensures FindIndex(members, id).Some? ==> r == members[FindIndex(members, id).value].name
    ensures FindIndex(members, id).None? ==> r == "Unknown"
  {
    if members == [] then "Unknown"
    else if members[0].id == id then members[0].name
    else MemberName(members[1..], id)
  }

  /** PUT /api/members/:id on the list: None (404) when no member has the
      id; otherwise the first member with the id gets the new name and the
      normalised photo and keeps its id, and every other position is
      untouched, later members with the same id included. */
  function UpdateFirst(members: seq<Member>, id: string, name: string, photo: Option<string>): (r: Option<seq<Member>>)
    ensures r.None? <==> forall j :: 0 <= j < |members| ==> members[j].id != id
    ensures r.Some? ==> FindIndex(members, id).Some? && |r.value| == |members|
    ensures r.Some? ==> forall j :: 0 <= j < |members| ==>
              r.value[j] == if j == FindIndex(members, id).value then Member(id, name, NullIfFalsy(photo)) else members[j]
  {
    match FindIndex(members, id) {
      case None => None
      case Some(i) =>
        var updated := members[i := Member(members[i].id, name, NullIfFalsy(photo))];
        assert updated[i] == Member(id, name, NullIfFalsy(photo));
        Some(updated)
    }
  }

  /** `members.filter(m => m.id !== id)`. */
  function RemoveAll(members: seq<Member>, id: string): (r: seq<Member>)
    ensures |r| <= |members|
  {
    if members == [] then []
    else
      var init, last := members[..|members| - 1], members[|members| - 1];
      RemoveAll(init, id) + (if last.id != id then [last] else [])
  }

  /** What stays is exactly the members whose id differs. */
  lemma {:induction false} RemoveAllMembers(members: seq<Member>, id: string)
    ensures forall m :: m in RemoveAll(members, id) <==> m in members && m.id != id
    decreases |members|
  {
    if members != [] {
      var init, last := members[..|members| - 1], members[|members| - 1];
      RemoveAllMembers(init, id);
      assert members == init + [last];
    }
  }

  /** Removal works piecewise, so the members that stay keep their order. */
  lemma {:induction false} RemoveAllAppend(a: seq<Member>, b: seq<Member>, id: string)
    ensures RemoveAll(a + b, id) == RemoveAll(a, id) + RemoveAll(b, id)
    decreases |b|
  {
    if b == [] {
      assert a + b == a;
    } else {
      var init, last := b[..|b| - 1], b[|b| - 1];
      var tail := if last.id != id then [last] else [];
      RemoveAllAppend(a, init, id);
      calc {
        RemoveAll(a + b, id);
      == { assert (a + b)[..|a + b| - 1] == a + init && (a + b)[|a + b| - 1] == last; }
        RemoveAll(a + init, id) + tail;
      ==
        (RemoveAll(a, id) + RemoveAll(init, id)) + tail;
      ==
        RemoveAll(a, id) + (RemoveAll(init, id) + tail);
      }
    }
  }

  /** Deleting an id nobody has changes nothing; deleting twice is
      deleting once. */
  lemma {:induction false} RemoveAllAbsent(members: seq<Member>, id: string)
    requires forall j :: 0 <= j < |members| ==> members[j].id != id
    ensures RemoveAll(members, id) == members
    decreases |members|
  {
    if members != [] {
      var init := members[..|members| - 1];
      RemoveAllAbsent(init, id);
      assert members == init + [members[|members| - 1]];
    }
  }

  lemma RemoveAllIdempotent(members: seq<Member>, id: string)
    ensures RemoveAll(RemoveAll(members, id), id) == RemoveAll(members, id)
  {
    var r := RemoveAll(members, id);
    RemoveAllMembers(members, id);
    forall j | 0 <= j < |r| ensures r[j].id != id {
      assert r[j] in r;
    }
    RemoveAllAbsent(r, id);
  }

  /** The client's local edit: every member with the id gets the new name
      and photo (the photo exactly as the form holds it); ids and all other
      members are untouched. */
  function ReplaceAll(members: seq<Member>, id: string, name: string, photo: Option<string>): (r: seq<Member>)
    ensures |r| == |members|
    ensures forall j :: 0 <= j < |members| ==>
              r[j] == if members[j].id == id then Member(id, name, photo) else members[j]
  {
    if members == [] then []
    else
      var m := members[0];
      [if m.id == id then Member(m.id, name, photo) else m] + ReplaceAll(members[1..], id, name, photo)
  }

  /** Distinct ids: no two positions hold the same id. */
  predicate DistinctIds(members: seq<Member>) {
    forall i, j :: 0 <= i < j < |members| ==> members[i].id != members[j].id
  }

  /** When ids are distinct, the server's update of the first match and the
      client's local rewrite of every match agree, given the photo the
      server stores. */
  lemma UpdateFirstIsReplaceAll(members: seq<Member>, id: string, name: string, photo: Option<string>)
    requires DistinctIds(members)
    requires exists j :: 0 <= j < |members| && members[j].id == id
    ensures UpdateFirst(members, id, name, photo) == Some(ReplaceAll(members, id, name, NullIfFalsy(photo)))
  {
    var fi := FindIndex(members, id);
    assert fi.Some? by {
      var k :| 0 <= k < |members| && members[k].id == id;
      assert !(forall j :: 0 <= j < |members| ==> members[j].id != id);
    }
    var i := fi.value;
    var r := UpdateFirst(members, id, name, photo).value;
    var l := ReplaceAll(members, id, name, NullIfFalsy(photo));
    forall j | 0 <= j < |members| ensures r[j] == l[j] {
      if j > i {
        assert members[i].id != members[j].id;
      }
    }
    assert r == l;
  }
}
