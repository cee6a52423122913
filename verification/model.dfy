/** The entities the voting application stores as JSON arrays, and the
    helpers every handler shares: truthiness of optional strings, the
    `photo || null` normalisation, request methods, and the bounded
    newest-first view that the log endpoints return. */
module Model {

  datatype Option<T> = None | Some(value: T)

  /** A registered member. A photo is a data URL, or null. */
  datatype Member = Member(id: string, name: string, photo: Option<string>)

  /** A ballot's points, member id to points, in the key order of the
      submitted JSON object. */
  type Scores = seq<(string, int)>

  /** A stored ballot. */
  datatype Vote = Vote(id: string, voterName: string, timestamp: string, scores: Scores)

  /** One denormalised audit line: a (ballot, member) pair with positive points. */
  datatype LogEntry = LogEntry(voteId: string, voterName: string, memberId: string,
                               memberName: string, score: int, timestamp: string)

  /** One lucky-draw history entry; winners are `{id, name, photo}` records. */
  datatype DrawLogEntry = DrawLogEntry(drawId: string, timestamp: string,
                                       winners: seq<Member>, drawCount: int)

  /** The request method a handler dispatches on. */
  datatype HttpMethod = GET | POST | PUT | DELETE | OPTIONS | PATCH | HEAD

  /** JavaScript truthiness of an optional string: present and not empty. */
  predicate Truthy(s: Option<string>) {
    s.Some? && s.value != ""
  }

  /** `photo || null`: an empty or missing photo is stored as null. */
  function NullIfFalsy(photo: Option<string>): (r: Option<string>)
    ensures Truthy(photo) ==> r == photo
    ensures !Truthy(photo) ==> r == None
  {
    if Truthy(photo) then photo else None
  }

  /** How many entries the log endpoints return at most. */
  const RecentLimit: nat := 100

  function Reverse<T>(s: seq<T>): (r: seq<T>)
    ensures |r| == |s|
  {
    if s == [] then [] else Reverse(s[1..]) + [s[0]]
  }

  lemma {:induction false} ReverseAt<T>(s: seq<T>, i: nat)
    requires i < |s|
    ensures Reverse(s)[i] == s[|s| - 1 - i]
  {
    if i < |s| - 1 {
      ReverseAt(s[1..], i);
    }
  }

  /** `logs.slice(-100).reverse()`: the last (at most) 100 entries, newest first. */
  function Recent<T>(s: seq<T>): seq<T>
  {
    var from := if |s| <= RecentLimit then 0 else |s| - RecentLimit;
    Reverse(s[from..])
  }

  /** The view holds min(100, |s|) entries, and its i-th entry is the i-th
      newest stored one. */
  lemma RecentAt<T>(s: seq<T>)
    ensures |Recent(s)| == if |s| <= RecentLimit then |s| else RecentLimit
    ensures forall i :: 0 <= i < |Recent(s)| ==> Recent(s)[i] == s[|s| - 1 - i]
  {
    var from := if |s| <= RecentLimit then 0 else |s| - RecentLimit;
    forall i | 0 <= i < |Recent(s)| ensures Recent(s)[i] == s[|s| - 1 - i] {
      ReverseAt(s[from..], i);
    }
  }

  /** With at most 100 entries stored, the view is the whole store reversed. */
  lemma RecentSmall<T>(s: seq<T>)
    requires |s| <= RecentLimit
    ensures Recent(s) == Reverse(s)
  {
    assert s[0..] == s;
  }
}
