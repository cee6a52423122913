/** Translation lookup: a dotted key walks the current language's nested
    table one segment at a time, and whatever is missing or empty along the
    way falls back to the key itself. The language is kept in browser
    storage and defaults to Thai. */
module I18n {
  import opened Model
  import opened Text

  /** A translation table entry: a phrase, or a nested table. */
  datatype Node = Phrase(text: string) | Table(entries: seq<(string, Node)>)

  /** JavaScript truthiness of a looked-up value: every object is truthy,
      a string only when it is not empty. */
  predicate NodeTruthy(n: Node) {
    n.Table? || n.text != ""
  }

  /** The first entry under `k`, as a property lookup on an object. */
  function Entry(entries: seq<(string, Node)>, k: string): (r: Option<Node>)
    ensures r.Some? ==> (k, r.value) in entries
    ensures r.None? <==> forall i :: 0 <= i < |entries| ==> entries[i].0 != k
  {
    if entries == [] then None
    else if entries[0].0 == k then Some(entries[0].1)
    else Entry(entries[1..], k)
  }

  /** `value?.[k]`: nothing below a missing value or a phrase. */
  function Child(v: Option<Node>, k: string): (r: Option<Node>)
    ensures v.None? || v.value.Phrase? ==> r.None?
    ensures v.Some? && v.value.Table? ==> r == Entry(v.value.entries, k)
  {
    if v.Some? && v.value.Table? then Entry(v.value.entries, k) else None
  }

  /** The `for (const k of keys)` walk, one segment after the other. */
  function Walk(v: Option<Node>, keys: seq<string>): Option<Node>
    decreases |keys|
  {
    if keys == [] then v else Walk(Child(v, keys[0]), keys[1..])
  }

  /** Once a segment is missing, the walk stays missing. */
  lemma {:induction false} WalkNone(keys: seq<string>)
    ensures Walk(None, keys) == None
    decreases |keys|
  {
    if keys != [] {
      WalkNone(keys[1..]);
    }
  }

  /** Walking a concatenation is walking its halves in turn. */
  lemma {:induction false} WalkAppend(v: Option<Node>, a: seq<string>, b: seq<string>)
    ensures Walk(v, a + b) == Walk(Walk(v, a), b)
    decreases |a|
  {
    if a == [] {
      assert a + b == b;
    } else {
      assert (a + b)[0] == a[0] && (a + b)[1..] == a[1..] + b;
      WalkAppend(Child(v, a[0]), a[1..], b);
    }
  }

  /** What the walk from the language's table reaches for `key`. */
  function Resolve(root: Node, lang: string, key: string): Option<Node>
  {
    Walk(Child(Some(root), lang), Split(key, '.'))
  }

  /** `t(key)` for a given language: the value the walk reaches, or the key
      when the walk fails or reaches an empty phrase. A non-empty key never
      yields a falsy value. */
  function T(root: Node, lang: string, key: string): (r: Node)
    ensures key != "" ==> NodeTruthy(r)
    ensures !NodeTruthy(r) ==> r == Phrase(key)
  {
    var v := Resolve(root, lang, key);
    if v.Some? && NodeTruthy(v.value) then v.value else Phrase(key)
  }

  /** A walk that misses at some segment misses altogether. */
  lemma WalkMissing(start: Option<Node>, keys: seq<string>, i: nat)
    requires i < |keys| && Child(Walk(start, keys[..i]), keys[i]).None?
    ensures Walk(start, keys) == None
  {
    var pre, post := keys[..i], keys[i + 1..];
    assert keys == pre + ([keys[i]] + post);
    WalkAppend(start, pre, [keys[i]] + post);
    assert Walk(Walk(start, pre), [keys[i]] + post) == Walk(None, post);
    WalkNone(post);
  }

  /** If the segment at position i is missing below the prefix before it,
      `t` returns the key. */
  lemma MissingSegment(root: Node, lang: string, key: string, i: nat)
    requires i < |Split(key, '.')|
    requires Child(Walk(Child(Some(root), lang), Split(key, '.')[..i]), Split(key, '.')[i]).None?
    ensures T(root, lang, key) == Phrase(key)
  {
    WalkMissing(Child(Some(root), lang), Split(key, '.'), i);
  }

  /** A language with no table translates every key to itself. */
  lemma NoTable(root: Node, lang: string, key: string)
    requires Child(Some(root), lang).None?
    ensures T(root, lang, key) == Phrase(key)
  {
    WalkNone(Split(key, '.'));
  }

  /** Splitting at the first separator. */
  lemma {:induction false} SplitFirst(a: string, b: string, sep: char)
    requires sep !in a
    ensures Split(a + [sep] + b, sep) == [a] + Split(b, sep)
    decreases |a|
  {
    if a == [] {
      assert a + [sep] + b == [sep] + b;
    } else {
      var s := a + [sep] + b;
      SplitFirst(a[1..], b, sep);
      assert s[0] == a[0] && a[0] != sep;
      assert s[1..] == a[1..] + [sep] + b;
      var rest := Split(s[1..], sep);
      assert rest[0] == a[1..] && rest[1..] == Split(b, sep);
      assert [s[0]] + rest[0] == a;
    }
  }

  /** A string with no separator splits into itself. */
  lemma {:induction false} SplitNone(s: string, sep: char)
    requires sep !in s
    ensures Split(s, sep) == [s]
    decreases |s|
  {
    if s != [] {
      SplitNone(s[1..], sep);
      assert s == [s[0]] + s[1..];
    }
  }

  /** The body of `t` once the language is known: the segment loop, then
      the fallback to the key. */
  method Lookup(root: Node, lang: string, key: string) returns (r: Node)
    ensures r == T(root, lang, key)
  {
    var keys := Split(key, '.');
    var value := Child(Some(root), lang);
    for i := 0 to |keys|
      invariant Walk(value, keys[i..]) == Resolve(root, lang, key)
    {
      assert keys[i..][0] == keys[i] && keys[i..][1..] == keys[i + 1..];
      value := Child(value, keys[i]);
    }
    assert keys[|keys|..] == [];
    r := if value.Some? && NodeTruthy(value.value) then value.value else Phrase(key);
  }
}
