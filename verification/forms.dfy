/** The admin pages' member forms: adding and editing one member, and the
    one-name-per-line import. The Config page reads the list back from the
    store after every change; the Import page keeps its own copy and
    updates it in place once the store has accepted the change. */
module MemberForms {
  import opened Model
  import opened Text
  import opened Registry
  import opened ExpressServer
  import opened Storage

  /** The verdict of a form whose name field must not be blank. */
  datatype NameCheck<T> = BlankName | Accepted(value: T)

  /** `handleAddMember`'s new member: the clock as id, the trimmed name and
      `photo || null`. A blank name is refused. */
  function NewMember(name: string, photo: Option<string>, now: nat): (r: NameCheck<Member>)
    ensures r == BlankName <==> IsBlank(name)
    ensures r.Accepted? ==> r.value.id == NatToString(now) && r.value.name == Trim(name) &&
                            r.value.photo == NullIfFalsy(photo)
    ensures r.Accepted? ==> r.value.name != [] && !IsSpace(r.value.name[0]) && !IsSpace(r.value.name[|r.value.name| - 1])
    ensures r.Accepted? ==> Stored(r.value) == r.value
  {
    TrimEmptyIffBlank(name);
    if Trim(name) == [] then BlankName
    else Accepted(Member(NatToString(now), Trim(name), NullIfFalsy(photo)))
  }

  /** The fields `handleSaveEdit` sends. */
  datatype Edit = Edit(name: string, photo: Option<string>)

  /** `handleSaveEdit`'s request: the trimmed name and the photo exactly as
      the form holds it. A blank name is refused. */
  function EditRequest(editName: string, editPhoto: Option<string>): (r: NameCheck<Edit>)
    ensures r == BlankName <==> IsBlank(editName)
    ensures r.Accepted? ==> r.value.name == Trim(editName) && r.value.photo == editPhoto
    ensures r.Accepted? ==> r.value.name != [] && !IsSpace(r.value.name[0]) && !IsSpace(r.value.name[|r.value.name| - 1])
  {
    TrimEmptyIffBlank(editName);
    if Trim(editName) == [] then BlankName else Accepted(Edit(Trim(editName), editPhoto))
  }

  // ---------------------------------------------------------------------
  // The import: one name per line, no quoting and no columns.

  /** `.filter(line => line.trim())`: the lines that do not trim to the
      empty string (the blank ones, by Text.TrimEmptyIffBlank), in order. */
  function NonBlank(lines: seq<string>): (r: seq<string>)
    ensures |r| <= |lines|
  {
    if lines == [] then []
    else
      var rest := NonBlank(lines[1..]);
      if Trim(lines[0]) != [] then [lines[0]] + rest else rest
  }

  /** The filter keeps exactly the lines that are not blank. */
  lemma {:induction false} NonBlankMembers(lines: seq<string>)
    ensures forall l :: l in NonBlank(lines) <==> l in lines && Trim(l) != []
    decreases |lines|
  {
    if lines != [] {
      NonBlankMembers(lines[1..]);
      assert lines == [lines[0]] + lines[1..];
    }
  }

  /** The filter works piecewise over a concatenation, so the kept lines
      stay in file order. */
  lemma {:induction false} NonBlankAppend(a: seq<string>, b: seq<string>)
    ensures NonBlank(a + b) == NonBlank(a) + NonBlank(b)
    decreases |a|
  {
    if a == [] {
      assert a + b == b;
    } else {
      assert (a + b)[0] == a[0] && (a + b)[1..] == a[1..] + b;
      NonBlankAppend(a[1..], b);
    }
  }

  /** One line is kept exactly when it does not trim to empty. */
  lemma NonBlankSingle(line: string)
    ensures NonBlank([line]) == if Trim(line) != [] then [line] else []
  {
    assert [line][1..] == [];
  }

  /** The file's lines as the import sees them. */
  function ImportLines(text: string): seq<string>
  {
    NonBlank(Split(text, '\n'))
  }

  /** `line.toLowerCase().includes('name')`. */
  predicate IsHeader(line: string) {
    Contains(Lower(line), "name")
  }

  /** Whether the first remaining line is a header. */
  predicate HasHeader(lines: seq<string>) {
    |lines| > 0 && IsHeader(lines[0])
  }

  /** How many leading lines the import skips. */
  function Skipped(lines: seq<string>): nat
  {
    if HasHeader(lines) then 1 else 0
  }

  /** `imported-${Date.now()}-${index}`. */
  function ImportId(now: nat, index: nat): string
  {
    "imported-" + NatToString(now) + "-" + NatToString(index)
  }

  /** `line.trim()` of every line. */
  function TrimAll(lines: seq<string>): (r: seq<string>)
    ensures |r| == |lines|
  {
    if lines == [] then [] else TrimAll(lines[..|lines| - 1]) + [Trim(lines[|lines| - 1])]
  }

  lemma {:induction false} TrimAllAt(lines: seq<string>, i: nat)
    requires i < |lines|
    ensures TrimAll(lines)[i] == Trim(lines[i])
    decreases |lines|
  {
    if i < |lines| - 1 {
      TrimAllAt(lines[..|lines| - 1], i);
    }
  }

  /** The members the `forEach` has pushed after visiting the first `n`
      lines, given every line's trimmed text and whether the first line is
      a header: the header and a line that trims to nothing push nothing. */
  function Pushed(names: seq<string>, n: nat, header: bool, now: nat): seq<Member>
    requires n <= |names|
  {
    if n == 0 then []
    else
      var index := n - 1;
      Pushed(names, index, header, now)
        + (if (index == 0 && header) || names[index] == [] then []
           else [Member(ImportId(now, index), names[index], None)])
  }

  /** The members an import of `text` at time `now` produces. */
  function ImportedMembers(text: string, now: nat): seq<Member>
  {
    var lines := ImportLines(text);
    Pushed(TrimAll(lines), |lines|, HasHeader(lines), now)
  }

  /** `handleImportCSV`'s parse: the `forEach` that pushes one member per
      remaining line. */
  method ParseImport(text: string, now: nat) returns (imported: seq<Member>)
    ensures imported == ImportedMembers(text, now)
  {
    var lines := ImportLines(text);
    ghost var names := TrimAll(lines);
    imported := [];
    for index := 0 to |lines|
      invariant imported == Pushed(names, index, HasHeader(lines), now)
    {
      var line := lines[index];
      if !(index == 0 && Contains(Lower(line), "name")) {
        var name := Trim(line);
        TrimAllAt(lines, index);
        if name != [] {
          imported := imported + [Member(ImportId(now, index), name, None)];
        }
      }
    }
  }

  lemma {:induction false} PushedShape(names: seq<string>, n: nat, header: bool, now: nat)
    requires n <= |names|
    requires forall i :: 0 <= i < |names| ==> names[i] != []
    ensures |Pushed(names, n, header, now)| == if n == 0 then 0 else n - (if header then 1 else 0)
    ensures forall k :: 0 <= k < |Pushed(names, n, header, now)| ==>
              Pushed(names, n, header, now)[k] == Member(ImportId(now, k + (if header then 1 else 0)), names[k + (if header then 1 else 0)], None)
    decreases n
  {
    if n > 0 {
      var skip := if header then 1 else 0;
      var prev := Pushed(names, n - 1, header, now);
      var r := Pushed(names, n, header, now);
      PushedShape(names, n - 1, header, now);
      if n - 1 == 0 && header {
        assert r == prev;
      } else {
        assert r == prev + [Member(ImportId(now, n - 1), names[n - 1], None)];
        assert |prev| + skip == n - 1;
        forall k | 0 <= k < |r|
          ensures r[k] == Member(ImportId(now, k + skip), names[k + skip], None)
        {
          if k < |prev| {
            assert r[k] == prev[k];
          }
        }
      }
    }
  }

  /** Every remaining line trims to a non-empty name. */
  lemma ImportNamesNonEmpty(text: string)
    ensures forall i :: 0 <= i < |ImportLines(text)| ==> TrimAll(ImportLines(text))[i] != []
  {
    var lines := ImportLines(text);
    NonBlankMembers(Split(text, '\n'));
    forall i | 0 <= i < |lines| ensures TrimAll(lines)[i] != [] {
      assert lines[i] in lines;
      TrimAllAt(lines, i);
    }
  }

  /** The k-th imported member comes from line k, or k + 1 after a header. */
  lemma ImportEntries(text: string, now: nat)
    ensures var lines := ImportLines(text);
            |ImportedMembers(text, now)| == |lines| - Skipped(lines)
    ensures var lines := ImportLines(text);
            var r := ImportedMembers(text, now);
            forall k :: 0 <= k < |r| ==>
              r[k] == Member(ImportId(now, k + Skipped(lines)), TrimAll(lines)[k + Skipped(lines)], None)
  {
    var lines := ImportLines(text);
    ImportNamesNonEmpty(text);
    PushedShape(TrimAll(lines), |lines|, HasHeader(lines), now);
  }

  /** One member per non-blank line after an optional header, in file
      order: the k-th member comes from line k (or k + 1 after a header),
      carries that line's index in its id, its trimmed text as a
      non-empty name, and no photo. */
  lemma ImportShape(text: string, now: nat)
    ensures var lines := ImportLines(text);
            |ImportedMembers(text, now)| == |lines| - Skipped(lines)
    ensures var lines := ImportLines(text);
            var r := ImportedMembers(text, now);
            forall k :: 0 <= k < |r| ==>
              r[k].id == ImportId(now, k + Skipped(lines)) && r[k].name == Trim(lines[k + Skipped(lines)]) &&
              r[k].photo.None? && r[k].name != [] && !IsSpace(r[k].name[0]) && !IsSpace(r[k].name[|r[k].name| - 1])
  {
    var lines := ImportLines(text);
    var r := ImportedMembers(text, now);
    ImportEntries(text, now);
    ImportNamesNonEmpty(text);
    forall k | 0 <= k < |r|
      ensures r[k].name == Trim(lines[k + Skipped(lines)])
      ensures r[k].name != [] && !IsSpace(r[k].name[0]) && !IsSpace(r[k].name[|r[k].name| - 1])
    {
      TrimAllAt(lines, k + Skipped(lines));
      TrimEmptyIffBlank(lines[k + Skipped(lines)]);
    }
  }

  /** The first remaining line is dropped exactly when it is a header: it
      then contributes no member, and otherwise it is the first member. */
  lemma HeaderDropped(text: string, now: nat)
    requires |ImportLines(text)| > 0
    ensures var lines := ImportLines(text);
            IsHeader(lines[0]) <==> |ImportedMembers(text, now)| == |lines| - 1
    ensures var lines := ImportLines(text);
            !IsHeader(lines[0]) ==> |ImportedMembers(text, now)| == |lines| && ImportedMembers(text, now)[0].name == Trim(lines[0])
  {
    ImportShape(text, now);
  }

  /** Two import ids of one run differ when their line indices differ. */
  lemma ImportIdInjective(now: nat, i: nat, j: nat)
    requires ImportId(now, i) == ImportId(now, j)
    ensures i == j
  {
    var p := "imported-" + NatToString(now) + "-";
    assert ImportId(now, i) == p + NatToString(i) && ImportId(now, j) == p + NatToString(j);
    assert (p + NatToString(i))[|p|..] == NatToString(i);
    assert (p + NatToString(j))[|p|..] == NatToString(j);
    NatToStringInjective(i, j);
  }

  /** The ids of one import are pairwise distinct. */
  lemma ImportIdsDistinct(text: string, now: nat)
    ensures DistinctIds(ImportedMembers(text, now))
  {
    var lines := ImportLines(text);
    var r := ImportedMembers(text, now);
    ImportEntries(text, now);
    forall i, j | 0 <= i < j < |r| ensures r[i].id != r[j].id {
      assert r[i].id == ImportId(now, i + Skipped(lines)) && r[j].id == ImportId(now, j + Skipped(lines));
      if r[i].id == r[j].id {
        ImportIdInjective(now, i + Skipped(lines), j + Skipped(lines));
      }
    }
  }

  /** The members as the store keeps them. */
  function StoredAll(ms: seq<Member>): (r: seq<Member>)
    ensures |r| == |ms|
  {
    if ms == [] then [] else StoredAll(ms[..|ms| - 1]) + [Stored(ms[|ms| - 1])]
  }

  /** Members without a photo are stored as they are. */
  lemma {:induction false} StoredAllNoPhotos(ms: seq<Member>)
    requires forall i :: 0 <= i < |ms| ==> ms[i].photo.None?
    ensures StoredAll(ms) == ms
    decreases |ms|
  {
    if ms != [] {
      StoredAllNoPhotos(ms[..|ms| - 1]);
      assert ms == ms[..|ms| - 1] + [ms[|ms| - 1]];
    }
  }

  /** An import's members, and every prefix of them, are stored as they are. */
  lemma ImportedStoredAsIs(text: string, now: nat, n: nat)
    requires n <= |ImportedMembers(text, now)|
    ensures StoredAll(ImportedMembers(text, now)[..n]) == ImportedMembers(text, now)[..n]
  {
    ImportShape(text, now);
    StoredAllNoPhotos(ImportedMembers(text, now)[..n]);
  }

  function Min(a: nat, b: nat): nat {
    if a <= b then a else b
  }

  /** `for (const member of importedMembers) await addMember(member)`: the
      members go to the store one at a time and the first call that throws
      ends the loop. The call at position `failAt` fails with `message`;
      none fails when `failAt` is past the end. */
  method Upload(server: Server, imported: seq<Member>, failAt: nat, message: string, writeOk: bool)
    returns (outcome: Outcome)
    modifies server
    ensures outcome == Done <==> failAt >= |imported|
    ensures outcome != Done ==> outcome == Threw(message)
    ensures server.members == old(server.members)
              + (if writeOk then StoredAll(imported[..Min(failAt, |imported|)]) else [])
    ensures server.votes == old(server.votes) && server.logs == old(server.logs)
  {
    outcome := Done;
    for i := 0 to |imported|
      invariant i <= failAt && outcome == Done
      invariant server.members == old(server.members) + (if writeOk then StoredAll(imported[..i]) else [])
      invariant server.votes == old(server.votes) && server.logs == old(server.logs)
    {
      var failure := if i == failAt then Some(message) else None;
      outcome := AddMember(server, imported[i], failure, writeOk);
      if outcome != Done {
        return;
      }
      assert imported[..i + 1][..i] == imported[..i];
    }
    assert imported[..|imported|] == imported;
  }

  /** The Config page: its list is whatever the store holds after the last
      change that went through. */
  class ConfigPage {
    var members: seq<Member>

    constructor(loaded: seq<Member>)
      ensures members == loaded
    {
      members := loaded;
    }

    /** `handleAddMember`: a refused or failed add changes nothing; an add
        that went through reloads the list from the store. */
    method AddMember(server: Server, name: string, photo: Option<string>, now: nat,
                     failure: Option<string>, writeOk: bool) returns (check: NameCheck<Member>)
      modifies this, server
      ensures check == NewMember(name, photo, now)
      ensures check.Accepted? && failure.None? ==>
                members == server.members &&
                server.members == old(server.members) + (if writeOk then [check.value] else [])
      ensures !(check.Accepted? && failure.None?) ==> members == old(members) && server.members == old(server.members)
      ensures server.votes == old(server.votes) && server.logs == old(server.logs)
    {
      check := NewMember(name, photo, now);
      if check.Accepted? {
        var outcome := Storage.AddMember(server, check.value, failure, writeOk);
        if outcome == Done {
          members := server.members;
        }
      }
    }

    /** `handleSaveEdit`: the store rewrites the first member with the id;
        the list is reloaded only when the store found it. */
    method SaveEdit(server: Server, id: string, editName: string, editPhoto: Option<string>,
                    failure: Option<string>, writeOk: bool) returns (check: NameCheck<Edit>)
      modifies this, server
      ensures check == EditRequest(editName, editPhoto)
      ensures var done := check.Accepted? && failure.None? && FindIndex(old(server.members), id).Some?;
              members == (if done then server.members else old(members)) &&
              server.members == if done && writeOk then UpdateFirst(old(server.members), id, check.value.name, editPhoto).value
                                 else old(server.members)
      ensures server.votes == old(server.votes) && server.logs == old(server.logs)
    {
      check := EditRequest(editName, editPhoto);
      if check.Accepted? {
        var outcome := Storage.UpdateMember(server, id, check.value.name, check.value.photo, failure, writeOk);
        if outcome == Done {
          members := server.members;
        }
      }
    }

    /** `handleDeleteMember` after the confirmation dialog. */
    method DeleteMember(server: Server, id: string, confirmed: bool, failure: Option<string>, writeOk: bool)
      modifies this, server
      ensures var done := confirmed && failure.None?;
              members == (if done then server.members else old(members)) &&
              server.members == if done && writeOk then RemoveAll(old(server.members), id) else old(server.members)
      ensures server.votes == old(server.votes) && server.logs == old(server.logs)
    {
      if confirmed {
        var outcome := Storage.DeleteMember(server, id, failure, writeOk);
        if outcome == Done {
          members := server.members;
        }
      }
    }

    /** `handleImportCSV`: the parsed members go to the store in file
        order; the list is reloaded only when every add went through, so
        after a failure the store holds a prefix the page does not show. */
    method ImportFile(server: Server, text: string, now: nat, failAt: nat, message: string, writeOk: bool)
      returns (imported: seq<Member>)
      modifies this, server
      ensures imported == ImportedMembers(text, now)
      ensures server.members == old(server.members) + (if writeOk then imported[..Min(failAt, |imported|)] else [])
      ensures members == if |imported| > 0 && failAt >= |imported| then server.members else old(members)
      ensures server.votes == old(server.votes) && server.logs == old(server.logs)
    {
      imported := ParseImport(text, now);
      ImportedStoredAsIs(text, now, Min(failAt, |imported|));
      if |imported| > 0 {
        var outcome := Upload(server, imported, failAt, message, writeOk);
        if outcome == Done {
          members := server.members;
        }
      } else {
        assert imported[..Min(failAt, |imported|)] == [];
      }
    }
  }

  /** The Import page: it keeps its own copy of the list and changes it
      itself once the store has accepted a change. When the copy matched
      the store before and the store's write succeeds, it still matches
      after. */
  class ImportPage {
    var members: seq<Member>

    constructor(loaded: seq<Member>)
      ensures members == loaded
    {
      members := loaded;
    }

    /** `handleAddMember`: the new member goes at the end of the list. */
    method AddMember(server: Server, name: string, photo: Option<string>, now: nat,
                     failure: Option<string>, writeOk: bool) returns (check: NameCheck<Member>)
      modifies this, server
      ensures check == NewMember(name, photo, now)
      ensures members == if check.Accepted? && failure.None? then old(members) + [check.value] else old(members)
      ensures old(members) == old(server.members) && writeOk ==> members == server.members
      ensures server.votes == old(server.votes) && server.logs == old(server.logs)
    {
      check := NewMember(name, photo, now);
      if check.Accepted? {
        var outcome := Storage.AddMember(server, check.value, failure, writeOk);
        if outcome == Done {
          members := members + [check.value];
        }
      }
    }

    /** `handleDeleteMember`: every member with the id goes; the others
        keep their order. */
    method DeleteMember(server: Server, id: string, confirmed: bool, failure: Option<string>, writeOk: bool)
      modifies this, server
      ensures members == if confirmed && failure.None? then RemoveAll(old(members), id) else old(members)
      ensures old(members) == old(server.members) && writeOk ==> members == server.members
      ensures server.votes == old(server.votes) && server.logs == old(server.logs)
    {
      if confirmed {
        var outcome := Storage.DeleteMember(server, id, failure, writeOk);
        if outcome == Done {
          members := RemoveAll(members, id);
        }
      }
    }

    /** `handleSaveEdit`: every member with the id takes the trimmed name
        and the form's photo; the store rewrites only its first match, so
        the copies agree when ids are distinct and the photo is not an
        empty string. */
    method SaveEdit(server: Server, id: string, editName: string, editPhoto: Option<string>,
                    failure: Option<string>, writeOk: bool) returns (check: NameCheck<Edit>)
      modifies this, server
      ensures check == EditRequest(editName, editPhoto)
      ensures members == if check.Accepted? && failure.None? && FindIndex(old(server.members), id).Some?
                         then ReplaceAll(old(members), id, check.value.name, editPhoto) else old(members)
      ensures (old(members) == old(server.members) && writeOk && DistinctIds(old(members)) &&
               (editPhoto.None? || editPhoto.value != "")) ==> members == server.members
      ensures server.votes == old(server.votes) && server.logs == old(server.logs)
    {
      check := EditRequest(editName, editPhoto);
      if check.Accepted? {
        var outcome := Storage.UpdateMember(server, id, check.value.name, editPhoto, failure, writeOk);
        if outcome == Done {
          if old(members) == old(server.members) && DistinctIds(members) {
            UpdateFirstIsReplaceAll(members, id, check.value.name, editPhoto);
          }
          members := ReplaceAll(members, id, check.value.name, editPhoto);
        }
      }
    }

    /** `handleImportCSV`: after every add went through, the imported
        members follow the existing ones in file order. */
    method ImportFile(server: Server, text: string, now: nat, failAt: nat, message: string, writeOk: bool)
      returns (imported: seq<Member>)
      modifies this, server
      ensures imported == ImportedMembers(text, now)
      ensures server.members == old(server.members) + (if writeOk then imported[..Min(failAt, |imported|)] else [])
      ensures members == if |imported| > 0 && failAt >= |imported| then old(members) + imported else old(members)
      ensures old(members) == old(server.members) && writeOk && failAt >= |imported| ==> members == server.members
      ensures server.votes == old(server.votes) && server.logs == old(server.logs)
    {
      imported := ParseImport(text, now);
      ImportedStoredAsIs(text, now, Min(failAt, |imported|));
      if |imported| > 0 {
        var outcome := Upload(server, imported, failAt, message, writeOk);
        if outcome == Done {
          members := members + imported;
          assert imported[..|imported|] == imported;
        }
      } else {
        assert imported[..Min(failAt, |imported|)] == [];
      }
    }
  }
}
