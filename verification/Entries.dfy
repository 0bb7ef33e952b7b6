/** Lists of records with a string ID, as the configuration stores them:
    trimming, lookup by ID, replacement in place, and the validity rule that
    every inbound list goes through. */
module Entries {
  import opened Wrappers

  datatype Entry<T> = Entry(id: string, body: T)

  // The characters Go's strings.TrimSpace removes.
  predicate IsSpace(c: char) {
    var n := c as int;
    || 9 <= n <= 13 || n == 0x20 || n == 0x85 || n == 0xA0 || n == 0x1680
    || 0x2000 <= n <= 0x200A || n == 0x2028 || n == 0x2029 || n == 0x202F || n == 0x205F || n == 0x3000
  }

  function TrimLeft(s: string): string {
    if s != "" && IsSpace(s[0]) then TrimLeft(s[1..]) else s
  }

  function TrimRight(s: string): (r: string)
    ensures r <= s
    ensures r != "" ==> !IsSpace(r[|r| - 1])
    ensures forall i :: |r| <= i < |s| ==> IsSpace(s[i])
  {
    if s != "" && IsSpace(s[|s| - 1]) then TrimRight(s[..|s| - 1]) else s
  }

  function Trim(s: string): string {
    TrimRight(TrimLeft(s))
  }

  lemma {:induction false} TrimLeftEnds(s: string)
    ensures TrimLeft(s) != "" ==> !IsSpace(TrimLeft(s)[0])
  {
    if s != "" && IsSpace(s[0]) {
      TrimLeftEnds(s[1..]);
    }
  }

  // Trimming twice changes nothing.
  lemma TrimTwice(s: string)
    ensures Trim(Trim(s)) == Trim(s)
  {
    TrimLeftEnds(s);
  }

  // Trimming takes exactly the white space at the two ends.
  lemma TrimExactly(s: string) returns (left: string, right: string)
    ensures s == left + Trim(s) + right && AllSpace(left) && AllSpace(right)
    ensures Trim(s) != "" ==> !IsSpace(Trim(s)[0]) && !IsSpace(Trim(s)[|Trim(s)| - 1])
  {
    left := TrimLeftTakes(s);
    TrimLeftEnds(s);
    var rest := TrimLeft(s);
    hide IsSpace, TrimLeft;
    right := rest[|TrimRight(rest)|..];
    assert rest == TrimRight(rest) + right;
  }

  predicate AllSpace(s: string) {
    forall i :: 0 <= i < |s| ==> IsSpace(s[i])
  }

  lemma {:induction false} TrimLeftTakes(s: string) returns (left: string)
    ensures s == left + TrimLeft(s) && AllSpace(left)
  {
    if s != "" && IsSpace(s[0]) {
      var more := TrimLeftTakes(s[1..]);
      left := [s[0]] + more;
      assert s == [s[0]] + s[1..];
    } else {
      left := "";
    }
  }

  function Ids<T>(s: seq<Entry<T>>): set<string> {
    set i | 0 <= i < |s| :: s[i].id
  }

  predicate Distinct<T>(s: seq<Entry<T>>) {
    forall i, j :: 0 <= i < j < |s| ==> s[i].id != s[j].id
  }

  // The last position holding an ID: what a Go map filled in order remembers.
  function IndexOf<T>(s: seq<Entry<T>>, id: string): (r: Option<nat>)
    ensures r.Some? ==> r.value < |s| && s[r.value].id == id && forall j :: r.value < j < |s| ==> s[j].id != id
    ensures r.None? ==> forall j :: 0 <= j < |s| ==> s[j].id != id
    ensures r.Some? <==> id in Ids(s)
  {
    if s == [] then None
    else if s[|s| - 1].id == id then Some(|s| - 1)
    else IndexOf(s[..|s| - 1], id)
  }

  function Lookup<T>(s: seq<Entry<T>>, id: string): Option<Entry<T>> {
    var i := IndexOf(s, id);
    if i.Some? then Some(s[i.value]) else None
  }

  // Replaces the entry of that ID where it stands, or appends.
  function Put<T>(s: seq<Entry<T>>, e: Entry<T>): seq<Entry<T>> {
    var i := IndexOf(s, e.id);
    if i.Some? then s[i.value := e] else s + [e]
  }

  lemma IndexIs<T>(s: seq<Entry<T>>, i: nat)
    requires i < |s| && forall j :: i < j < |s| ==> s[j].id != s[i].id
    ensures IndexOf(s, s[i].id) == Some(i) && Lookup(s, s[i].id) == Some(s[i])
  {
  }

  lemma PutLookup<T>(s: seq<Entry<T>>, e: Entry<T>, id: string)
    ensures IndexOf(Put(s, e), id) == (if id != e.id || IndexOf(s, id).Some? then IndexOf(s, id) else Some(|s|))
    ensures Lookup(Put(s, e), id) == if id == e.id then Some(e) else Lookup(s, id)
  {
    var r := Put(s, e);
    var i := IndexOf(s, id);
    if id == e.id {
      IndexIs(r, if i.Some? then i.value else |s|);
    } else if i.Some? {
      IndexIs(r, i.value);
    } else {
      assert forall j :: 0 <= j < |r| ==> r[j].id != id;
    }
  }

  // The rule for an inbound list: an entry with an empty trimmed ID or no name
  // is dropped, and of several with the same trimmed ID the first is kept.
  function Acceptable<T>(e: Entry<T>, named: T -> bool): bool {
    Trim(e.id) != "" && named(e.body)
  }

  function TrimmedIds<T>(s: seq<Entry<T>>): set<string> {
    set i | 0 <= i < |s| :: Trim(s[i].id)
  }

  lemma IdsSnoc<T>(s: seq<Entry<T>>, e: Entry<T>)
    ensures Ids(s + [e]) == Ids(s) + {e.id}
  {
    var all := s + [e];
    assert forall i :: 0 <= i < |s| ==> all[i] == s[i];
    assert all[|s|] == e;
  }

  lemma TrimmedIdsSnoc<T>(s: seq<Entry<T>>, e: Entry<T>)
    ensures TrimmedIds(s + [e]) == TrimmedIds(s) + {Trim(e.id)}
  {
    var all := s + [e];
    assert forall i :: 0 <= i < |s| ==> all[i] == s[i];
    assert all[|s|] == e;
  }

  // Keeps the IDs as they came.
  function Filtered<T>(file: seq<Entry<T>>, named: T -> bool): seq<Entry<T>> {
    if file == [] then []
    else
      var rest, e := Filtered(file[..|file| - 1], named), file[|file| - 1];
      if Acceptable(e, named) && Trim(e.id) !in TrimmedIds(rest) then rest + [e] else rest
  }

  function TrimIds<T>(s: seq<Entry<T>>): seq<Entry<T>> {
    seq(|s|, i requires 0 <= i < |s| => s[i].(id := Trim(s[i].id)))
  }

  // Trims the IDs it keeps.
  function Validated<T>(file: seq<Entry<T>>, named: T -> bool): seq<Entry<T>> {
    TrimIds(Filtered(file, named))
  }

  predicate Trimmed<T>(s: seq<Entry<T>>) {
    forall i :: 0 <= i < |s| ==> Trim(s[i].id) == s[i].id
  }

  // What every stored list has: the check SetProfiles makes.
  predicate Stored<T>(s: seq<Entry<T>>, named: T -> bool) {
    && (forall i :: 0 <= i < |s| ==> Acceptable(s[i], named))
    && (forall i, j :: 0 <= i < j < |s| ==> Trim(s[i].id) != Trim(s[j].id))
  }

  lemma StoredSnoc<T>(s: seq<Entry<T>>, e: Entry<T>, named: T -> bool)
    requires Stored(s, named) && Acceptable(e, named) && Trim(e.id) !in TrimmedIds(s)
    ensures Stored(s + [e], named)
  {
  }

  lemma {:induction false} FilteredIsStored<T>(file: seq<Entry<T>>, named: T -> bool)
    ensures Stored(Filtered(file, named), named)
  {
    if file != [] {
      var init, e := file[..|file| - 1], file[|file| - 1];
      FilteredIsStored(init, named);
      if Acceptable(e, named) && Trim(e.id) !in TrimmedIds(Filtered(init, named)) {
        StoredSnoc(Filtered(init, named), e, named);
      }
    }
  }

  // Only malformed entries and later duplicates are dropped.
  lemma {:induction false} FilteredKeepsIds<T>(file: seq<Entry<T>>, named: T -> bool, k: nat)
    requires k < |file| && Acceptable(file[k], named)
    ensures Trim(file[k].id) in TrimmedIds(Filtered(file, named))
  {
    var init, e := file[..|file| - 1], file[|file| - 1];
    TrimmedIdsSnoc(Filtered(init, named), e);
    if k < |init| {
      FilteredKeepsIds(init, named, k);
    }
  }

  // An entry survives the inbound filter if its ID and name are not blank and no
  // earlier entry that has both has the same ID up to white space.
  predicate Survives<T>(s: seq<Entry<T>>, named: T -> bool, i: nat)
    requires i < |s|
  {
    && Trim(s[i].id) != "" && named(s[i].body)
    && forall j :: 0 <= j < i ==> !(Trim(s[j].id) == Trim(s[i].id) && named(s[j].body))
  }

  ghost predicate Claims<T>(s: seq<Entry<T>>, named: T -> bool, id: string) {
    exists i :: 0 <= i < |s| && id == Trim(s[i].id) && Acceptable(s[i], named)
  }

  lemma ClaimsSnoc<T>(s: seq<Entry<T>>, named: T -> bool, id: string)
    requires s != []
    ensures Claims(s, named, id) <==> Claims(s[..|s| - 1], named, id) || (id == Trim(s[|s| - 1].id) && Acceptable(s[|s| - 1], named))
  {
    hide Trim, Acceptable;
    var init := s[..|s| - 1];
    assert forall i :: 0 <= i < |init| ==> init[i] == s[i];
    if i :| 0 <= i < |init| && id == Trim(init[i].id) && Acceptable(init[i], named) {
      assert s[i] == init[i];
    }
  }

  lemma {:induction false} FilteredIds<T>(s: seq<Entry<T>>, named: T -> bool, id: string)
    ensures id in TrimmedIds(Filtered(s, named)) <==> Claims(s, named, id)
  {
    hide Trim;
    if s != [] {
      var init, e := s[..|s| - 1], s[|s| - 1];
      FilteredIds(init, named, id);
      ClaimsSnoc(s, named, id);
      TrimmedIdsSnoc(Filtered(init, named), e);
      hide Claims, TrimmedIds;
    }
  }

  lemma SurvivesIs<T>(s: seq<Entry<T>>, named: T -> bool, n: nat)
    requires n < |s|
    ensures Survives(s, named, n) <==> Acceptable(s[n], named) && !Claims(s[..n], named, Trim(s[n].id))
  {
    hide Trim;
    assert forall i :: 0 <= i < n ==> s[..n][i] == s[i];
  }

  // The entries among the first `n` that survive, in their order.
  function Surviving<T>(s: seq<Entry<T>>, named: T -> bool, n: nat): seq<Entry<T>>
    requires n <= |s|
  {
    if n == 0 then [] else Surviving(s, named, n - 1) + if Survives(s, named, n - 1) then [s[n - 1]] else []
  }

  lemma {:induction false} FilteredExactly<T>(s: seq<Entry<T>>, named: T -> bool, n: nat)
    requires n <= |s|
    ensures Filtered(s[..n], named) == Surviving(s, named, n)
  {
    hide Trim, TrimmedIds, Acceptable, Survives, Claims;
    if n > 0 {
      FilteredExactly(s, named, n - 1);
      SurvivesIs(s, named, n - 1);
      FilteredIds(s[..n - 1], named, Trim(s[n - 1].id));
      assert s[..n][..n - 1] == s[..n - 1];
    }
  }

  // Filtering keeps a list whole exactly when it could be stored as it is.
  lemma {:induction false} FilteredKeeps<T>(s: seq<Entry<T>>, named: T -> bool)
    ensures Filtered(s, named) == s <==> Stored(s, named)
    ensures |Filtered(s, named)| <= |s|
  {
    FilteredIsStored(s, named);
    if s != [] {
      FilteredKeeps(s[..|s| - 1], named);
      assert s == s[..|s| - 1] + [s[|s| - 1]];
    }
  }

  lemma ValidatedIsStored<T>(file: seq<Entry<T>>, named: T -> bool)
    ensures Stored(Validated(file, named), named) && Trimmed(Validated(file, named)) && Distinct(Validated(file, named))
  {
    var f, v := Filtered(file, named), Validated(file, named);
    FilteredIsStored(file, named);
    forall i | 0 <= i < |v|
      ensures Trim(v[i].id) == v[i].id && Trim(v[i].id) == Trim(f[i].id) && Acceptable(f[i], named)
    {
      TrimTwice(f[i].id);
    }
  }

  // An import reads a list back unchanged exactly when it is stored with
  // trimmed IDs.
  lemma ValidatedKeeps<T>(s: seq<Entry<T>>, named: T -> bool)
    ensures Validated(s, named) == s <==> Stored(s, named) && Trimmed(s)
  {
    var f, v := Filtered(s, named), Validated(s, named);
    FilteredKeeps(s, named);
    ValidatedIsStored(s, named);
    if Stored(s, named) && Trimmed(s) {
      assert v == s;
    }
  }

  // The source's loops.

  method TrimSpace(s: string) returns (r: string)
    ensures r == Trim(s)
  {
    r := s;
    while r != "" && IsSpace(r[0])
      invariant TrimLeft(r) == TrimLeft(s)
      decreases |r|
    {
      r := r[1..];
    }
    while r != "" && IsSpace(r[|r| - 1])
      invariant TrimRight(r) == Trim(s)
      decreases |r|
    {
      r := r[..|r| - 1];
    }
  }

  method ByID<T>(s: seq<Entry<T>>) returns (m: map<string, Entry<T>>)
    ensures forall id :: id in m <==> Lookup(s, id).Some?
    ensures forall id :: id in m ==> Lookup(s, id) == Some(m[id])
  {
    m := map[];
    for i := 0 to |s|
      invariant forall id :: id in m <==> Lookup(s[..i], id).Some?
      invariant forall id :: id in m ==> Lookup(s[..i], id) == Some(m[id])
    {
      assert s[..i + 1][..i] == s[..i];
      m := m[s[i].id := s[i]];
    }
    assert s[..|s|] == s;
  }

  // The loop of the three validators, which trim the IDs they keep.
  method Validate<T>(file: seq<Entry<T>>, named: T -> bool) returns (kept: seq<Entry<T>>, skipped: nat)
    ensures kept == Validated(file, named) && skipped == |file| - |kept|
  {
    hide Trim;
    kept, skipped := [], 0;
    var seen: set<string> := {};
    for i := 0 to |file|
      invariant kept == Validated(file[..i], named) && skipped == i - |kept|
      invariant seen == TrimmedIds(Filtered(file[..i], named))
    {
      assert file[..i + 1][..i] == file[..i];
      var id := TrimSpace(file[i].id);
      if id == "" || !named(file[i].body) || id in seen {
        skipped := skipped + 1;
      } else {
        seen := seen + {id};
        kept := kept + [file[i].(id := id)];
        TrimmedIdsSnoc(Filtered(file[..i], named), file[i]);
      }
    }
    assert file[..|file|] == file;
  }
}
