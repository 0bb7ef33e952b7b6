/** What importing a configuration file keeps, adds and promises. */
module ImportLaws {
  import opened Wrappers
  import opened Entries
  import opened Profiles
  import opened ConfigImport

  // Importing a list of hosts or keys.

  lemma {:induction false} PutAllLookup<T>(s: seq<Entry<T>>, es: seq<Entry<T>>, id: string)
    ensures Lookup(PutAll(s, es), id) == if Lookup(es, id).Some? then Lookup(es, id) else Lookup(s, id)
  {
    if es != [] {
      PutAllLookup(s, es[..|es| - 1], id);
      PutLookup(PutAll(s, es[..|es| - 1]), es[|es| - 1], id);
      LookupLast(es, id);
      hide Put, Lookup;
    }
  }

  lemma LookupLast<T>(es: seq<Entry<T>>, id: string)
    requires es != []
    ensures Lookup(es, id) == if es[|es| - 1].id == id then Some(es[|es| - 1]) else Lookup(es[..|es| - 1], id)
  {
  }

  // Places already taken keep their IDs.
  lemma {:induction false} PutAllPlaces<T>(s: seq<Entry<T>>, es: seq<Entry<T>>)
    ensures |PutAll(s, es)| >= |s|
    ensures forall i :: 0 <= i < |s| ==> PutAll(s, es)[i].id == s[i].id
  {
    if es != [] {
      PutAllPlaces(s, es[..|es| - 1]);
    }
  }

  lemma {:induction false} ActionableLookup<T>(local: seq<Entry<T>>, file: seq<Entry<T>>, id: string)
    requires Distinct(file)
    ensures Lookup(Actionable(local, file), id) == if Lookup(file, id) == Lookup(local, id) then None else Lookup(file, id)
  {
    if file != [] {
      var init, e := file[..|file| - 1], file[|file| - 1];
      ActionableLookup(local, init, id);
      if ListAction(local, e) != Unchanged {
        assert Actionable(local, file)[..|Actionable(local, init)|] == Actionable(local, init);
      }
    }
  }

  // The file wins where it speaks and everything else stays, entry by entry.
  lemma ListImportLookup<T>(local: seq<Entry<T>>, file: seq<Entry<T>>, id: string)
    requires Distinct(file)
    ensures Lookup(ListImport(local, file), id) == if Lookup(file, id).Some? then Lookup(file, id) else Lookup(local, id)
    ensures id in Ids(ListImport(local, file)) <==> id in Ids(local) || id in Ids(file)
    ensures |ListImport(local, file)| >= |local|
    ensures forall i :: 0 <= i < |local| ==> ListImport(local, file)[i].id == local[i].id
  {
    PutAllLookup(local, Actionable(local, file), id);
    PutAllPlaces(local, Actionable(local, file));
    ActionableLookup(local, file, id);
  }

  lemma {:induction false} NothingActionable<T>(local: seq<Entry<T>>, file: seq<Entry<T>>)
    requires forall i :: 0 <= i < |file| ==> Lookup(local, file[i].id) == Some(file[i])
    ensures Actionable(local, file) == []
  {
    if file != [] {
      NothingActionable(local, file[..|file| - 1]);
    }
  }

  lemma ListImportTwice<T>(local: seq<Entry<T>>, file: seq<Entry<T>>)
    requires Distinct(file)
    ensures Actionable(ListImport(local, file), file) == []
    ensures ListImport(ListImport(local, file), file) == ListImport(local, file)
  {
    var once := ListImport(local, file);
    forall i | 0 <= i < |file|
      ensures Lookup(once, file[i].id) == Some(file[i])
    {
      ListImportLookup(local, file, file[i].id);
      IndexIs(file, i);
    }
    NothingActionable(once, file);
  }

  lemma MovedLast(local: seq<Host>, file: seq<Host>, id: string)
    requires file != []
    ensures var init, e := file[..|file| - 1], file[|file| - 1];
      var l := Lookup(local, e.id);
      id in Moved(local, Actionable(local, file)) <==>
        id in Moved(local, Actionable(local, init)) || (id == e.id && l.Some? && TargetChanged(l.value.body, e.body))
  {
    hide Lookup;
    var init, e := file[..|file| - 1], file[|file| - 1];
    if ListAction(local, e) != Unchanged {
      assert Actionable(local, file)[..|Actionable(local, init)|] == Actionable(local, init);
    }
  }

  // A credential is cleared exactly for a stored host that the file points at
  // another address, port or user.
  lemma {:induction false} ClearedExactly(local: seq<Host>, file: seq<Host>, id: string)
    requires Distinct(file)
    ensures id in Moved(local, Actionable(local, file)) <==>
      && Lookup(local, id).Some? && Lookup(file, id).Some?
      && var was, now := Lookup(local, id).value.body, Lookup(file, id).value.body;
         was.host != now.host || was.port != now.port || was.user != now.user
  {
    if file != [] {
      ClearedExactly(local, file[..|file| - 1], id);
      MovedLast(local, file, id);
      LookupLast(file, id);
      hide Lookup, Moved, Actionable;
    }
  }

  // The entries of IDs the local list does not have.
  function Fresh<T>(local: seq<Entry<T>>, es: seq<Entry<T>>): seq<Entry<T>> {
    if es == [] then []
    else
      var rest, e := Fresh(local, es[..|es| - 1]), es[|es| - 1];
      if e.id in Ids(local) then rest else rest + [e]
  }

  lemma {:induction false} PutAllOrder<T>(local: seq<Entry<T>>, es: seq<Entry<T>>)
    requires Distinct(es)
    ensures |PutAll(local, es)| >= |local| && PutAll(local, es)[|local|..] == Fresh(local, es)
  {
    if es != [] {
      var init, e := es[..|es| - 1], es[|es| - 1];
      var was := PutAll(local, init);
      PutAllOrder(local, init);
      PutAllLookup(local, init, e.id);
      PutAllPlaces(local, init);
      if e.id in Ids(local) {
        var i := IndexOf(local, e.id).value;
        assert was[i].id == e.id;
        assert forall j :: |local| <= j < |was| ==> was[j] == Fresh(local, init)[j - |local|];
        FreshIds(local, init);
      }
    }
  }

  lemma {:induction false} FreshIds<T>(local: seq<Entry<T>>, es: seq<Entry<T>>)
    ensures forall j :: 0 <= j < |Fresh(local, es)| ==> Fresh(local, es)[j].id !in Ids(local)
  {
    if es != [] {
      FreshIds(local, es[..|es| - 1]);
    }
  }

  lemma {:induction false} FreshActionable<T>(local: seq<Entry<T>>, file: seq<Entry<T>>)
    ensures Fresh(local, Actionable(local, file)) == Fresh(local, file)
  {
    if file != [] {
      var init, e := file[..|file| - 1], file[|file| - 1];
      FreshActionable(local, init);
      if ListAction(local, e) != Unchanged {
        assert Actionable(local, file)[..|Actionable(local, init)|] == Actionable(local, init);
      }
    }
  }

  lemma {:induction false} ActionableDistinct<T>(local: seq<Entry<T>>, file: seq<Entry<T>>)
    requires Distinct(file)
    ensures Distinct(Actionable(local, file))
    ensures Ids(Actionable(local, file)) <= Ids(file)
  {
    if file != [] {
      var init, e := file[..|file| - 1], file[|file| - 1];
      ActionableDistinct(local, init);
      assert forall i :: 0 <= i < |init| ==> init[i] == file[i];
      assert Ids(init) <= Ids(file);
      assert e.id in Ids(file);
      var rest := Actionable(local, init);
      assert forall i :: 0 <= i < |rest| ==> rest[i].id in Ids(rest);
    }
  }

  // Local entries keep their places and new ones follow in file order.
  lemma ListImportOrder<T>(local: seq<Entry<T>>, file: seq<Entry<T>>)
    requires Distinct(file)
    ensures |ListImport(local, file)| >= |local|
    ensures forall i :: 0 <= i < |local| ==> ListImport(local, file)[i].id == local[i].id
    ensures ListImport(local, file)[|local|..] == Fresh(local, file)
  {
    ActionableDistinct(local, file);
    PutAllOrder(local, Actionable(local, file));
    FreshActionable(local, file);
    PutAllPlaces(local, Actionable(local, file));
  }

  // Importing profiles.

  lemma {:induction false} WithoutIs(s: seq<Profile>, ids: set<string>)
    ensures forall i :: 0 <= i < |Without(s, ids)| ==> Without(s, ids)[i] in s && Without(s, ids)[i].id !in ids
    ensures forall i :: 0 <= i < |s| && s[i].id !in ids ==> s[i] in Without(s, ids)
    ensures Distinct(s) ==> Distinct(Without(s, ids))
  {
    if s != [] {
      WithoutIs(s[..|s| - 1], ids);
    }
  }

  lemma {:induction false} WithoutJoin(a: seq<Profile>, b: seq<Profile>, ids: set<string>)
    ensures Without(a + b, ids) == Without(a, ids) + Without(b, ids)
  {
    if b == [] {
      assert a + b == a;
    } else {
      WithoutJoin(a, b[..|b| - 1], ids);
      assert (a + b)[..|a + b| - 1] == a + b[..|b| - 1];
    }
  }

  lemma {:induction false} WithoutAll(s: seq<Profile>, ids: set<string>)
    requires forall i :: 0 <= i < |s| ==> s[i].id in ids
    ensures Without(s, ids) == []
  {
    if s != [] {
      WithoutAll(s[..|s| - 1], ids);
    }
  }

  lemma {:induction false} WithoutNone(s: seq<Profile>, ids: set<string>)
    requires forall i :: 0 <= i < |s| ==> s[i].id !in ids
    ensures Without(s, ids) == s
  {
    if s != [] {
      WithoutNone(s[..|s| - 1], ids);
    }
  }

  // What a file entry becomes.
  function MergedOne(local: seq<Profile>, p: Profile): Profile {
    MergeOne(local, PinOne(local, p))
  }

  // The merged list: the file's profiles in file order, then the local ones the
  // file does not mention, as they were.
  lemma MergedIs(local: seq<Profile>, file: seq<Profile>)
    requires Distinct(local)
    ensures |Merged(local, file)| == |file| + |Without(local, Ids(file))|
    ensures forall i :: 0 <= i < |file| ==> Merged(local, file)[i] == MergedOne(local, file[i])
    ensures Merged(local, file)[|file|..] == Without(local, Ids(file))
  {
    var w := Without(local, Ids(file));
    WithoutIs(local, Ids(file));
    forall i | 0 <= i < |w|
      ensures MergeOne(local, w[i]) == w[i]
    {
      var k :| 0 <= k < |local| && local[k] == w[i];
      IndexIs(local, k);
    }
  }

  lemma MergedIds(local: seq<Profile>, file: seq<Profile>)
    requires Distinct(local) && Distinct(file)
    ensures Distinct(Merged(local, file))
    ensures forall i :: 0 <= i < |file| ==> Merged(local, file)[i].id == file[i].id
  {
    hide Merged;
    var m, w := Merged(local, file), Without(local, Ids(file));
    MergedIs(local, file);
    WithoutIs(local, Ids(file));
    assert forall i :: |file| <= i < |m| ==> m[i] == w[i - |file|];
    assert forall i :: 0 <= i < |file| ==> m[i].id == file[i].id && file[i].id in Ids(file);
  }

  lemma MergedLookup(local: seq<Profile>, file: seq<Profile>, id: string)
    requires Distinct(local) && Distinct(file)
    ensures id in Ids(Merged(local, file)) <==> id in Ids(local) || id in Ids(file)
    ensures Lookup(Merged(local, file), id)
         == if Lookup(file, id).Some? then Some(MergedOne(local, Lookup(file, id).value)) else Lookup(local, id)
  {
    hide Merged, MergedOne, Distinct, Without, IndexOf;
    var m, w := Merged(local, file), Without(local, Ids(file));
    MergedIs(local, file);
    MergedIds(local, file);
    WithoutIs(local, Ids(file));
    if i: nat :| i < |file| && file[i].id == id {
      DistinctIndex(m, i);
      DistinctIndex(file, i);
    } else if k: nat :| k < |local| && local[k].id == id {
      assert local[k] in w;
      var i :| 0 <= i < |w| && w[i] == local[k];
      assert m[|file| + i] == w[i];
      DistinctIndex(m, |file| + i);
      DistinctIndex(local, k);
    } else {
      forall i | 0 <= i < |m|
        ensures m[i].id != id
      {
        if i >= |file| {
          assert m[i] == w[i - |file|];
        }
      }
    }
  }

  lemma DistinctIndex(s: seq<Profile>, i: nat)
    requires Distinct(s) && i < |s|
    ensures IndexOf(s, s[i].id) == Some(i) && Lookup(s, s[i].id) == Some(s[i])
  {
  }

  lemma MergedOneAgain(local: seq<Profile>, m: seq<Profile>, p: Profile)
    requires Lookup(m, p.id) == Some(MergedOne(local, p))
    ensures MergedOne(m, p) == MergedOne(local, p)
  {
  }

  lemma MergedTwice(local: seq<Profile>, file: seq<Profile>)
    requires Distinct(local) && Distinct(file)
    ensures Merged(Merged(local, file), file) == Merged(local, file)
  {
    hide Merged, MergedOne, Distinct;
    var m, w := Merged(local, file), Without(local, Ids(file));
    MergedIs(local, file);
    MergedIds(local, file);
    MergedIs(m, file);
    forall i | 0 <= i < |file|
      ensures MergedOne(m, file[i]) == m[i]
    {
      DistinctIndex(m, i);
      MergedOneAgain(local, m, file[i]);
    }
    WithoutOfMerged(m[..|file|], w, Ids(file)) by {
      assert forall i :: 0 <= i < |file| ==> file[i].id in Ids(file);
      WithoutIs(local, Ids(file));
    }
    assert m == m[..|file|] + w;
  }

  lemma WithoutOfMerged(a: seq<Profile>, w: seq<Profile>, ids: set<string>)
    requires forall i :: 0 <= i < |a| ==> a[i].id in ids
    requires forall i :: 0 <= i < |w| ==> w[i].id !in ids
    ensures Without(a + w, ids) == w
  {
    WithoutJoin(a, w, ids);
    WithoutAll(a, ids);
    WithoutNone(w, ids);
  }

  // The whole selection.

  lemma {:induction false} UnchangedMerges(local: seq<Profile>, p: Profile)
    ensures ProfileAction(local, p) == Unchanged ==> Lookup(local, p.id) == Some(MergedOne(local, p))
  {
  }

  // A profile the preview calls unchanged is left equal. One it calls replaced
  // is left equal too exactly when the file has no environment for it, this
  // machine has one, one of the two sides opted into sharing, and nothing but
  // the sharing flag and the environment differs.
  lemma PreviewMeansApply(local: seq<Profile>, p: Profile)
    requires Lookup(local, p.id).Some?
    ensures var l := Lookup(local, p.id).value;
      MergedOne(local, p) == l <==>
        || ProfileAction(local, p) == Unchanged
        || (&& p.body.env == map[] && l.body.env != map[] && (p.body.syncEnv || l.body.syncEnv)
            && p.body.(env := l.body.env, syncEnv := l.body.syncEnv) == l.body)
    ensures ProfileAction(local, p) == Unchanged ==>
      !(p.body.env == map[] && Lookup(local, p.id).value.body.env != map[]
        && (p.body.syncEnv || Lookup(local, p.id).value.body.syncEnv))
  {
  }

  // At a concrete input: the file opts in without an environment where this
  // machine has opted in with one.
  lemma ReplacedButEqualOnce()
    ensures var l, p := Sample(true, map["K" := "v"]), Sample(true, map[]);
      ProfileAction([l], p) == Replace && MergedOne([l], p) == l
  {
    var l, p := Sample(true, map["K" := "v"]), Sample(true, map[]);
    SampleLookup(true, map["K" := "v"]);
    assert "K" in l.body.env;
    PreviewMeansApply([l], p);
  }

  // After an accepted import every ID holds what the file's entry merges to, or
  // what it held before.
  lemma SelectionLookup(local: Selection, file: Selection, id: string)
    requires Distinct(local.profiles) && Distinct(file.profiles)
    requires ImportProfiles(local, file).ok
    ensures var r := ImportProfiles(local, file).value.profiles;
      && (id in Ids(r) <==> id in Ids(local.profiles) || id in Ids(file.profiles))
      && Lookup(r, id) == if Lookup(file.profiles, id).Some? then Some(MergedOne(local.profiles, Lookup(file.profiles, id).value))
                          else Lookup(local.profiles, id)
  {
    hide Merged, MergedOne, Distinct, ProfileAction;
    MergedLookup(local.profiles, file.profiles, id);
    if !AnyActionable(local.profiles, file.profiles) && Lookup(file.profiles, id).Some? {
      UnchangedMerges(local.profiles, Lookup(file.profiles, id).value);
    }
  }

  // The default after an import: the file's when it names a profile, else the
  // local one. A valid local default is replaced by a valid one or kept, never
  // cleared.
  lemma DefaultAfterImport(local: Selection, file: Selection)
    requires Distinct(local.profiles) && Distinct(file.profiles) && Resolved(local)
    requires ImportProfiles(local, file).ok
    ensures var r := ImportProfiles(local, file).value;
      && Resolved(r)
      && r.defaultID == if file.defaultID != "" && file.defaultID in Ids(r.profiles) then file.defaultID else local.defaultID
  {
    hide Merged, Distinct;
    MergedLookup(local.profiles, file.profiles, local.defaultID);
  }

  // Without that assumption: a dangling local default is kept only if nothing is
  // imported.
  lemma DefaultExactly(local: Selection, file: Selection)
    requires ImportProfiles(local, file).ok
    ensures var r := ImportProfiles(local, file).value;
      r.defaultID ==
        if !AnyActionable(local.profiles, file.profiles) && (file.defaultID == "" || file.defaultID == local.defaultID) then local.defaultID
        else if file.defaultID != "" && file.defaultID in Ids(r.profiles) then file.defaultID
        else if local.defaultID in Ids(r.profiles) then local.defaultID
        else ""
  {
    hide Merged, AnyActionable, Ids, Stored;
  }

  // Importing the same selection again changes nothing, order and default
  // included, even when the local default was dangling.
  lemma SelectionTwice(local: Selection, file: Selection)
    requires Distinct(local.profiles) && Distinct(file.profiles)
    ensures ImportProfiles(ImportProfiles(local, file).value, file).value == ImportProfiles(local, file).value
  {
    hide Merged, Distinct;
    MergedTwice(local.profiles, file.profiles);
  }

  // Import is idempotent on hosts, keys, profiles and the default, and the
  // second time finds every host and key unchanged.
  lemma ImportTwice(c: Config, f: File)
    requires Distinct(c.selection.profiles)
    ensures Import(Import(c, f).value, f).value == Import(c, f).value
    ensures f.version == EXPORT_VERSION && f.ssh.Some? ==>
      forall ch :: ch in PreviewSSH(Import(c, f).value, f.ssh.value) ==> ch.action == Unchanged
  {
    hide Validated, ImportSSH, PreviewSSH, ImportProfiles, Distinct;
    if f.version == EXPORT_VERSION {
      if f.ssh.Some? {
        SSHTwice(c, f.ssh.value);
        SSHKeepsSelection(c, f.ssh.value);
        SSHApart(c, Import(c, f).value.selection, f.ssh.value);
      }
      if f.profiles.Some? {
        ValidatedIsStored(f.profiles.value.profiles, Named);
        SelectionTwice(c.selection, ValidSelection(f.profiles.value));
      }
    }
  }

  lemma SSHKeepsSelection(c: Config, p: SSHPayload)
    ensures ImportSSH(c, p).selection == c.selection
  {
  }

  // Hosts and keys do not depend on the selection.
  lemma SSHApart(c: Config, s: Selection, p: SSHPayload)
    ensures ImportSSH(ImportSSH(c, p).(selection := s), p) == ImportSSH(ImportSSH(c, p), p).(selection := s)
    ensures PreviewSSH(ImportSSH(c, p).(selection := s), p) == PreviewSSH(ImportSSH(c, p), p)
  {
    hide Validated, ListImport, ListChanges;
  }

  lemma SSHTwice(c: Config, p: SSHPayload)
    ensures ImportSSH(ImportSSH(c, p), p) == ImportSSH(c, p)
    ensures forall ch :: ch in PreviewSSH(ImportSSH(c, p), p) ==> ch.action == Unchanged
  {
    hide Validated, ListImport, ListAction, Distinct;
    var hosts, keys := Validated(p.hosts, HasHost), Validated(p.keys, HasName);
    ValidatedIsStored(p.hosts, HasHost);
    ValidatedIsStored(p.keys, HasName);
    ListImportTwice(c.hosts, hosts);
    ListImportTwice(c.keys, keys);
    ListImportSettles(c.hosts, hosts);
    ListImportSettles(c.keys, keys);
  }

  lemma ListImportSettles<T>(local: seq<Entry<T>>, file: seq<Entry<T>>)
    requires Distinct(file)
    ensures forall i :: 0 <= i < |file| ==> ListAction(ListImport(local, file), file[i]) == Unchanged
  {
    forall i | 0 <= i < |file|
      ensures ListAction(ListImport(local, file), file[i]) == Unchanged
    {
      ListImportLookup(local, file, file[i].id);
      IndexIs(file, i);
    }
  }

  // SetProfiles refuses the merged list exactly when a stored ID carries white
  // space and the file has that ID without it. Importing adds no such ID,
  // but pulling can, and so can setting profiles, which checks the trimmed ID and
  // stores the list as it is given.
  lemma RefusedExactly(local: seq<Profile>, file: seq<Profile>)
    requires Stored(local, Named) && Stored(file, Named) && Trimmed(file)
    ensures !Stored(Merged(local, file), Named) <==> exists i :: 0 <= i < |local| && Padded(local[i], Ids(file))
  {
    hide Merged, Stored, Padded;
    if i :| 0 <= i < |local| && Padded(local[i], Ids(file)) {
      PaddedRefused(local, file, i);
    } else {
      AcceptedUnpadded(local, file);
    }
  }

  predicate Padded(p: Profile, ids: set<string>) {
    Trim(p.id) != p.id && Trim(p.id) in ids
  }

  lemma PaddedRefused(local: seq<Profile>, file: seq<Profile>, i: nat)
    requires Stored(local, Named) && Trimmed(file) && i < |local| && Padded(local[i], Ids(file))
    ensures !Stored(Merged(local, file), Named)
  {
    hide Merged, MergedOne;
    var m, w := Merged(local, file), Without(local, Ids(file));
    MergedIs(local, file);
    WithoutIs(local, Ids(file));
    MergedLabels(local, file);
    var k :| 0 <= k < |file| && file[k].id == Trim(local[i].id);
    assert local[i] in w;
    var j :| 0 <= j < |w| && w[j] == local[i];
    assert m[|file| + j] == w[j];
    TrimTwice(local[i].id);
    assert Trim(m[k].id) == Trim(m[|file| + j].id);
  }

  lemma AcceptedUnpadded(local: seq<Profile>, file: seq<Profile>)
    requires Stored(local, Named) && Stored(file, Named) && Trimmed(file)
    requires forall i :: 0 <= i < |local| ==> !Padded(local[i], Ids(file))
    ensures Stored(Merged(local, file), Named)
  {
    var m, w := Merged(local, file), Without(local, Ids(file));
    MergedLabels(local, file);
    WithoutStored(local, Ids(file));
    UnpaddedApart(local, file);
    hide Merged, MergedOne, Without, Padded, Trimmed;
    MergedIs(local, file);
    assert m == m[..|file|] + w;
    StoredLabels(m[..|file|], file);
    StoredJoin(m[..|file|], w);
  }

  lemma UnpaddedApart(local: seq<Profile>, file: seq<Profile>)
    requires Distinct(local) && Trimmed(file) && forall i :: 0 <= i < |local| ==> !Padded(local[i], Ids(file))
    ensures var w := Without(local, Ids(file));
      forall i, j :: 0 <= i < |file| && 0 <= j < |w| ==> Trim(file[i].id) != Trim(w[j].id)
  {
    WithoutIs(local, Ids(file));
    hide Without, Trim;
    var w := Without(local, Ids(file));
    forall i, j | 0 <= i < |file| && 0 <= j < |w|
      ensures Trim(file[i].id) != Trim(w[j].id)
    {
      assert w[j] in w;
      var k :| 0 <= k < |local| && local[k] == w[j];
      assert !Padded(local[k], Ids(file)) && file[i].id in Ids(file);
    }
  }

  // Being stored is a matter of IDs and names.
  lemma StoredLabels(a: seq<Profile>, b: seq<Profile>)
    requires Stored(b, Named) && |a| == |b|
    requires forall i :: 0 <= i < |a| ==> a[i].id == b[i].id && a[i].body.name == b[i].body.name
    ensures Stored(a, Named)
  {
    forall i | 0 <= i < |a|
      ensures Acceptable(a[i], Named)
    {
      assert Acceptable(b[i], Named);
    }
  }

  lemma StoredJoin(a: seq<Profile>, b: seq<Profile>)
    requires Stored(a, Named) && Stored(b, Named)
    requires forall i, j :: 0 <= i < |a| && 0 <= j < |b| ==> Trim(a[i].id) != Trim(b[j].id)
    ensures Stored(a + b, Named)
  {
    hide Acceptable, Trim;
  }

  lemma MergedLabels(local: seq<Profile>, file: seq<Profile>)
    requires Distinct(local)
    ensures |Merged(local, file)| >= |file|
    ensures forall i :: 0 <= i < |file| ==> Merged(local, file)[i].id == file[i].id && Merged(local, file)[i].body.name == file[i].body.name
  {
  }

  lemma {:induction false} WithoutStored(s: seq<Profile>, ids: set<string>)
    requires Stored(s, Named)
    ensures Stored(Without(s, ids), Named)
  {
    if s != [] {
      var init, p := s[..|s| - 1], s[|s| - 1];
      var rest := Without(init, ids);
      WithoutStored(init, ids);
      WithoutIs(init, ids);
      hide Acceptable;
      forall i | 0 <= i < |rest|
        ensures Trim(rest[i].id) != Trim(p.id)
      {
        var k :| 0 <= k < |init| && init[k] == rest[i];
      }
      if p.id !in ids {
        StoredSnoc(rest, p, Named);
      }
    }
  }

  // With trimmed local IDs no file is refused for its profiles.
  lemma NeverRefused(c: Config, f: File)
    requires Stored(c.selection.profiles, Named) && Trimmed(c.selection.profiles) && f.version == EXPORT_VERSION
    ensures Import(c, f).ok
  {
    hide Merged, Stored;
    if f.profiles.Some? {
      ValidatedIsStored(f.profiles.value.profiles, Named);
      RefusedExactly(c.selection.profiles, ValidSelection(f.profiles.value).profiles);
    }
  }

  // A pulled profile keeps the white space of its ID, and a later file with the
  // trimmed ID is then refused.
  lemma PaddedPullRefuses()
    ensures exists local: Selection, remote: Selection, f: File, hosts: seq<Host>, keys: seq<SSHKey> ::
      f.version == EXPORT_VERSION && local.profiles == [] && !Import(Config(hosts, keys, Pulled(local, remote)), f).ok
  {
    var body := ProfileBody("n", "", "", "", map[], false);
    var padded, plain := Entry(" x", body), Entry("x", body);
    var remote, local := Selection([padded], ""), Selection([], "");
    PaddedTrims();
    PaddedIsStored(padded, plain);
    var pulled := Pulled(local, remote);
    assert pulled.profiles == [padded];
    var f := File(EXPORT_VERSION, None, Some(Selection([plain], "")));
    hide Trim, Validated, Filtered, Stored, Merged, ProfileAction;
    assert ValidSelection(f.profiles.value).profiles == [plain];
    PaddedHit(padded, plain);
    RefusedExactly([padded], [plain]);
    assert !Import(Config([], [], pulled), f).ok;
  }

  // Setting the list directly has the same effect: it is accepted as it stands.
  lemma PaddedSetRefuses()
    ensures exists profiles: seq<Profile>, f: File, hosts: seq<Host>, keys: seq<SSHKey> ::
      f.version == EXPORT_VERSION && Stored(profiles, Named) && !Import(Config(hosts, keys, Selection(profiles, "")), f).ok
  {
    var body := ProfileBody("n", "", "", "", map[], false);
    var padded, plain := Entry(" x", body), Entry("x", body);
    PaddedTrims();
    PaddedIsStored(padded, plain);
    var f := File(EXPORT_VERSION, None, Some(Selection([plain], "")));
    hide Trim, Validated, Stored, Merged, ProfileAction;
    assert ValidSelection(f.profiles.value).profiles == [plain];
    PaddedHit(padded, plain);
    RefusedExactly([padded], [plain]);
    assert !Import(Config([], [], Selection([padded], "")), f).ok;
  }

  lemma PaddedTrims()
    ensures Trim(" x") == "x" && Trim("x") == "x" && Trim("n") == "n"
  {
    assert " x"[1..] == "x";
    assert TrimLeft(" x") == TrimLeft("x");
  }

  lemma PaddedIsStored(padded: Profile, plain: Profile)
    requires Trim(padded.id) == "x" && plain.id == "x" == Trim("x") && Named(padded.body) && Named(plain.body)
    ensures Stored([padded], Named) && Filtered([padded], Named) == [padded]
    ensures Stored([plain], Named) && Trimmed([plain]) && Validated([plain], Named) == [plain]
  {
    hide Trim, Named;
    FilteredKeeps([padded], Named);
    ValidatedKeeps([plain], Named);
  }

  lemma PaddedHit(padded: Profile, plain: Profile)
    requires padded.id == " x" && plain.id == "x" && Trim(" x") == "x"
    ensures Padded([padded][0], Ids([plain])) && AnyActionable([padded], [plain])
  {
    hide Trim;
    assert [plain][0].id in Ids([plain]);
    assert IndexOf([padded], "x").None?;
    assert ProfileAction([padded], [plain][0]) == Add;
  }

  // Export and environments.

  // Every stored list is well formed, with trimmed IDs.
  predicate Tidy(c: Config) {
    && Stored(c.hosts, HasHost) && Trimmed(c.hosts)
    && Stored(c.keys, HasName) && Trimmed(c.keys)
    && Stored(c.selection.profiles, Named) && Trimmed(c.selection.profiles)
  }

  lemma TidyDistinct<T>(s: seq<Entry<T>>, named: T -> bool)
    requires Stored(s, named) && Trimmed(s)
    ensures Distinct(s) && Validated(s, named) == s
  {
    ValidatedKeeps(s, named);
    ValidatedIsStored(s, named);
  }

  lemma OwnListUnchanged<T>(s: seq<Entry<T>>)
    requires Distinct(s)
    ensures forall i :: 0 <= i < |s| ==> ListAction(s, s[i]) == Unchanged
    ensures ListImport(s, s) == s
  {
    forall i | 0 <= i < |s|
      ensures Lookup(s, s[i].id) == Some(s[i])
    {
      IndexIs(s, i);
    }
    NothingActionable(s, s);
  }

  function ForExport(s: seq<Profile>, includeLocalEnv: bool): seq<Profile> {
    if includeLocalEnv then s else Strip(s)
  }

  lemma OwnProfilesUnchanged(s: seq<Profile>, includeLocalEnv: bool)
    requires Distinct(s)
    ensures !AnyActionable(s, ForExport(s, includeLocalEnv))
  {
  }

  lemma OwnProfilesValid(s: seq<Profile>, includeLocalEnv: bool)
    requires Stored(s, Named) && Trimmed(s)
    ensures Validated(ForExport(s, includeLocalEnv), Named) == ForExport(s, includeLocalEnv)
  {
    var e := ForExport(s, includeLocalEnv);
    assert Alike(s, e);
    AlikeStored(s, e);
    assert Trimmed(e);
    ValidatedKeeps(e, Named);
  }

  lemma SelfSelection(local: Selection, includeLocalEnv: bool)
    requires Stored(local.profiles, Named) && Trimmed(local.profiles)
    ensures var f := Selection(ForExport(local.profiles, includeLocalEnv), local.defaultID);
      && ValidSelection(f) == f && ImportProfiles(local, f) == Applied(local, true)
      && |PreviewSelection(local, f)| == |local.profiles| + (if local.defaultID == "" then 0 else 1)
      && forall ch :: ch in PreviewSelection(local, f) ==> ch.action == Unchanged
  {
    hide Merged, ProfileAction, Stored, Validated, Strip;
    TidyDistinct(local.profiles, Named);
    OwnProfilesValid(local.profiles, includeLocalEnv);
    OwnProfilesUnchanged(local.profiles, includeLocalEnv);
  }

  // Exporting and importing again on the same machine: every host, key and
  // profile, and the default, is previewed as unchanged, and nothing is written.
  lemma SelfImport(c: Config, includeLocalEnv: bool)
    requires Tidy(c)
    ensures var f := Export(c, includeLocalEnv);
      && Import(c, f) == Applied(c, true)
      && Preview(c, f).Some?
      && |Preview(c, f).value| == |c.hosts| + |c.keys| + |c.selection.profiles| + (if c.selection.defaultID == "" then 0 else 1)
      && forall ch :: ch in Preview(c, f).value ==> ch.action == Unchanged
  {
    hide Stored, Validated, Strip, Distinct, ListImport, ListAction, PreviewSelection, ImportProfiles;
    TidyDistinct(c.hosts, HasHost);
    TidyDistinct(c.keys, HasName);
    OwnListUnchanged(c.hosts);
    OwnListUnchanged(c.keys);
    SelfSelection(c.selection, includeLocalEnv);
  }

  // Import never shares a private environment: each environment in a default
  // export made after an import is the file's own, or belongs to a local
  // profile that shared it before.
  lemma EnvOrigin(local: Selection, file: Selection, id: string)
    requires Distinct(local.profiles) && Distinct(file.profiles)
    ensures var after := Lookup(ImportProfiles(local, file).value.profiles, id);
      after.Some? && StripOne(after.value).body.env != map[] ==>
        var env, l, p := after.value.body.env, Lookup(local.profiles, id), Lookup(file.profiles, id);
        || (p.Some? && p.value.body.env == env)
        || (l.Some? && l.value.body.syncEnv && l.value.body.env == env)
  {
    hide Merged, Distinct;
    if ImportProfiles(local, file).ok {
      SelectionLookup(local, file, id);
    }
  }
}
