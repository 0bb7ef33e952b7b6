/** The single decisions of an import and an export, spelled out case by case in
    terms of what is stored and what the file says. */
module ImportRules {
  import opened Wrappers
  import opened Entries
  import opened Profiles
  import opened ConfigImport
  import opened ImportLaws
  import opened ImportApp

  // What an entry of a list needs to be read at all.
  lemma InboundNeeds(hosts: seq<Host>, keys: seq<SSHKey>, profiles: seq<Profile>, i: nat)
    ensures i < |hosts| && Survives(hosts, HasHost, i) ==> Trim(hosts[i].id) != "" && Trim(hosts[i].body.host) != ""
    ensures i < |keys| && Survives(keys, HasName, i) ==> Trim(keys[i].id) != "" && Trim(keys[i].body.name) != ""
    ensures i < |profiles| && Survives(profiles, Named, i) ==> Trim(profiles[i].id) != "" && Trim(profiles[i].body.name) != ""
    ensures i < |hosts| && Trim(hosts[i].id) != "" && Trim(hosts[i].body.host) != "" && !Survives(hosts, HasHost, i) ==>
      exists j :: 0 <= j < i && Trim(hosts[j].id) == Trim(hosts[i].id)
    ensures i < |keys| && Trim(keys[i].id) != "" && Trim(keys[i].body.name) != "" && !Survives(keys, HasName, i) ==>
      exists j :: 0 <= j < i && Trim(keys[j].id) == Trim(keys[i].id)
    ensures i < |profiles| && Trim(profiles[i].id) != "" && Trim(profiles[i].body.name) != "" && !Survives(profiles, Named, i) ==>
      exists j :: 0 <= j < i && Trim(profiles[j].id) == Trim(profiles[i].id)
  {
    hide Trim;
  }

  // What every stored profile list is.
  lemma StoredProfilesAre(ps: seq<Profile>)
    ensures Stored(ps, Named) <==>
      && (forall i :: 0 <= i < |ps| ==> Trim(ps[i].id) != "" && Trim(ps[i].body.name) != "")
      && (forall i, j :: 0 <= i < j < |ps| ==> Trim(ps[i].id) != Trim(ps[j].id))
  {
    hide Trim;
    forall i | 0 <= i < |ps|
      ensures Acceptable(ps[i], Named) <==> Trim(ps[i].id) != "" && Trim(ps[i].body.name) != ""
    {
    }
    hide Acceptable;
  }

  // A host or key is added if its ID is new, unchanged if it is stored as it is,
  // and replaced otherwise.
  lemma ListActionExactly<T>(local: seq<Entry<T>>, e: Entry<T>)
    requires Distinct(local)
    ensures ListAction(local, e) == Add <==> forall i :: 0 <= i < |local| ==> local[i].id != e.id
    ensures ListAction(local, e) == Unchanged <==> e in local
    ensures ListAction(local, e) == Replace <==> e !in local && exists i :: 0 <= i < |local| && local[i].id == e.id
  {
    if i :| 0 <= i < |local| && local[i].id == e.id {
      IndexIs(local, i);
    }
    hide IndexOf;
  }

  // A profile likewise, except that one that brings no environment and does not
  // ask for sharing is compared without it.
  lemma ProfileActionExactly(local: seq<Profile>, p: Profile)
    requires Distinct(local)
    ensures ProfileAction(local, p) == Add <==> forall i :: 0 <= i < |local| ==> local[i].id != p.id
    ensures ProfileAction(local, p) == Unchanged <==>
      exists i :: 0 <= i < |local| && local[i].id == p.id
        && (local[i].body == p.body
            || (p.body.env == map[] && !p.body.syncEnv && local[i].body == p.body.(env := local[i].body.env)))
    ensures ProfileAction(local, p) == Replace <==> ProfileAction(local, p) != Add && ProfileAction(local, p) != Unchanged
  {
    if i :| 0 <= i < |local| && local[i].id == p.id {
      IndexIs(local, i);
      assert forall j :: 0 <= j < |local| && local[j].id == p.id ==> j == i;
    }
    hide IndexOf;
  }

  // The default is previewed exactly when the file has one.
  lemma DefaultActionExactly(local: Selection, file: Selection)
    ensures DefaultAction(local.defaultID, file.defaultID) == Add <==> local.defaultID == ""
    ensures local.defaultID != "" ==> (DefaultAction(local.defaultID, file.defaultID) == Unchanged <==> local.defaultID == file.defaultID)
    ensures local.defaultID != "" ==> (DefaultAction(local.defaultID, file.defaultID) == Replace <==> local.defaultID != file.defaultID)
    ensures (exists ch :: ch in PreviewSelection(local, file) && ch.key == DefaultKey) <==> file.defaultID != ""
    ensures |PreviewSelection(local, file)| == |file.profiles| + if file.defaultID == "" then 0 else 1
  {
    hide ProfileAction;
    var all := PreviewSelection(local, file);
    if file.defaultID != "" {
      assert all[|all| - 1].key == DefaultKey;
    }
  }

  // What a file's profile becomes: it keeps an environment of its own; without one
  // it takes the stored environment together with its sharing flag; and with
  // neither it has none.
  lemma MergedOneExactly(local: seq<Profile>, p: Profile)
    ensures var l := Lookup(local, p.id);
      MergedOne(local, p) ==
        if p.body.env == map[] && l.Some? && l.value.body.env != map[]
        then p.(body := p.body.(env := l.value.body.env, syncEnv := l.value.body.syncEnv))
        else p
  {
    hide IndexOf;
  }

  // Another version is neither previewed nor applied; a section the file does not
  // have leaves its part alone; and a refused profile list leaves the stored one.
  lemma SectionsApart(c: Config, f: File)
    ensures f.version != 1 ==> Preview(c, f).None? && Import(c, f) == Applied(c, false)
    ensures f.version == 1 ==> Preview(c, f).Some?
    ensures f.ssh.None? ==> Import(c, f).value.hosts == c.hosts && Import(c, f).value.keys == c.keys
    ensures f.profiles.None? ==> Import(c, f).value.selection == c.selection
    ensures f.version == 1 && !Import(c, f).ok ==>
      && Import(c, f).value.selection == c.selection
      && (f.ssh.Some? ==> Import(c, f).value == ImportSSH(c, f.ssh.value))
  {
    hide Validated, Merged, Stored, ListImport, ListChanges, ProfileAction;
  }

  // An export has every host, key and profile, and the default, and each of its
  // two sections exactly when there is something to put into it. By default the
  // environment of a profile that is not opted in stays behind.
  lemma ExportExactly(c: Config, includeLocalEnv: bool)
    ensures var f := Export(c, includeLocalEnv);
      && f.version == 1
      && (f.ssh.Some? <==> c.hosts != [] || c.keys != []) && (f.ssh.Some? ==> f.ssh.value.hosts == c.hosts && f.ssh.value.keys == c.keys)
      && (f.profiles.Some? <==> c.selection.profiles != [] || c.selection.defaultID != "")
      && (f.profiles.Some? ==>
            && f.profiles.value.defaultID == c.selection.defaultID
            && |f.profiles.value.profiles| == |c.selection.profiles|
            && forall i :: 0 <= i < |c.selection.profiles| ==>
                 var p := c.selection.profiles[i];
                 f.profiles.value.profiles[i] == p.(body := p.body.(env := if includeLocalEnv || p.body.syncEnv then p.body.env else map[])))
  {
  }

  // An import reports exactly the promised changes, as often as they were
  // promised, but for a default that names nothing.
  lemma {:induction false} ReportedExactly(changes: seq<Change>, defaultResolves: bool, ch: Change)
    ensures multiset(Reported(changes, defaultResolves))[ch]
         == if ch.action == Unchanged || (ch.key == DefaultKey && !defaultResolves) then 0 else multiset(changes)[ch]
  {
    if changes != [] {
      ReportedExactly(changes[..|changes| - 1], defaultResolves, ch);
      assert changes == changes[..|changes| - 1] + [changes[|changes| - 1]];
    }
  }

  // In the order of the preview.
  lemma {:induction false} ReportedInOrder(a: seq<Change>, b: seq<Change>, defaultResolves: bool)
    ensures Reported(a + b, defaultResolves) == Reported(a, defaultResolves) + Reported(b, defaultResolves)
  {
    if b == [] {
      assert a + b == a;
    } else {
      ReportedInOrder(a, b[..|b| - 1], defaultResolves);
      assert (a + b)[..|a + b| - 1] == a + b[..|b| - 1];
    }
  }
}
