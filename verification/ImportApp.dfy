/** The import as the application runs it: loops over the payloads, index maps,
    and the stored configuration updated in place. */
module ImportApp {
  import opened Wrappers
  import opened Entries
  import opened Profiles
  import opened ConfigImport
  import opened ImportLaws

  // The keys of the changes that are not "unchanged".
  function ActionableKeys(changes: seq<Change>): set<Key> {
    set i | 0 <= i < |changes| && changes[i].action != Unchanged :: changes[i].key
  }

  lemma ActionableKeysSnoc(changes: seq<Change>, ch: Change)
    ensures ActionableKeys(changes + [ch]) == ActionableKeys(changes) + if ch.action == Unchanged then {} else {ch.key}
  {
    var all := changes + [ch];
    assert forall i :: 0 <= i < |changes| ==> all[i] == changes[i];
    assert all[|changes|] == ch;
  }

  // What an accepted import reports as applied: every promised change, but for
  // a default that names no profile.
  function Reported(changes: seq<Change>, defaultResolves: bool): seq<Change> {
    if changes == [] then []
    else
      var rest, ch := Reported(changes[..|changes| - 1], defaultResolves), changes[|changes| - 1];
      if ch.action != Unchanged && (ch.key == DefaultKey ==> defaultResolves) then rest + [ch] else rest
  }

  function Hits<T>(section: Section, es: seq<Entry<T>>, actionable: set<Key>): set<Key> {
    set i | 0 <= i < |es| && ListKey(section, es[i].id) in actionable :: ListKey(section, es[i].id)
  }

  function ProfileHits(ps: seq<Profile>, actionable: set<Key>): set<Key> {
    set i | 0 <= i < |ps| && ProfileKey(ps[i].id) in actionable :: ProfileKey(ps[i].id)
  }

  lemma HitsSnoc<T>(section: Section, es: seq<Entry<T>>, e: Entry<T>, actionable: set<Key>)
    ensures Hits(section, es + [e], actionable)
         == Hits(section, es, actionable) + if ListKey(section, e.id) in actionable then {ListKey(section, e.id)} else {}
  {
    var all := es + [e];
    assert forall i :: 0 <= i < |es| ==> all[i] == es[i];
    assert all[|es|] == e;
  }

  lemma ProfileHitsSnoc(ps: seq<Profile>, p: Profile, actionable: set<Key>)
    ensures ProfileHits(ps + [p], actionable)
         == ProfileHits(ps, actionable) + if ProfileKey(p.id) in actionable then {ProfileKey(p.id)} else {}
  {
    var all := ps + [p];
    assert forall i :: 0 <= i < |ps| ==> all[i] == ps[i];
    assert all[|ps|] == p;
  }

  // The keys to apply are the ones the preview calls added or replaced.
  ghost predicate Agrees<T>(actionable: set<Key>, section: Section, local: seq<Entry<T>>, file: seq<Entry<T>>) {
    forall i :: 0 <= i < |file| ==> (ListKey(section, file[i].id) in actionable <==> ListAction(local, file[i]) != Unchanged)
  }

  ghost predicate ProfilesAgree(actionable: set<Key>, local: Selection, file: Selection) {
    && (forall i :: 0 <= i < |file.profiles| ==>
          (ProfileKey(file.profiles[i].id) in actionable <==> ProfileAction(local.profiles, file.profiles[i]) != Unchanged))
    && (DefaultKey in actionable <==> DefaultChanges(local, file))
  }

  function DefaultResolves(c: Config, f: File): bool {
    f.version == EXPORT_VERSION && f.profiles.Some?
    && var file := ValidSelection(f.profiles.value);
       Resolve(file.defaultID, Merged(c.selection.profiles, file.profiles)) != ""
  }

  // A change whose key no other change has makes its key actionable or not.
  lemma MiddleActionable(a: seq<Change>, b: seq<Change>, c: seq<Change>, i: nat)
    requires i < |b|
    requires forall j :: 0 <= j < |a| ==> a[j].key != b[i].key
    requires forall j :: 0 <= j < |b| && b[j].key == b[i].key ==> j == i
    requires forall j :: 0 <= j < |c| ==> c[j].key != b[i].key
    ensures b[i].key in ActionableKeys(a + b + c) <==> b[i].action != Unchanged
  {
    var all := a + b + c;
    assert all[|a| + i] == b[i];
  }

  // The preview is the changes of profiles, default, hosts and keys, in that
  // order, and each has a key of its own.

  function ProfileChanges(local: Selection, file: Selection): seq<Change> {
    seq(|file.profiles|, i requires 0 <= i < |file.profiles| =>
      Change(ProfileKey(file.profiles[i].id), ProfileAction(local.profiles, file.profiles[i])))
  }

  function DefaultChange(local: Selection, file: Selection): seq<Change> {
    if file.defaultID == "" then [] else [Change(DefaultKey, DefaultAction(local.defaultID, file.defaultID))]
  }

  function SelectionChanges(c: Config, f: File): seq<Change> {
    if f.profiles.None? then [] else PreviewSelection(c.selection, ValidSelection(f.profiles.value))
  }

  function SSHChanges(c: Config, f: File): seq<Change> {
    if f.ssh.None? then [] else PreviewSSH(c, f.ssh.value)
  }

  lemma SelectionKeys(c: Config, f: File)
    ensures forall j :: 0 <= j < |SelectionChanges(c, f)| ==> !SelectionChanges(c, f)[j].key.ListKey?
  {
    hide Validated, ProfileAction;
  }

  lemma SSHKeys(c: Config, f: File)
    ensures forall j :: 0 <= j < |SSHChanges(c, f)| ==> SSHChanges(c, f)[j].key.ListKey?
  {
    hide Validated, ListAction;
  }

  lemma ListKeys<T>(local: seq<Entry<T>>, file: seq<Entry<T>>, section: Section)
    ensures |ListChanges(local, file, section)| == |file|
    ensures forall j :: 0 <= j < |file| ==>
      ListChanges(local, file, section)[j] == Change(ListKey(section, file[j].id), ListAction(local, file[j]))
  {
  }

  lemma HostActionable(c: Config, f: File, i: nat)
    requires f.version == EXPORT_VERSION && f.ssh.Some? && i < |Validated(f.ssh.value.hosts, HasHost)|
    ensures var h := Validated(f.ssh.value.hosts, HasHost)[i];
      ListKey(Hosts, h.id) in ActionableKeys(Preview(c, f).value) <==> ListAction(c.hosts, h) != Unchanged
  {
    hide ListAction, Validated, PreviewSelection, ListChanges, Stored, Trimmed, ActionableKeys;
    var hosts, keys := Validated(f.ssh.value.hosts, HasHost), Validated(f.ssh.value.keys, HasName);
    var before, mine, behind := SelectionChanges(c, f), ListChanges(c.hosts, hosts, Hosts), ListChanges(c.keys, keys, Vault);
    ValidatedIsStored(f.ssh.value.hosts, HasHost);
    SelectionKeys(c, f);
    ListKeys(c.hosts, hosts, Hosts);
    ListKeys(c.keys, keys, Vault);
    MiddleActionable(before, mine, behind, i);
    assert Preview(c, f).value == before + mine + behind;
  }

  lemma VaultActionable(c: Config, f: File, i: nat)
    requires f.version == EXPORT_VERSION && f.ssh.Some? && i < |Validated(f.ssh.value.keys, HasName)|
    ensures var k := Validated(f.ssh.value.keys, HasName)[i];
      ListKey(Vault, k.id) in ActionableKeys(Preview(c, f).value) <==> ListAction(c.keys, k) != Unchanged
  {
    hide ListAction, Validated, PreviewSelection, ListChanges, Stored, Trimmed, ActionableKeys;
    var hosts, keys := Validated(f.ssh.value.hosts, HasHost), Validated(f.ssh.value.keys, HasName);
    var before, mine := SelectionChanges(c, f) + ListChanges(c.hosts, hosts, Hosts), ListChanges(c.keys, keys, Vault);
    ValidatedIsStored(f.ssh.value.keys, HasName);
    SelectionKeys(c, f);
    ListKeys(c.hosts, hosts, Hosts);
    ListKeys(c.keys, keys, Vault);
    MiddleActionable(before, mine, [], i);
    assert Preview(c, f).value == before + mine + [];
  }

  lemma ProfileActionable(c: Config, f: File, i: nat)
    requires f.version == EXPORT_VERSION && f.profiles.Some? && i < |Validated(f.profiles.value.profiles, Named)|
    ensures var p := Validated(f.profiles.value.profiles, Named)[i];
      ProfileKey(p.id) in ActionableKeys(Preview(c, f).value) <==> ProfileAction(c.selection.profiles, p) != Unchanged
  {
    hide ProfileAction, Validated, Stored, Trimmed, PreviewSSH, ActionableKeys;
    var file := ValidSelection(f.profiles.value);
    var mine, behind := ProfileChanges(c.selection, file), DefaultChange(c.selection, file) + SSHChanges(c, f);
    ValidatedIsStored(f.profiles.value.profiles, Named);
    SSHKeys(c, f);
    MiddleActionable([], mine, behind, i);
    assert Preview(c, f).value == [] + mine + behind;
  }

  lemma DefaultActionable(c: Config, f: File)
    requires f.version == EXPORT_VERSION && f.profiles.Some?
    ensures DefaultKey in ActionableKeys(Preview(c, f).value) <==> DefaultChanges(c.selection, ValidSelection(f.profiles.value))
  {
    hide ProfileAction, Validated, PreviewSSH;
    var file := ValidSelection(f.profiles.value);
    var before, mine, behind := ProfileChanges(c.selection, file), DefaultChange(c.selection, file), SSHChanges(c, f);
    SSHKeys(c, f);
    assert Preview(c, f).value == before + mine + behind;
    if mine != [] {
      MiddleActionable(before, mine, behind, 0);
    } else {
      assert forall j :: 0 <= j < |Preview(c, f).value| ==> Preview(c, f).value[j].key != DefaultKey;
    }
  }

  lemma ActionableSnoc<T>(local: seq<Entry<T>>, file: seq<Entry<T>>, i: nat)
    requires i < |file|
    ensures var was, now := Actionable(local, file[..i]), Actionable(local, file[..i + 1]);
      if ListAction(local, file[i]) == Unchanged then now == was
      else now == was + [file[i]] && PutAll(local, now) == Put(PutAll(local, was), file[i])
  {
    assert file[..i + 1][..i] == file[..i];
    var was := Actionable(local, file[..i]);
    assert (was + [file[i]])[..|was|] == was;
  }

  lemma MovedSnoc(local: seq<Host>, es: seq<Host>, e: Host)
    ensures Moved(local, es + [e])
         == if Lookup(local, e.id).Some? && TargetChanged(Lookup(local, e.id).value.body, e.body) then Moved(local, es) + [e.id]
            else Moved(local, es)
  {
  }

  // While a validated list is applied, an entry not yet reached is as it was.
  lemma NotYetReached<T>(local: seq<Entry<T>>, file: seq<Entry<T>>, i: nat)
    requires Distinct(file) && i < |file|
    ensures Lookup(PutAll(local, Actionable(local, file[..i])), file[i].id) == Lookup(local, file[i].id)
  {
    PutAllLookup(local, Actionable(local, file[..i]), file[i].id);
    ActionableLookup(local, file[..i], file[i].id);
  }

  ghost predicate Indexes<T>(index: map<string, nat>, s: seq<Entry<T>>) {
    && (forall id :: id in index <==> IndexOf(s, id).Some?)
    && (forall id :: id in index ==> IndexOf(s, id) == Some(index[id]))
  }

  lemma IndexesPut<T>(index: map<string, nat>, s: seq<Entry<T>>, e: Entry<T>)
    requires Indexes(index, s)
    ensures Indexes(if e.id in index then index else index[e.id := |s|], Put(s, e))
  {
    forall id ensures IndexOf(Put(s, e), id) == if id != e.id || IndexOf(s, id).Some? then IndexOf(s, id) else Some(|s|) {
      PutLookup(s, e, id);
    }
  }

  method IndexAll<T>(s: seq<Entry<T>>) returns (index: map<string, nat>)
    ensures Indexes(index, s)
  {
    index := map[];
    for i := 0 to |s|
      invariant Indexes(index, s[..i])
    {
      assert s[..i + 1][..i] == s[..i];
      index := index[s[i].id := i];
    }
    assert s[..|s|] == s;
  }

  // Replaces in place, or appends and remembers where.
  method PutIndexed<T>(s: seq<Entry<T>>, index: map<string, nat>, e: Entry<T>) returns (s': seq<Entry<T>>, index': map<string, nat>)
    requires Indexes(index, s)
    ensures s' == Put(s, e) && Indexes(index', s')
  {
    IndexesPut(index, s, e);
    if e.id in index {
      s', index' := s[index[e.id] := e], index;
    } else {
      s', index' := s + [e], index[e.id := |s|];
    }
  }

  // Refuses an empty ID or name, and two IDs equal up to white space.
  method CheckProfiles(profiles: seq<Profile>) returns (ok: bool)
    ensures ok <==> Stored(profiles, Named)
  {
    var seen: set<string> := {};
    for i := 0 to |profiles|
      invariant Stored(profiles[..i], Named) && seen == TrimmedIds(profiles[..i])
    {
      var id := TrimSpace(profiles[i].id);
      var name := TrimSpace(profiles[i].body.name);
      TrimmedIdsSnoc(profiles[..i], profiles[i]);
      assert profiles[..i + 1] == profiles[..i] + [profiles[i]];
      if id == "" || id in seen || name == "" {
        return false;
      }
      StoredSnoc(profiles[..i], profiles[i], Named);
      seen := seen + {id};
    }
    assert profiles[..|profiles|] == profiles;
    ok := true;
  }

  // The list the import stores: pins the sharing flag where the local
  // environment will stay, adds the local-only profiles, and merges.
  method MergeFile(local: seq<Profile>, file: seq<Profile>) returns (merged: seq<Profile>)
    ensures merged == Merged(local, file)
  {
    var fileByID: set<string> := {};
    for i := 0 to |file|
      invariant fileByID == Ids(file[..i])
    {
      IdsSnoc(file[..i], file[i]);
      assert file[..i + 1] == file[..i] + [file[i]];
      fileByID := fileByID + {file[i].id};
    }
    assert file[..|file|] == file;
    var localByID := ByID(local);
    var pinned := [];
    for i := 0 to |file|
      invariant pinned == PinAll(local, file[..i])
    {
      var p := file[i];
      if |p.body.env| == 0 && p.id in localByID && |localByID[p.id].body.env| > 0 {
        p := p.(body := p.body.(syncEnv := localByID[p.id].body.syncEnv));
      }
      pinned := pinned + [p];
    }
    var rest := [];
    for i := 0 to |local|
      invariant rest == Without(local[..i], fileByID)
    {
      assert local[..i + 1][..i] == local[..i];
      if local[i].id !in fileByID {
        rest := rest + [local[i]];
      }
    }
    assert local[..|local|] == local;
    merged := MergeProfiles(local, pinned + rest);
  }

  method CollectProfiles(file: seq<Profile>, actionable: set<Key>) returns (applied: set<Key>)
    ensures applied == ProfileHits(file, actionable)
  {
    applied := {};
    for i := 0 to |file|
      invariant applied == ProfileHits(file[..i], actionable)
    {
      ProfileHitsSnoc(file[..i], file[i], actionable);
      assert file[..i + 1] == file[..i] + [file[i]];
      if ProfileKey(file[i].id) in actionable {
        applied := applied + {ProfileKey(file[i].id)};
      }
    }
    assert file[..|file|] == file;
  }

  method CollectActionable(changes: seq<Change>) returns (actionable: set<Key>)
    ensures actionable == ActionableKeys(changes)
  {
    actionable := {};
    for i := 0 to |changes|
      invariant actionable == ActionableKeys(changes[..i])
    {
      ActionableKeysSnoc(changes[..i], changes[i]);
      assert changes[..i + 1] == changes[..i] + [changes[i]];
      if changes[i].action != Unchanged {
        actionable := actionable + {changes[i].key};
      }
    }
    assert changes[..|changes|] == changes;
  }

  // Reports the promised changes whose key was applied.
  method ReportOf(changes: seq<Change>, applied: set<Key>, ghost defaultResolves: bool) returns (report: seq<Change>)
    requires forall i :: 0 <= i < |changes| && changes[i].action != Unchanged ==>
      (changes[i].key in applied <==> (changes[i].key == DefaultKey ==> defaultResolves))
    ensures report == Reported(changes, defaultResolves)
  {
    report := [];
    for i := 0 to |changes|
      invariant report == Reported(changes[..i], defaultResolves)
    {
      assert changes[..i + 1][..i] == changes[..i];
      if changes[i].action != Unchanged && changes[i].key in applied {
        report := report + [changes[i]];
      }
    }
    assert changes[..|changes|] == changes;
  }

  // The keys an accepted import applies.
  function AppliedBy(c: Config, f: File): set<Key>
    requires f.version == EXPORT_VERSION
  {
    var actionable := ActionableKeys(Preview(c, f).value);
    var lists := if f.ssh.None? then {} else
      Hits(Hosts, Validated(f.ssh.value.hosts, HasHost), actionable) + Hits(Vault, Validated(f.ssh.value.keys, HasName), actionable);
    var selection := if f.profiles.None? then {} else
      ProfileHits(Validated(f.profiles.value.profiles, Named), actionable)
      + if DefaultKey in actionable && DefaultResolves(c, f) then {DefaultKey} else {};
    lists + selection
  }

  lemma PreviewAgrees(c: Config, f: File)
    requires f.version == EXPORT_VERSION
    ensures var actionable := ActionableKeys(Preview(c, f).value);
      && (f.ssh.Some? ==> Agrees(actionable, Hosts, c.hosts, Validated(f.ssh.value.hosts, HasHost)))
      && (f.ssh.Some? ==> Agrees(actionable, Vault, c.keys, Validated(f.ssh.value.keys, HasName)))
      && (f.profiles.Some? ==> ProfilesAgree(actionable, c.selection, ValidSelection(f.profiles.value)))
  {
    hide ActionableKeys, Preview, ListAction, ProfileAction, Validated, DefaultChanges;
    if f.ssh.Some? {
      forall i | 0 <= i < |Validated(f.ssh.value.hosts, HasHost)| {
        HostActionable(c, f, i);
      }
      forall i | 0 <= i < |Validated(f.ssh.value.keys, HasName)| {
        VaultActionable(c, f, i);
      }
    }
    if f.profiles.Some? {
      forall i | 0 <= i < |Validated(f.profiles.value.profiles, Named)| {
        ProfileActionable(c, f, i);
      }
      DefaultActionable(c, f);
    }
  }

  // What is applied is what was promised, but for a default that names nothing.
  lemma AppliedKeys(c: Config, f: File)
    requires f.version == EXPORT_VERSION
    ensures var changes := Preview(c, f).value;
      forall i :: 0 <= i < |changes| && changes[i].action != Unchanged ==>
        (changes[i].key in AppliedBy(c, f) <==> (changes[i].key == DefaultKey ==> DefaultResolves(c, f)))
  {
    hide ListAction, ProfileAction, Validated, DefaultResolves;
    var changes := Preview(c, f).value;
    var selection := if f.profiles.None? then [] else PreviewSelection(c.selection, ValidSelection(f.profiles.value));
    forall i | 0 <= i < |changes| && changes[i].action != Unchanged
      ensures changes[i].key in AppliedBy(c, f) <==> (changes[i].key == DefaultKey ==> DefaultResolves(c, f))
    {
      assert changes[i].key in ActionableKeys(changes);
      if i < |selection| {
        assert changes[i] == selection[i];
        if i < |ValidSelection(f.profiles.value).profiles| {
          assert changes[i].key == ProfileKey(ValidSelection(f.profiles.value).profiles[i].id);
        }
      } else {
        assert changes[i] == PreviewSSH(c, f.ssh.value)[i - |selection|];
      }
    }
  }

  lemma NothingApplied(c: Config, f: File)
    requires f.version == EXPORT_VERSION && ActionableKeys(Preview(c, f).value) == {}
    ensures AppliedBy(c, f) == {}
  {
  }

  method ListChangesOf<T(==)>(local: seq<Entry<T>>, file: seq<Entry<T>>, section: Section) returns (changes: seq<Change>)
    ensures changes == ListChanges(local, file, section)
  {
    var localByID := ByID(local);
    changes := [];
    for i := 0 to |file|
      invariant changes == ListChanges(local, file[..i], section)
    {
      var e := file[i];
      var action := if e.id !in localByID then Add else if localByID[e.id] == e then Unchanged else Replace;
      changes := changes + [Change(ListKey(section, e.id), action)];
    }
    assert file[..|file|] == file;
  }

  method PreviewProfiles(local: Selection, payload: Selection) returns (changes: seq<Change>)
    ensures changes == PreviewSelection(local, ValidSelection(payload))
  {
    var profiles, _ := Validate(payload.profiles, Named);
    var localByID := ByID(local.profiles);
    changes := [];
    for i := 0 to |profiles|
      invariant |changes| == i
      invariant forall k :: 0 <= k < i ==>
        changes[k] == Change(ProfileKey(profiles[k].id), ProfileAction(local.profiles, profiles[k]))
    {
      var p := profiles[i];
      var action := Add;
      if p.id in localByID {
        action := if localByID[p.id] == MergeCandidate(localByID[p.id], p) then Unchanged else Replace;
      }
      changes := changes + [Change(ProfileKey(p.id), action)];
    }
    if payload.defaultID != "" {
      var action := Unchanged;
      if local.defaultID == "" {
        action := Add;
      } else if local.defaultID != payload.defaultID {
        action := Replace;
      }
      changes := changes + [Change(DefaultKey, action)];
    }
  }

  // One more entry of a validated list, with its loop state.
  lemma ListStep<T>(actionable: set<Key>, section: Section, local: seq<Entry<T>>, file: seq<Entry<T>>, i: nat)
    requires i < |file| && Agrees(actionable, section, local, file)
    ensures var was, now, key := Actionable(local, file[..i]), Actionable(local, file[..i + 1]), ListKey(section, file[i].id);
      && Hits(section, file[..i + 1], actionable) == Hits(section, file[..i], actionable) + (if key in actionable then {key} else {})
      && (key !in actionable ==> now == was)
      && (key in actionable ==> now == was + [file[i]] && PutAll(local, now) == Put(PutAll(local, was), file[i]))
  {
    hide IndexOf, ListAction, Put, PutAll, Actionable, Hits;
    ActionableSnoc(local, file, i);
    HitsSnoc(section, file[..i], file[i], actionable);
    assert file[..i + 1] == file[..i] + [file[i]];
  }

  lemma NoHits<T>(actionable: set<Key>, section: Section, local: seq<Entry<T>>, file: seq<Entry<T>>)
    requires Agrees(actionable, section, local, file) && Hits(section, file, actionable) == {}
    ensures Actionable(local, file) == []
  {
    hide IndexOf;
    forall i | 0 <= i < |file|
      ensures Lookup(local, file[i].id) == Some(file[i])
    {
      var key := ListKey(section, file[i].id);
      assert key in actionable ==> key in Hits(section, file, actionable);
    }
    NothingActionable(local, file);
  }

  // Replaces or appends the actionable hosts, and collects those whose stored
  // credential no longer belongs to them.
  method ApplyHosts(local: seq<Host>, hosts: seq<Host>, actionable: set<Key>)
    returns (out: seq<Host>, moved: seq<string>, applied: set<Key>)
    requires Distinct(hosts) && Agrees(actionable, Hosts, local, hosts)
    ensures out == ListImport(local, hosts) && moved == Moved(local, Actionable(local, hosts))
    ensures applied == Hits(Hosts, hosts, actionable)
    ensures applied == {} ==> out == local && moved == []
  {
    hide Put, Distinct, Agrees, TargetChanged;
    out, moved, applied := local, [], {};
    var index := IndexAll(out);
    for i := 0 to |hosts|
      invariant out == PutAll(local, Actionable(local, hosts[..i])) && Indexes(index, out)
      invariant moved == Moved(local, Actionable(local, hosts[..i]))
      invariant applied == Hits(Hosts, hosts[..i], actionable)
    {
      var h := hosts[i];
      ListStep(actionable, Hosts, local, hosts, i);
      NotYetReached(local, hosts, i);
      MovedSnoc(local, Actionable(local, hosts[..i]), h);
      if ListKey(Hosts, h.id) in actionable {
        if h.id in index && TargetChanged(out[index[h.id]].body, h.body) {
          moved := moved + [h.id];
        }
        out, index := PutIndexed(out, index, h);
        applied := applied + {ListKey(Hosts, h.id)};
      }
    }
    assert hosts[..|hosts|] == hosts;
    if applied == {} {
      NoHits(actionable, Hosts, local, hosts);
    }
  }

  method ApplyKeys(local: seq<SSHKey>, keys: seq<SSHKey>, actionable: set<Key>) returns (out: seq<SSHKey>, applied: set<Key>)
    requires Agrees(actionable, Vault, local, keys)
    ensures out == ListImport(local, keys)
    ensures applied == Hits(Vault, keys, actionable)
    ensures applied == {} ==> out == local
  {
    hide Put, Agrees;
    out, applied := local, {};
    var index := IndexAll(out);
    for i := 0 to |keys|
      invariant out == PutAll(local, Actionable(local, keys[..i])) && Indexes(index, out)
      invariant applied == Hits(Vault, keys[..i], actionable)
    {
      var k := keys[i];
      ListStep(actionable, Vault, local, keys, i);
      if ListKey(Vault, k.id) in actionable {
        out, index := PutIndexed(out, index, k);
        applied := applied + {ListKey(Vault, k.id)};
      }
    }
    assert keys[..|keys|] == keys;
    if applied == {} {
      NoHits(actionable, Vault, local, keys);
    }
  }

  class App {
    var config: Config
    var writes: nat
    var cleared: seq<string>

    constructor (c: Config)
      ensures config == c && writes == 0 && cleared == []
    {
      config, writes, cleared := c, 0, [];
    }

    method PreviewConfigImport(f: File) returns (r: Option<seq<Change>>)
      ensures r == Preview(config, f) && (r.Some? <==> f.version == EXPORT_VERSION)
    {
      if f.version != EXPORT_VERSION {
        return None;
      }
      var changes: seq<Change> := [];
      if f.profiles.Some? {
        changes := PreviewProfiles(config.selection, f.profiles.value);
      }
      assert changes + [] == changes;
      if f.ssh.Some? {
        var hosts, _ := Validate(f.ssh.value.hosts, HasHost);
        var keys, _ := Validate(f.ssh.value.keys, HasName);
        var hostChanges := ListChangesOf(config.hosts, hosts, Hosts);
        var keyChanges := ListChangesOf(config.keys, keys, Vault);
        changes := changes + (hostChanges + keyChanges);
      }
      r := Some(changes);
    }

    method ApplySSHHostsImport(p: SSHPayload, actionable: set<Key>) returns (applied: set<Key>)
      requires Agrees(actionable, Hosts, config.hosts, Validated(p.hosts, HasHost))
      requires Agrees(actionable, Vault, config.keys, Validated(p.keys, HasName))
      modifies this
      ensures config == ImportSSH(old(config), p)
      ensures cleared == old(cleared) + Moved(old(config).hosts, Actionable(old(config).hosts, Validated(p.hosts, HasHost)))
      ensures writes == old(writes) + if applied == {} then 0 else 1
      ensures applied == Hits(Hosts, Validated(p.hosts, HasHost), actionable) + Hits(Vault, Validated(p.keys, HasName), actionable)
    {
      hide Validated, ListImport, Hits, Agrees, Moved, Actionable, Stored, Trimmed, Distinct;
      var hosts, _ := Validate(p.hosts, HasHost);
      var keys, _ := Validate(p.keys, HasName);
      ValidatedIsStored(p.hosts, HasHost);
      var newHosts, moved, hostsApplied := ApplyHosts(config.hosts, hosts, actionable);
      var newKeys, keysApplied := ApplyKeys(config.keys, keys, actionable);
      applied := hostsApplied + keysApplied;
      if applied == {} {
        assert hostsApplied == {} && keysApplied == {};
        return;
      }
      config := config.(hosts := newHosts, keys := newKeys);
      writes := writes + 1;
      for i := 0 to |moved|
        invariant cleared == old(cleared) + moved[..i]
        invariant config == old(config).(hosts := newHosts, keys := newKeys) && writes == old(writes) + 1
      {
        cleared := cleared + [moved[i]];
      }
    }

    // Stores an acceptable list and drops a default that it does not name.
    method SetProfiles(profiles: seq<Profile>) returns (ok: bool)
      modifies this`config, this`writes
      ensures ok <==> Stored(profiles, Named)
      ensures writes == old(writes) + if ok then 1 else 0
      ensures config == if !ok then old(config) else
        old(config).(selection := Selection(profiles, Resolve(old(config).selection.defaultID, profiles)))
    {
      ok := CheckProfiles(profiles);
      if ok {
        var default := ResolveDefaultProfileID(config.selection.defaultID, profiles);
        config := config.(selection := Selection(profiles, default));
        writes := writes + 1;
      }
    }

    method ApplyProfilesImport(payload: Selection, actionable: set<Key>) returns (ok: bool, applied: set<Key>)
      requires ProfilesAgree(actionable, config.selection, ValidSelection(payload))
      modifies this`config, this`writes
      ensures var r := ImportProfiles(old(config).selection, ValidSelection(payload));
        config == old(config).(selection := r.value) && ok == r.ok
      ensures ok ==>
        applied == ProfileHits(Validated(payload.profiles, Named), actionable)
                 + (if DefaultKey in actionable
                       && Resolve(payload.defaultID, Merged(old(config).selection.profiles, Validated(payload.profiles, Named))) != ""
                    then {DefaultKey} else {})
      ensures applied == {} && DefaultKey !in actionable && ok ==> writes == old(writes)
    {
      hide Merged, Validated, Stored, ProfileAction;
      var file, _ := Validate(payload.profiles, Named);
      applied := CollectProfiles(file, actionable);
      assert applied == {} <==> !AnyActionable(config.selection.profiles, file) by {
        assert forall i :: 0 <= i < |file| && ProfileKey(file[i].id) in actionable ==> ProfileKey(file[i].id) in applied;
      }
      if applied == {} && DefaultKey !in actionable {
        return true, {};
      }
      var merged := MergeFile(config.selection.profiles, file);
      ok := SetProfiles(merged);
      if ok && DefaultKey in actionable {
        var resolved := ResolveDefaultProfileID(payload.defaultID, merged);
        if resolved != "" {
          config := config.(selection := config.selection.(defaultID := resolved));
          writes := writes + 1;
          applied := applied + {DefaultKey};
        }
      }
    }

    // Applies a file, hosts and keys first, then profiles, and reports the
    // changes that were made.
    method ApplyConfigImport(f: File) returns (ok: bool, report: seq<Change>)
      modifies this
      ensures config == Import(old(config), f).value && ok == Import(old(config), f).ok
      ensures ok ==> report == Reported(Preview(old(config), f).value, DefaultResolves(old(config), f))
      ensures cleared == old(cleared) + if f.version != EXPORT_VERSION || f.ssh.None? then [] else
        Moved(old(config).hosts, Actionable(old(config).hosts, Validated(f.ssh.value.hosts, HasHost)))
      ensures ok && ActionableKeys(Preview(old(config), f).value) == {} ==> writes == old(writes)
    {
      hide Merged, Validated, Stored, Moved, Actionable, Preview, ImportProfiles, ListImport, ActionableKeys, Hits, ProfileHits, Reported;
      report := [];
      var preview := PreviewConfigImport(f);
      if preview.None? {
        return false, [];
      }
      var changes := preview.value;
      var actionable := CollectActionable(changes);
      PreviewAgrees(config, f);
      var applied: set<Key> := {};
      if f.ssh.Some? {
        applied := ApplySSHHostsImport(f.ssh.value, actionable);
      }
      ok := true;
      if f.profiles.Some? {
        var more: set<Key>;
        ok, more := ApplyProfilesImport(f.profiles.value, actionable);
        applied := applied + more;
        if !ok {
          return;
        }
      }
      AppliedKeys(old(config), f);
      if actionable == {} {
        NothingApplied(old(config), f);
      }
      report := ReportOf(changes, applied, DefaultResolves(old(config), f));
    }
  }
}
