/** Projection of the replica's current records onto the local configuration, for
    a device that may hold the vault key or not. */
module Projection {
  import opened Wrappers
  import opened Widths
  import opened Entries
  import opened Profiles
  import opened ConfigImport
  import opened Positions
  import opened Records
  import opened Codec

  datatype KeyClass = SyncClass | VaultClass

  function ClassOf(c: Collection): KeyClass {
    if c == ProfileEnvs || c == Credentials || c == KeySecrets then VaultClass else SyncClass
  }

  // A winning record of the replica, sealed under one epoch of its class's key.
  datatype Winner = Winner(plain: PlainRecord, deleted: bool, epoch: nat)

  // The epoch keys a device holds, and whether it has a current vault key.
  datatype Keyring = Keyring(vault: bool, epochs: set<(KeyClass, nat)>)

  predicate CanOpen(k: Keyring, w: Winner) {
    (ClassOf(w.plain.collection), w.epoch) in k.epochs
  }

  // The records that can be opened and are not deleted.
  function Opened(k: Keyring, replica: seq<Winner>): seq<PlainRecord> {
    if replica == [] then []
    else
      var rest, w := Opened(k, replica[..|replica| - 1]), replica[|replica| - 1];
      if CanOpen(k, w) && !w.deleted then rest + [w.plain] else rest
  }

  predicate Found(k: Keyring, replica: seq<Winner>, cs: set<Collection>) {
    exists i :: 0 <= i < |replica| && replica[i].plain.collection in cs && CanOpen(k, replica[i])
  }

  // The winners of one collection, as the replica lists them.
  function WinnersOf(replica: seq<Winner>, c: Collection): seq<Winner> {
    if replica == [] then []
    else
      var rest, w := WinnersOf(replica[..|replica| - 1], c), replica[|replica| - 1];
      if w.plain.collection == c then rest + [w] else rest
  }

  lemma {:induction false} OpenedOf(k: Keyring, replica: seq<Winner>, c: Collection)
    ensures Opened(k, WinnersOf(replica, c)) == Of(Opened(k, replica), c)
  {
    if replica != [] {
      var init, w := replica[..|replica| - 1], replica[|replica| - 1];
      OpenedOf(k, init, c);
      var winners := WinnersOf(init, c);
      assert (winners + [w])[..|winners|] == winners;
      assert (Opened(k, init) + [w.plain])[..|Opened(k, init)|] == Opened(k, init);
    }
  }

  // Which key seals what: passwords, private keys and environments the vault key,
  // everything else the sync key.
  lemma ClassesAre(c: Collection)
    ensures ClassOf(c) == match c
      case ProfileList => SyncClass
      case ProfileConfig => SyncClass
      case HostList => SyncClass
      case KeyList => SyncClass
      case ProfileEnvs => VaultClass
      case Credentials => VaultClass
      case KeySecrets => VaultClass
  {
  }

  // The environment a projected profile gets.
  function ProjectedEnv(k: Keyring, local: seq<Profile>, p: Profile, environments: seq<PlainRecord>): Env {
    if !p.body.syncEnv || !k.vault then EnvOf(local, p.id) else EnvIn(Side(environments, p.id))
  }

  function Incoming(k: Keyring, local: seq<Profile>, listed: seq<PlainRecord>, environments: seq<PlainRecord>): seq<Profile>
    requires forall i :: 0 <= i < |listed| ==> listed[i].value.ProfileValue?
  {
    seq(|listed|, i requires 0 <= i < |listed| =>
      WithEnv(listed[i].value.profile, ProjectedEnv(k, local, listed[i].value.profile, environments)))
  }

  // The profiles of a readable replica that survive projection.
  ghost function KeptOf(local: Selection, k: Keyring, replica: seq<Winner>): seq<Profile>
    requires CheckedSet(Opened(k, replica)) && AllReadable(Opened(k, replica), PROFILE_COLLECTIONS)
  {
    var records := Opened(k, replica);
    SortReadable(records, ProfileList);
    Filtered(Incoming(k, local.profiles, Sort(Of(records, ProfileList)), Of(records, ProfileEnvs)), Named)
  }

  // The projected selection, or nothing when a record cannot be read.
  ghost function ProjectProfiles(local: Selection, k: Keyring, replica: seq<Winner>): Option<Selection>
    requires CheckedSet(Opened(k, replica))
  {
    var records := Opened(k, replica);
    if !Found(k, replica, PROFILE_COLLECTIONS) then Some(local)
    else if !AllReadable(records, PROFILE_COLLECTIONS) then None
    else
      var kept := KeptOf(local, k, replica);
      Some(Selection(kept, Resolve(DefaultOf(Of(records, ProfileConfig)), kept)))
  }

  datatype SSHLists = SSHLists(hosts: seq<Host>, keys: seq<SSHKey>)

  const SSH_METADATA := {HostList, KeyList}

  ghost function ProjectSSH(local: SSHLists, k: Keyring, replica: seq<Winner>): Option<SSHLists>
    requires CheckedSet(Opened(k, replica))
  {
    var records := Opened(k, replica);
    if !Found(k, replica, SSH_METADATA) then Some(local)
    else if !AllReadable(records, SSH_METADATA) then None
    else
      SortReadable(records, HostList);
      SortReadable(records, KeyList);
      var hosts, keys := Sort(Of(records, HostList)), Sort(Of(records, KeyList));
      Some(SSHLists(seq(|hosts|, i requires 0 <= i < |hosts| => hosts[i].value.host),
                    seq(|keys|, i requires 0 <= i < |keys| => keys[i].value.key)))
  }

  // What a device writes for its own lists.

  function LocalProfileRecords(local: Selection): seq<PlainRecord> {
    var kept := Filtered(local.profiles, Named);
    Itemized(ProfileItems(kept)) + if |kept| == 0 then [] else [ConfigRecord(Resolve(local.defaultID, kept))]
  }

  function NoSecrets(local: SSHLists): Bundle {
    Bundle(seq(|local.hosts|, i requires 0 <= i < |local.hosts| => SealedHost(local.hosts[i], "")),
           seq(|local.keys|, i requires 0 <= i < |local.keys| => SealedKey(local.keys[i], "", "")))
  }

  function LocalSSHRecords(local: SSHLists): seq<PlainRecord> {
    DecodeSSH(NoSecrets(local))
  }

  // The records a device writes for its own profiles: those of the valid ones, and
  // the default exactly when there are any.
  lemma LocalRecordsExactly(local: Selection, r: PlainRecord)
    ensures var kept := Filtered(local.profiles, Named);
      r in LocalProfileRecords(local) <==>
        (kept != [] && r == PlainRecord(ProfileConfig, "default", "", DefaultValue(Resolve(local.defaultID, kept)))) || RecordOf(r, kept)
  {
    hide Itemized, Filtered, RecordOf, Resolve;
    ProfileRecordsExactly(Filtered(local.profiles, Named), r);
  }

  // So no environment is sealed under the sync key, and none of a profile that is
  // not opted in is sealed at all.
  lemma PrivateEnvStays(local: Selection, r: PlainRecord)
    requires r in LocalProfileRecords(local)
    ensures ClassOf(r.collection) == SyncClass ==>
      !r.value.EnvValue? && (r.value.ProfileValue? ==> r.value.profile.body.env == map[])
    ensures r.value.EnvValue? ==>
      exists p :: p in local.profiles && p.id == r.recordID && p.body.syncEnv && p.body.env == r.value.env
  {
    hide Filtered, Resolve, LocalProfileRecords, PositionForIndex;
    var kept := Filtered(local.profiles, Named);
    LocalRecordsExactly(local, r);
    if i :| 0 <= i < |kept| && (BareRecord(r, kept, i) || EnvRecord(r, kept[i])) {
      FilteredMembers(local.profiles, kept[i]);
    }
  }

  // A live record that the device can open, of a profile that is this one but for
  // the environment.
  predicate Carries(k: Keyring, w: Winner, p: Profile) {
    && !w.deleted && CanOpen(k, w) && w.plain.collection == ProfileList && w.plain.recordID == p.id
    && w.plain.value.ProfileValue? && w.plain.value.profile == p.(body := p.body.(env := w.plain.value.profile.body.env))
  }

  // Any replica: whatever is projected comes from such a record.
  lemma ProjectedFrom(local: Selection, k: Keyring, replica: seq<Winner>, p: Profile)
    requires CheckedSet(Opened(k, replica)) && Found(k, replica, PROFILE_COLLECTIONS)
    requires var r := ProjectProfiles(local, k, replica); r.Some? && p in r.value.profiles
    ensures exists i :: 0 <= i < |replica| && Carries(k, replica[i], p)
  {
    hide Sort, Of, CheckedSet, Found, AllReadable, Side, CanOpen;
    var records := Opened(k, replica);
    SortReadable(records, ProfileList);
    var listed := Sort(Of(records, ProfileList));
    ReadableIn(records, PROFILE_COLLECTIONS, listed);
    var incoming := Incoming(k, local.profiles, listed, Of(records, ProfileEnvs));
    FilteredMembers(incoming, p);
    var n :| 0 <= n < |incoming| && incoming[n] == p;
    OpenedMembers(k, replica);
    RecordIsItsOwn(records, listed[n]);
    var i :| 0 <= i < |replica| && replica[i].plain == listed[n] && CanOpen(k, replica[i]) && !replica[i].deleted;
    assert Carries(k, replica[i], p);
  }

  lemma RecordIsItsOwn(records: seq<PlainRecord>, r: PlainRecord)
    requires CheckedSet(records) && r in records && r.collection == ProfileList && r.value.ProfileValue?
    ensures r.value.profile.id == r.recordID
  {
    var i :| 0 <= i < |records| && records[i] == r;
    assert Checked(records[i]);
  }

  // And every valid profile that such a record carries is projected, or another
  // one whose ID differs in white space only.
  lemma ProjectsAll(local: Selection, k: Keyring, replica: seq<Winner>, i: nat)
    requires CheckedSet(Opened(k, replica)) && ProjectProfiles(local, k, replica).Some?
    requires i < |replica| && !replica[i].deleted && CanOpen(k, replica[i]) && replica[i].plain.collection == ProfileList
    ensures replica[i].plain.value.ProfileValue?
    ensures var p := replica[i].plain.value.profile;
      Trim(p.id) != "" && Trim(p.body.name) != "" ==> Trim(p.id) in TrimmedIds(ProjectProfiles(local, k, replica).value.profiles)
  {
    hide Sort, Of, CheckedSet, Side, CanOpen, Trim;
    var records, w := Opened(k, replica), replica[i].plain;
    OpenedMembers(k, replica);
    OfMembers(records, ProfileList);
    SortReadable(records, ProfileList);
    OfApart(records, ProfileList);
    SortIs(Of(records, ProfileList));
    assert w in records && w in Of(records, ProfileList);
    var n :| 0 <= n < |records| && records[n] == w;
    var m :| 0 <= m < |Of(records, ProfileList)| && Of(records, ProfileList)[m] == w;
    var listed := Sort(Of(records, ProfileList));
    MemberOf(Of(records, ProfileList), listed, m);
    var j :| 0 <= j < |listed| && listed[j] == w;
    ReadableIn(records, PROFILE_COLLECTIONS, listed);
    var incoming := Incoming(k, local.profiles, listed, Of(records, ProfileEnvs));
    if Trim(w.value.profile.id) != "" && Trim(w.value.profile.body.name) != "" {
      FilteredKeepsIds(incoming, Named, j);
    }
  }

  // Hosts and keys are projected exactly from such records.
  lemma SSHProjectedExactly(local: SSHLists, k: Keyring, replica: seq<Winner>, h: Host, key: SSHKey)
    requires CheckedSet(Opened(k, replica)) && Found(k, replica, SSH_METADATA) && ProjectSSH(local, k, replica).Some?
    ensures h in ProjectSSH(local, k, replica).value.hosts <==> CarriedBy(k, replica, HostList, HostValue(h))
    ensures key in ProjectSSH(local, k, replica).value.keys <==> CarriedBy(k, replica, KeyList, KeyValue(key))
  {
    hide Sort, Of, CheckedSet, CarriedBy;
    var hosts, keys := Sort(Of(Opened(k, replica), HostList)), Sort(Of(Opened(k, replica), KeyList));
    SortReadable(Opened(k, replica), HostList);
    SortReadable(Opened(k, replica), KeyList);
    SortedCarries(k, replica, HostList, HostValue(h));
    SortedCarries(k, replica, KeyList, KeyValue(key));
    ReadableIn(Opened(k, replica), SSH_METADATA, hosts);
    ReadableIn(Opened(k, replica), SSH_METADATA, keys);
    hide Opened;
    var r := ProjectSSH(local, k, replica).value;
    assert |r.hosts| == |hosts| && forall i :: 0 <= i < |hosts| ==> hosts[i].value == HostValue(r.hosts[i]);
    assert |r.keys| == |keys| && forall i :: 0 <= i < |keys| ==> keys[i].value == KeyValue(r.keys[i]);
    HostIn(hosts, r.hosts, h);
    KeyIn(keys, r.keys, key);
    hide ProjectSSH, HasValue;
  }

  lemma HostIn(s: seq<PlainRecord>, hosts: seq<Host>, h: Host)
    requires |hosts| == |s| && forall i :: 0 <= i < |s| ==> s[i].value == HostValue(hosts[i])
    ensures h in hosts <==> HasValue(s, HostValue(h))
  {
    if i :| 0 <= i < |hosts| && hosts[i] == h {
      assert s[i].value == HostValue(h);
    }
  }

  lemma KeyIn(s: seq<PlainRecord>, keys: seq<SSHKey>, key: SSHKey)
    requires |keys| == |s| && forall i :: 0 <= i < |s| ==> s[i].value == KeyValue(keys[i])
    ensures key in keys <==> HasValue(s, KeyValue(key))
  {
    if i :| 0 <= i < |keys| && keys[i] == key {
      assert s[i].value == KeyValue(key);
    }
  }

  predicate CarriedBy(k: Keyring, replica: seq<Winner>, c: Collection, v: Value) {
    exists i :: 0 <= i < |replica| && !replica[i].deleted && CanOpen(k, replica[i])
                && replica[i].plain.collection == c && replica[i].plain.value == v
  }

  predicate HasValue(s: seq<PlainRecord>, v: Value) {
    exists i :: 0 <= i < |s| && s[i].value == v
  }

  lemma SortedCarries(k: Keyring, replica: seq<Winner>, c: Collection, v: Value)
    requires CheckedSet(Opened(k, replica)) && Listed(c)
    ensures HasValue(Sort(Of(Opened(k, replica), c)), v) <==> CarriedBy(k, replica, c, v)
  {
    hide Sort, Of, CheckedSet, Opened, CanOpen;
    var records := Opened(k, replica);
    var of, listed := Of(records, c), Sort(Of(records, c));
    SortReadable(records, c);
    OfApart(records, c);
    SortIs(of);
    OfMembers(records, c);
    OpenedMembers(k, replica);
    if i :| 0 <= i < |listed| && listed[i].value == v {
      assert listed[i] in records && listed[i].collection == c;
      var j :| 0 <= j < |replica| && replica[j].plain == listed[i] && CanOpen(k, replica[j]) && !replica[j].deleted;
      assert !replica[j].deleted && CanOpen(k, replica[j]) && replica[j].plain.collection == c && replica[j].plain.value == v;
      assert CarriedBy(k, replica, c, v);
    } else if i :| 0 <= i < |replica| && !replica[i].deleted && CanOpen(k, replica[i]) && replica[i].plain.collection == c && replica[i].plain.value == v {
      var m :| 0 <= m < |of| && of[m] == replica[i].plain;
      MemberOf(of, listed, m);
    }
  }

  // A tombstone that can be opened is found too: if nothing else is, the local
  // profiles, or the hosts and keys, are cleared.
  lemma TombstonesClear(local: Selection, ssh: SSHLists, k: Keyring, replica: seq<Winner>, i: nat)
    requires i < |replica| && CanOpen(k, replica[i]) && forall j :: 0 <= j < |replica| ==> replica[j].deleted
    ensures Opened(k, replica) == []
    ensures replica[i].plain.collection in PROFILE_COLLECTIONS ==> ProjectProfiles(local, k, replica) == Some(Selection([], ""))
    ensures replica[i].plain.collection in SSH_METADATA ==> ProjectSSH(ssh, k, replica) == Some(SSHLists([], []))
  {
    NoneOpened(k, replica);
    hide CanOpen;
    assert Of([], ProfileList) == [] && Of([], HostList) == [] && Of([], KeyList) == [] && Sort([]) == [];
    if replica[i].plain.collection in SSH_METADATA {
      ProjectSSHIs(ssh, k, replica, [], []);
    }
  }

  lemma {:induction false} NoneOpened(k: Keyring, replica: seq<Winner>)
    requires forall j :: 0 <= j < |replica| ==> replica[j].deleted
    ensures Opened(k, replica) == []
  {
    if replica != [] {
      NoneOpened(k, replica[..|replica| - 1]);
    }
  }

  // A replica that holds exactly these records, each sealed under some epoch.
  predicate Holds(replica: seq<Winner>, records: seq<PlainRecord>) {
    |replica| == |records| && forall i :: 0 <= i < |replica| ==> replica[i].plain == records[i] && !replica[i].deleted
  }

  // Whether the replica has a record that the device cannot open.
  predicate Hidden(k: Keyring, replica: seq<Winner>, c: Collection, id: string) {
    exists i :: 0 <= i < |replica| && replica[i].plain.collection == c && replica[i].plain.recordID == id && !CanOpen(k, replica[i])
  }

  // The records that are not hidden.
  function Visible(k: Keyring, replica: seq<Winner>, records: seq<PlainRecord>): seq<PlainRecord> {
    if records == [] then []
    else
      var rest, r := Visible(k, replica, records[..|records| - 1]), records[|records| - 1];
      if Hidden(k, replica, r.collection, r.recordID) then rest else rest + [r]
  }

  // The entries of a list whose records are not hidden.
  function Left<T>(k: Keyring, replica: seq<Winner>, c: Collection, s: seq<Entry<T>>): seq<Entry<T>> {
    if s == [] then []
    else
      var rest, e := Left(k, replica, c, s[..|s| - 1]), s[|s| - 1];
      if Hidden(k, replica, c, e.id) then rest else rest + [e]
  }

  lemma {:induction false} OpenedMembers(k: Keyring, replica: seq<Winner>)
    ensures forall r :: r in Opened(k, replica) <==> exists i :: 0 <= i < |replica| && replica[i].plain == r && CanOpen(k, replica[i]) && !replica[i].deleted
  {
    if replica != [] {
      var init := replica[..|replica| - 1];
      OpenedMembers(k, init);
      forall r | r in Opened(k, replica)
        ensures exists i :: 0 <= i < |replica| && replica[i].plain == r && CanOpen(k, replica[i]) && !replica[i].deleted
      {
        if r in Opened(k, init) {
          var i :| 0 <= i < |init| && init[i].plain == r && CanOpen(k, init[i]) && !init[i].deleted;
          assert replica[i] == init[i];
        }
      }
      forall i | 0 <= i < |replica| && CanOpen(k, replica[i]) && !replica[i].deleted
        ensures replica[i].plain in Opened(k, replica)
      {
        if i < |init| {
          assert init[i] == replica[i];
        }
      }
    }
  }

  lemma HiddenAt(k: Keyring, replica: seq<Winner>, records: seq<PlainRecord>, i: nat)
    requires Holds(replica, records) && CheckedSet(records) && i < |records|
    ensures Hidden(k, replica, records[i].collection, records[i].recordID) <==> !CanOpen(k, replica[i])
  {
    hide CanOpen;
    forall j | 0 <= j < |replica| && SameKey(replica[j].plain, records[i])
      ensures j == i
    {
      assert SameKey(records[i], records[j]);
    }
  }

  lemma {:induction false} OpenedIsVisible(k: Keyring, replica: seq<Winner>, records: seq<PlainRecord>, n: nat)
    requires Holds(replica, records) && CheckedSet(records) && n <= |records|
    ensures Opened(k, replica[..n]) == Visible(k, replica, records[..n])
  {
    hide CanOpen, Hidden, CheckedSet;
    if n > 0 {
      OpenedIsVisible(k, replica, records, n - 1);
      HiddenAt(k, replica, records, n - 1);
      assert replica[..n][..n - 1] == replica[..n - 1] && records[..n][..n - 1] == records[..n - 1];
    }
  }

  lemma {:induction false} VisibleOf(k: Keyring, replica: seq<Winner>, records: seq<PlainRecord>, c: Collection)
    ensures Of(Visible(k, replica, records), c) == Visible(k, replica, Of(records, c))
  {
    hide Hidden;
    if records != [] {
      var init, r := records[..|records| - 1], records[|records| - 1];
      VisibleOf(k, replica, init, c);
      assert (Visible(k, replica, init) + [r])[..|Visible(k, replica, init)|] == Visible(k, replica, init);
      assert (Of(init, c) + [r])[..|Of(init, c)|] == Of(init, c);
    }
  }

  // One collection of what a device opens.
  lemma OpenedHolds(k: Keyring, replica: seq<Winner>, records: seq<PlainRecord>, c: Collection)
    requires Holds(replica, records) && CheckedSet(records)
    ensures Of(Opened(k, replica), c) == Visible(k, replica, Of(records, c))
  {
    OpenedIsVisible(k, replica, records, |records|);
    assert replica[..|records|] == replica && records[..|records|] == records;
    VisibleOf(k, replica, records, c);
  }

  lemma {:induction false} VisibleSide(k: Keyring, replica: seq<Winner>, s: seq<PlainRecord>, c: Collection, id: string)
    requires forall i :: 0 <= i < |s| ==> s[i].collection == c
    ensures Side(Visible(k, replica, s), id) == if Hidden(k, replica, c, id) then None else Side(s, id)
  {
    hide Hidden;
    if s != [] {
      var init := s[..|s| - 1];
      VisibleSide(k, replica, init, c, id);
      assert (Visible(k, replica, init) + [s[|s| - 1]])[..|Visible(k, replica, init)|] == Visible(k, replica, init);
    }
  }

  lemma {:induction false} VisibleSorted(k: Keyring, replica: seq<Winner>, s: seq<PlainRecord>)
    requires Orderable(s) && Sorted(s)
    ensures forall r :: r in Visible(k, replica, s) ==> r in s
    ensures Orderable(Visible(k, replica, s)) && Sorted(Visible(k, replica, s))
  {
    hide Hidden, Before, ValidPosition, EntityID;
    if s != [] {
      var init, r := s[..|s| - 1], s[|s| - 1];
      VisibleSorted(k, replica, init);
      var v := Visible(k, replica, init);
      forall i | 0 <= i < |v|
        ensures Before(v[i], r) && EntityID(v[i].value) != EntityID(r.value)
      {
        assert v[i] in v;
        var j :| 0 <= j < |init| && init[j] == v[i];
        assert s[j] == init[j];
      }
      assert ValidPosition(s[|s| - 1].position);
    }
  }

  lemma {:induction false} LeftMembers<T>(k: Keyring, replica: seq<Winner>, c: Collection, s: seq<Entry<T>>)
    ensures forall i :: 0 <= i < |Left(k, replica, c, s)| ==> Left(k, replica, c, s)[i] in s && !Hidden(k, replica, c, Left(k, replica, c, s)[i].id)
  {
    hide Hidden;
    if s != [] {
      LeftMembers(k, replica, c, s[..|s| - 1]);
    }
  }

  lemma {:induction false} LeftExactly<T>(k: Keyring, replica: seq<Winner>, c: Collection, s: seq<Entry<T>>)
    ensures |Left(k, replica, c, s)| <= |s|
    ensures Left(k, replica, c, s) == s <==> |Left(k, replica, c, s)| == |s|
    ensures Left(k, replica, c, s) == s <==> forall i :: 0 <= i < |s| ==> !Hidden(k, replica, c, s[i].id)
  {
    hide Hidden;
    if s != [] {
      LeftExactly(k, replica, c, s[..|s| - 1]);
      assert s == s[..|s| - 1] + [s[|s| - 1]];
    }
  }

  lemma LeftApart<T>(k: Keyring, replica: seq<Winner>, c: Collection, s: seq<Entry<T>>, named: T -> bool)
    requires Stored(s, named) && s != []
    ensures Trim(s[|s| - 1].id) !in TrimmedIds(Left(k, replica, c, s[..|s| - 1]))
  {
    hide Trim, Hidden, Acceptable, Left;
    var init := s[..|s| - 1];
    var rest := Left(k, replica, c, init);
    LeftMembers(k, replica, c, init);
    forall i | 0 <= i < |rest|
      ensures Trim(rest[i].id) != Trim(s[|s| - 1].id)
    {
      assert rest[i] in init;
      var j :| 0 <= j < |init| && init[j] == rest[i];
      assert s[j] == init[j];
    }
  }

  lemma {:induction false} LeftStored<T>(k: Keyring, replica: seq<Winner>, c: Collection, s: seq<Entry<T>>, named: T -> bool)
    requires Stored(s, named)
    ensures Stored(Left(k, replica, c, s), named)
  {
    hide Hidden, Trim, Acceptable, TrimmedIds;
    if s != [] {
      var init, e := s[..|s| - 1], s[|s| - 1];
      assert Stored(init, named) && Acceptable(e, named);
      LeftApart(k, replica, c, s, named);
      hide Stored;
      LeftStored(k, replica, c, init, named);
      StoredSnoc(Left(k, replica, c, init), e, named);
    }
  }

  // The records of a written list that are visible are those of the entries left.
  lemma {:induction false} VisibleListed<T>(k: Keyring, replica: seq<Winner>, c: Collection, items: seq<Item>, s: seq<Entry<T>>, value: Entry<T> -> Value)
    requires |items| == |s|
    requires forall i :: 0 <= i < |s| ==>
      items[i].listed.collection == c && items[i].listed.recordID == s[i].id && items[i].listed.value == value(s[i])
    ensures var v, left := Visible(k, replica, ListedOf(items)), Left(k, replica, c, s);
      |v| == |left| && forall i :: 0 <= i < |v| ==> v[i].collection == c && v[i].value == value(left[i])
  {
    hide Hidden;
    if s != [] {
      var init := items[..|items| - 1];
      VisibleListed(k, replica, c, init, s[..|s| - 1], value);
      assert ListedOf(items)[..|items| - 1] == ListedOf(init);
    }
  }

  // Opening keeps each collection's records apart and checked.
  lemma {:induction false} OpenedChecked(k: Keyring, replica: seq<Winner>, records: seq<PlainRecord>)
    requires Holds(replica, records) && CheckedSet(records)
    ensures CheckedSet(Opened(k, replica))
  {
    if replica != [] {
      var init, w := replica[..|replica| - 1], replica[|replica| - 1];
      OpenedChecked(k, init, records[..|records| - 1]);
      if CanOpen(k, w) && !w.deleted {
        OpenedMembers(k, init);
        var before := Opened(k, init);
        forall i | 0 <= i < |before|
          ensures !SameKey(before[i], w.plain)
        {
          assert before[i] in before;
          var j :| 0 <= j < |init| && init[j].plain == before[i];
          assert records[j] == before[i] && records[|records| - 1] == w.plain;
        }
        CheckedSnoc(before, w.plain);
      }
    }
  }

  // Keeping what is private: without the vault key, or for a profile that is not
  // opted in, whatever the replica holds, every surviving ID keeps its local
  // environment.
  lemma LocalEnvKept(local: Selection, k: Keyring, replica: seq<Winner>, p: Profile)
    requires CheckedSet(Opened(k, replica)) && Found(k, replica, PROFILE_COLLECTIONS)
    requires var r := ProjectProfiles(local, k, replica); r.Some? && p in r.value.profiles
    ensures !k.vault || !p.body.syncEnv ==> p.body.env == EnvOf(local.profiles, p.id)
    ensures k.vault && p.body.syncEnv ==> p.body.env == EnvIn(Side(Of(Opened(k, replica), ProfileEnvs), p.id))
  {
    hide Sort, Of, CheckedSet, Found, AllReadable, Side;
    var records := Opened(k, replica);
    SortReadable(records, ProfileList);
    var listed := Sort(Of(records, ProfileList));
    ReadableIn(records, PROFILE_COLLECTIONS, listed);
    var incoming := Incoming(k, local.profiles, listed, Of(records, ProfileEnvs));
    FilteredMembers(incoming, p);
  }

  lemma {:induction false} FilteredMembers(s: seq<Profile>, p: Profile)
    requires p in Filtered(s, Named)
    ensures p in s
  {
    if s != [] && p in Filtered(s[..|s| - 1], Named) {
      FilteredMembers(s[..|s| - 1], p);
    }
  }

  predicate Sized(local: Selection) {
    Stored(local.profiles, Named) && |local.profiles| <= TWO_TO_THE_64
  }

  lemma LocalRecordsAre(local: Selection)
    requires Sized(local)
    ensures var config := if local.profiles == [] then [] else [ConfigRecord(Resolve(local.defaultID, local.profiles))];
      OneConfig(config) && LocalProfileRecords(local) == Itemized(ProfileItems(local.profiles)) + config
    ensures CheckedSet(LocalProfileRecords(local)) && Distinct(local.profiles)
  {
    hide Itemized, CheckedSet;
    FilteredKeeps(local.profiles, Named);
    StoredDistinct(local.profiles);
    ProfileRecordsChecked(local.profiles, if local.profiles == [] then [] else [ConfigRecord(Resolve(local.defaultID, local.profiles))]);
  }

  lemma OwnRecordsChecked(local: Selection, k: Keyring, replica: seq<Winner>)
    requires Sized(local) && Holds(replica, LocalProfileRecords(local))
    ensures CheckedSet(Opened(k, replica))
  {
    LocalRecordsAre(local);
    OpenedChecked(k, replica, LocalProfileRecords(local));
  }

  // One of the device's own profiles after projection.
  function OwnProjected(k: Keyring, replica: seq<Winner>, p: Profile): Profile {
    if k.vault && p.body.syncEnv && Hidden(k, replica, ProfileEnvs, p.id) then WithEnv(p, map[]) else p
  }

  // What a device projects from the records it wrote for its own profiles: all
  // of them if it can open none of the records, else those it can open.
  function OwnLeft(local: Selection, k: Keyring, replica: seq<Winner>): Selection {
    if !Found(k, replica, PROFILE_COLLECTIONS) then local
    else
      var left := Left(k, replica, ProfileList, local.profiles);
      Selection(seq(|left|, i requires 0 <= i < |left| => OwnProjected(k, replica, left[i])),
                if Hidden(k, replica, ProfileConfig, CONFIG_ID) then "" else Resolve(local.defaultID, left))
  }

  lemma OwnReads(local: Selection, k: Keyring, replica: seq<Winner>)
    requires Sized(local) && Holds(replica, LocalProfileRecords(local)) && local.profiles != []
    ensures var records := Opened(k, replica);
      && CheckedSet(records) && AllReadable(records, PROFILE_COLLECTIONS)
      && Sort(Of(records, ProfileList)) == Visible(k, replica, ListedOf(ProfileItems(local.profiles)))
      && DefaultOf(Of(records, ProfileConfig))
         == if Hidden(k, replica, ProfileConfig, CONFIG_ID) then "" else Resolve(local.defaultID, local.profiles)
  {
    hide Sort, Of, Itemized, CheckedSet, Opened, Hidden, Stored, Resolve, LocalProfileRecords, Visible, ProfileItems, ListedOf, AllReadable, DefaultOf;
    var all, records := LocalProfileRecords(local), Opened(k, replica);
    var config := [ConfigRecord(Resolve(local.defaultID, local.profiles))];
    LocalRecordsAre(local);
    OwnRecordsChecked(local, k, replica);
    ProfileRecordsChecked(local.profiles, config);
    ProfileRecordsRead(local.profiles, config);
    hide Holds, Distinct;
    OpenedHolds(k, replica, all, ProfileList);
    OpenedHolds(k, replica, all, ProfileConfig);
    OwnReadable(k, replica, all, PROFILE_COLLECTIONS);
    OwnListed(local, k, replica);
    OwnDefault(k, replica, Resolve(local.defaultID, local.profiles));
  }

  lemma OwnDefault(k: Keyring, replica: seq<Winner>, id: string)
    ensures DefaultOf(Visible(k, replica, [ConfigRecord(id)])) == if Hidden(k, replica, ProfileConfig, CONFIG_ID) then "" else id
  {
    hide Hidden;
    var config := [ConfigRecord(id)];
    assert config[..0] == [] && Visible(k, replica, config[..0]) == [];
  }

  lemma NothingToFind(local: Selection, k: Keyring, replica: seq<Winner>)
    requires Holds(replica, LocalProfileRecords(local)) && local.profiles == []
    ensures !Found(k, replica, PROFILE_COLLECTIONS)
  {
  }

  // The list records, written in order, are read back in order.
  lemma OwnListed(local: Selection, k: Keyring, replica: seq<Winner>)
    requires Sized(local)
    ensures var v := Visible(k, replica, ListedOf(ProfileItems(local.profiles))); Sort(v) == v
  {
    StoredDistinct(local.profiles);
    ProfilesWritten(local.profiles);
    hide PositionForIndex, Hidden, Stored, Written, ProfileItems, Sort, Visible;
    WrittenRead(k, replica, ProfileItems(local.profiles), ProfileList, ProfileEnvs);
  }

  lemma WrittenRead(k: Keyring, replica: seq<Winner>, items: seq<Item>, c: Collection, d: Collection)
    requires Written(items, c, d)
    ensures Sort(Visible(k, replica, ListedOf(items))) == Visible(k, replica, ListedOf(items))
  {
    var listed := ListedOf(items);
    WrittenSorted(items, c, d);
    hide Written, Visible, Orderable, Sorted;
    SortIs(listed);
    VisibleSorted(k, replica, listed);
    SortedOrderable(Visible(k, replica, listed));
  }

  lemma OwnReadable(k: Keyring, replica: seq<Winner>, records: seq<PlainRecord>, cs: set<Collection>)
    requires Holds(replica, records) && AllReadable(records, cs)
    ensures AllReadable(Opened(k, replica), cs)
  {
    var plains := Opened(k, replica);
    OpenedMembers(k, replica);
    forall i | 0 <= i < |plains| && plains[i].collection in cs
      ensures Readable(plains[i])
    {
      assert plains[i] in plains;
      var j :| 0 <= j < |replica| && replica[j].plain == plains[i];
      assert records[j] == plains[i];
    }
  }

  lemma OwnEnv(local: Selection, k: Keyring, replica: seq<Winner>, p: Profile)
    requires Sized(local) && Holds(replica, LocalProfileRecords(local)) && p in local.profiles
    ensures WithEnv(p, ProjectedEnv(k, local.profiles, WithEnv(p, map[]), Of(Opened(k, replica), ProfileEnvs))) == OwnProjected(k, replica, p)
  {
    hide Of, Itemized, CheckedSet, Opened, Side, Hidden, Stored, Resolve;
    var i :| 0 <= i < |local.profiles| && local.profiles[i] == p;
    var config, all := [ConfigRecord(Resolve(local.defaultID, local.profiles))], LocalProfileRecords(local);
    LocalRecordsAre(local);
    ProfileRecordsRead(local.profiles, config);
    hide LocalProfileRecords, Sort, ListedOf, ProfileItems;
    IndexIs(local.profiles, i);
    OpenedHolds(k, replica, all, ProfileEnvs);
    OfMembers(all, ProfileEnvs);
    VisibleSide(k, replica, Of(all, ProfileEnvs), ProfileEnvs, p.id);
  }

  lemma OwnIncomingIs(local: Selection, k: Keyring, replica: seq<Winner>)
    requires Sized(local) && Holds(replica, LocalProfileRecords(local)) && Found(k, replica, PROFILE_COLLECTIONS)
    ensures var v := Visible(k, replica, ListedOf(ProfileItems(local.profiles)));
      && (forall i :: 0 <= i < |v| ==> v[i].value.ProfileValue?)
      && Incoming(k, local.profiles, v, Of(Opened(k, replica), ProfileEnvs)) == OwnLeft(local, k, replica).profiles
      && Filtered(OwnLeft(local, k, replica).profiles, Named) == OwnLeft(local, k, replica).profiles
      && Ids(OwnLeft(local, k, replica).profiles) == Ids(Left(k, replica, ProfileList, local.profiles))
  {
    hide Of, Opened, LocalProfileRecords, Holds, Filtered, Stored, Hidden, Visible, Left, Found, Ids, Resolve, PositionForIndex, ProjectedEnv;
    var left := Left(k, replica, ProfileList, local.profiles);
    VisibleListed(k, replica, ProfileList, ProfileItems(local.profiles), local.profiles, (p: Profile) => ProfileValue(WithEnv(p, map[])));
    LeftMembers(k, replica, ProfileList, local.profiles);
    forall i | 0 <= i < |left|
      ensures WithEnv(left[i], ProjectedEnv(k, local.profiles, WithEnv(left[i], map[]), Of(Opened(k, replica), ProfileEnvs))) == OwnProjected(k, replica, left[i])
    {
      assert left[i] in left;
      OwnEnv(local, k, replica, left[i]);
    }
    LeftStored(k, replica, ProfileList, local.profiles, Named);
    assert Alike(left, OwnLeft(local, k, replica).profiles);
    AlikeStored(left, OwnLeft(local, k, replica).profiles);
    AlikeIds(left, OwnLeft(local, k, replica).profiles);
  }

  lemma LeftResolves(k: Keyring, replica: seq<Winner>, c: Collection, ps: seq<Profile>, id: string)
    ensures Resolve(Resolve(id, ps), Left(k, replica, c, ps)) == Resolve(id, Left(k, replica, c, ps))
  {
    hide Hidden, Left;
    var left := Left(k, replica, c, ps);
    LeftMembers(k, replica, c, ps);
    if i :| 0 <= i < |left| && left[i].id == id {
      assert left[i] in left;
      assert left[i].id in Ids(ps);
    }
  }

  // Projecting the records a device wrote for its own profiles, under whatever
  // epochs they were sealed.
  lemma OwnProfilesProject(local: Selection, k: Keyring, replica: seq<Winner>)
    requires Sized(local) && Holds(replica, LocalProfileRecords(local))
    ensures CheckedSet(Opened(k, replica)) && ProjectProfiles(local, k, replica) == Some(OwnLeft(local, k, replica))
  {
    hide Sort, Of, CheckedSet, Opened, AllReadable, LocalProfileRecords, Holds, Found, OwnProjected, Filtered, Stored, Ids, Incoming, Visible, Hidden, Left;
    OwnRecordsChecked(local, k, replica);
    if local.profiles == [] {
      NothingToFind(local, k, replica);
    } else if Found(k, replica, PROFILE_COLLECTIONS) {
      OwnReads(local, k, replica);
      OwnIncomingIs(local, k, replica);
      LeftResolves(k, replica, ProfileList, local.profiles, local.defaultID);
      assert KeptOf(local, k, replica) == OwnLeft(local, k, replica).profiles;
    }
  }

  // It is the identity exactly when none of the records can be opened, or when
  // every profile's record can, the default is kept, and the device has no vault
  // key or can open every environment record.
  lemma OwnProfilesIdentityExactly(local: Selection, k: Keyring, replica: seq<Winner>)
    requires Sized(local) && Holds(replica, LocalProfileRecords(local)) && CheckedSet(Opened(k, replica))
    ensures ProjectProfiles(local, k, replica) == Some(local) <==>
      !Found(k, replica, PROFILE_COLLECTIONS) || (
        && (forall i :: 0 <= i < |local.profiles| ==> !Hidden(k, replica, ProfileList, local.profiles[i].id))
        && (if Hidden(k, replica, ProfileConfig, CONFIG_ID) then local.defaultID == "" else Resolved(local))
        && !(k.vault && exists i :: 0 <= i < |local.profiles| && local.profiles[i].body.syncEnv
                                     && local.profiles[i].body.env != map[] && Hidden(k, replica, ProfileEnvs, local.profiles[i].id)))
  {
    hide ProjectProfiles, Hidden, Holds, Stored, Left, Found;
    OwnProfilesProject(local, k, replica);
    LeftExactly(k, replica, ProfileList, local.profiles);
    if Found(k, replica, PROFILE_COLLECTIONS) && Left(k, replica, ProfileList, local.profiles) == local.profiles {
      var r := OwnLeft(local, k, replica);
      if i :| 0 <= i < |local.profiles| && r.profiles[i] != local.profiles[i] {
        assert local.profiles[i].body.env != map[];
      } else {
        assert r.profiles == local.profiles;
      }
    }
  }

  // A profile whose record is hidden is gone as soon as anything else is found.
  lemma HiddenProfileVanishes(local: Selection, k: Keyring, replica: seq<Winner>, id: string)
    requires Sized(local) && Holds(replica, LocalProfileRecords(local))
    requires Found(k, replica, PROFILE_COLLECTIONS) && Hidden(k, replica, ProfileList, id)
    ensures CheckedSet(Opened(k, replica))
    ensures ProjectProfiles(local, k, replica).Some? && id !in Ids(ProjectProfiles(local, k, replica).value.profiles)
  {
    hide ProjectProfiles, Hidden, Holds, Stored, Left, Found;
    OwnProfilesProject(local, k, replica);
    LeftMembers(k, replica, ProfileList, local.profiles);
    var left, ps := Left(k, replica, ProfileList, local.profiles), OwnLeft(local, k, replica).profiles;
    forall i | 0 <= i < |ps|
      ensures ps[i].id != id
    {
      assert left[i] in left;
    }
  }

  // Records sealed under one epoch of each class.
  function SealedAt(records: seq<PlainRecord>, syncEpoch: nat, vaultEpoch: nat): seq<Winner> {
    seq(|records|, i requires 0 <= i < |records| =>
      Winner(records[i], false, if ClassOf(records[i].collection) == SyncClass then syncEpoch else vaultEpoch))
  }

  lemma EnvRecordIn(local: Selection, i: nat) returns (j: nat)
    requires Sized(local) && i < |local.profiles| && local.profiles[i].body.syncEnv && local.profiles[i].body.env != map[]
    ensures var records := LocalProfileRecords(local);
      j < |records| && records[j].collection == ProfileEnvs && records[j].recordID == local.profiles[i].id
  {
    hide Itemized, LocalProfileRecords, PositionForIndex, Stored, CheckedSet;
    var items, records := ProfileItems(local.profiles), LocalProfileRecords(local);
    LocalRecordsAre(local);
    SideIn(items, i);
    assert items[i].side.value in records;
    j :| 0 <= j < |records| && records[j] == items[i].side.value;
  }

  lemma ConfigFound(local: Selection, k: Keyring, replica: seq<Winner>)
    requires Sized(local) && local.profiles != [] && Holds(replica, LocalProfileRecords(local))
    requires CanOpen(k, replica[|replica| - 1])
    ensures Found(k, replica, PROFILE_COLLECTIONS)
  {
    LocalRecordsAre(local);
    hide Itemized, LocalProfileRecords;
    assert replica[|replica| - 1].plain.collection == ProfileConfig;
  }

  lemma SealedAtOpens(records: seq<PlainRecord>, i: nat)
    requires i < |records|
    ensures var k, replica := Keyring(true, {(SyncClass, 1), (VaultClass, 2)}), SealedAt(records, 1, 1);
      Holds(replica, records) && (CanOpen(k, replica[i]) <==> ClassOf(records[i].collection) == SyncClass)
  {
  }

  // A device that has moved on to a later vault epoch, and cannot open the one its
  // environments were sealed under, loses them, whatever its profiles are.
  lemma LaterEpochClears(local: Selection, i: nat)
    requires Sized(local) && i < |local.profiles| && local.profiles[i].body.syncEnv && local.profiles[i].body.env != map[]
    ensures var k := Keyring(true, {(SyncClass, 1), (VaultClass, 2)});
      var replica := SealedAt(LocalProfileRecords(local), 1, 1);
      CheckedSet(Opened(k, replica)) && ProjectProfiles(local, k, replica) != Some(local)
  {
    hide Opened, CheckedSet, ProjectProfiles, LocalProfileRecords, Stored, SealedAt, Found, Resolved, CanOpen, Itemized;
    var k, records := Keyring(true, {(SyncClass, 1), (VaultClass, 2)}), LocalProfileRecords(local);
    var replica := SealedAt(records, 1, 1);
    var j := EnvRecordIn(local, i);
    LocalRecordsAre(local);
    SealedAtOpens(records, j);
    SealedAtOpens(records, |records| - 1);
    ConfigFound(local, k, replica);
    assert Hidden(k, replica, ProfileEnvs, local.profiles[i].id);
    hide Hidden, Holds;
    OwnRecordsChecked(local, k, replica);
    OwnProfilesIdentityExactly(local, k, replica);
  }

  lemma {:induction false} SideIn(items: seq<Item>, i: nat)
    requires i < |items| && items[i].side.Some?
    ensures items[i].side.value in Itemized(items)
  {
    if i < |items| - 1 {
      SideIn(items[..|items| - 1], i);
    }
  }

  lemma LaterEpochClearsOnce()
    ensures var local := Selection([Sample(true, map["K" := "v"])], "");
      var k := Keyring(true, {(SyncClass, 1), (VaultClass, 2)});
      var replica := SealedAt(LocalProfileRecords(local), 1, 1);
      Sized(local) && CheckedSet(Opened(k, replica)) && ProjectProfiles(local, k, replica) != Some(local)
  {
    var local := Selection([Sample(true, map["K" := "v"])], "");
    hide ProjectProfiles, CheckedSet, Opened, LocalProfileRecords, Stored;
    SampleStored(true, map["K" := "v"]);
    assert "K" in local.profiles[0].body.env;
    LaterEpochClears(local, 0);
  }

  // One profile's record under the first sync epoch, everything else under the
  // second.
  function SealedApart(records: seq<PlainRecord>, id: string): seq<Winner> {
    seq(|records|, i requires 0 <= i < |records| =>
      Winner(records[i], false, if records[i].collection == ProfileList && records[i].recordID == id then 1 else 2))
  }

  lemma {:induction false} ListedIn(items: seq<Item>, i: nat)
    requires i < |items|
    ensures items[i].listed in Itemized(items)
  {
    if i < |items| - 1 {
      ListedIn(items[..|items| - 1], i);
    }
  }

  lemma ListRecordIn(local: Selection, i: nat) returns (j: nat)
    requires Sized(local) && i < |local.profiles|
    ensures var records := LocalProfileRecords(local);
      j < |records| && records[j].collection == ProfileList && records[j].recordID == local.profiles[i].id
  {
    hide Itemized, LocalProfileRecords, PositionForIndex, Stored, CheckedSet;
    var items, records := ProfileItems(local.profiles), LocalProfileRecords(local);
    LocalRecordsAre(local);
    ListedIn(items, i);
    assert items[i].listed in records;
    j :| 0 <= j < |records| && records[j] == items[i].listed;
  }

  lemma SealedApartOpens(records: seq<PlainRecord>, id: string, i: nat)
    requires i < |records|
    ensures var k, replica := Keyring(false, {(SyncClass, 2)}), SealedApart(records, id);
      Holds(replica, records) && (ClassOf(records[i].collection) == SyncClass ==>
        (CanOpen(k, replica[i]) <==> !(records[i].collection == ProfileList && records[i].recordID == id)))
  {
  }

  lemma SealedApartHides(local: Selection, i: nat)
    requires Sized(local) && i < |local.profiles|
    ensures var k := Keyring(false, {(SyncClass, 2)});
      var replica := SealedApart(LocalProfileRecords(local), local.profiles[i].id);
      && Holds(replica, LocalProfileRecords(local)) && Found(k, replica, PROFILE_COLLECTIONS)
      && (forall id :: Hidden(k, replica, ProfileList, id) <==> id == local.profiles[i].id)
      && !Hidden(k, replica, ProfileConfig, CONFIG_ID)
  {
    hide LocalProfileRecords, Found, Stored, SealedApart, CanOpen, Itemized;
    var k, records := Keyring(false, {(SyncClass, 2)}), LocalProfileRecords(local);
    var replica := SealedApart(records, local.profiles[i].id);
    var j := ListRecordIn(local, i);
    LocalRecordsAre(local);
    forall n | 0 <= n < |records|
      ensures Holds(replica, records) && (ClassOf(records[n].collection) == SyncClass ==>
        (CanOpen(k, replica[n]) <==> !(records[n].collection == ProfileList && records[n].recordID == local.profiles[i].id)))
    {
      SealedApartOpens(records, local.profiles[i].id, n);
    }
    assert Holds(replica, records) && !CanOpen(k, replica[j]) && CanOpen(k, replica[|replica| - 1]);
    ConfigFound(local, k, replica);
  }

  // A device that has lost the sync epoch one of its profiles was written under
  // drops that profile, whatever the others are.
  lemma LostEpochDrops(local: Selection, i: nat)
    requires Sized(local) && i < |local.profiles|
    ensures var k := Keyring(false, {(SyncClass, 2)});
      var replica := SealedApart(LocalProfileRecords(local), local.profiles[i].id);
      CheckedSet(Opened(k, replica)) && ProjectProfiles(local, k, replica).Some?
      && local.profiles[i].id !in Ids(ProjectProfiles(local, k, replica).value.profiles)
  {
    hide Opened, CheckedSet, ProjectProfiles, LocalProfileRecords, Stored, Holds, SealedApart, Found, Hidden, Ids;
    SealedApartHides(local, i);
    HiddenProfileVanishes(local, Keyring(false, {(SyncClass, 2)}), SealedApart(LocalProfileRecords(local), local.profiles[i].id), local.profiles[i].id);
  }

  // Two private profiles, of which the second and the default are left.
  lemma LostEpochDropsOnce()
    ensures var p := Sample(false, map[]);
      var q := p.(id := "q");
      var local, k := Selection([p, q], "q"), Keyring(false, {(SyncClass, 2)});
      var replica := SealedApart(LocalProfileRecords(local), "p");
      && Sized(local) && Resolved(local) && CheckedSet(Opened(k, replica))
      && ProjectProfiles(local, k, replica) == Some(Selection([q], "q"))
  {
    var p := Sample(false, map[]);
    var q := p.(id := "q");
    var local, k := Selection([p, q], "q"), Keyring(false, {(SyncClass, 2)});
    var replica := SealedApart(LocalProfileRecords(local), "p");
    TwoStored();
    hide Opened, CheckedSet, ProjectProfiles, LocalProfileRecords, Holds, SealedApart, Found, Hidden, Stored, Resolve, Left;
    SealedApartHides(local, 0);
    OwnProfilesProject(local, k, replica);
    LeftOfTwo(k, replica, local);
  }

  lemma TwoStored()
    ensures var p := Sample(false, map[]);
      var q := p.(id := "q");
      Stored([p, q], Named) && Resolve("q", [q]) == "q" && "q" in Ids([p, q])
  {
    assert Trim("p") == "p" && Trim("q") == "q" && Trim("n") == "n";
    var p := Sample(false, map[]);
    var q := p.(id := "q");
    assert [p, q][1].id in Ids([p, q]) && [q][0].id in Ids([q]);
  }

  lemma LeftOfTwo(k: Keyring, replica: seq<Winner>, local: Selection)
    requires |local.profiles| == 2 && !k.vault && Found(k, replica, PROFILE_COLLECTIONS) && !Hidden(k, replica, ProfileConfig, CONFIG_ID)
    requires Hidden(k, replica, ProfileList, local.profiles[0].id) && !Hidden(k, replica, ProfileList, local.profiles[1].id)
    ensures var left := [local.profiles[1]]; OwnLeft(local, k, replica) == Selection(left, Resolve(local.defaultID, left))
  {
    hide Hidden, Found, Resolve;
    var ps := local.profiles;
    assert ps[..1] == [ps[0]] && [ps[0]][..0] == [];
    assert Left(k, replica, ProfileList, [ps[0]]) == [];
    assert Left(k, replica, ProfileList, ps) == [ps[1]];
  }

  function SSHLeft(local: SSHLists, k: Keyring, replica: seq<Winner>): SSHLists {
    if !Found(k, replica, SSH_METADATA) then local
    else SSHLists(Left(k, replica, HostList, local.hosts), Left(k, replica, KeyList, local.keys))
  }

  lemma OwnHosts(local: SSHLists, k: Keyring, replica: seq<Winner>)
    requires DistinctBundle(NoSecrets(local)) && Holds(replica, LocalSSHRecords(local)) && CheckedSet(LocalSSHRecords(local))
    ensures var v, left := Sort(Of(Opened(k, replica), HostList)), Left(k, replica, HostList, local.hosts);
      |v| == |left| && forall i :: 0 <= i < |v| ==> v[i].value == HostValue(left[i])
  {
    var b := NoSecrets(local);
    var items := HostItems(b.hosts);
    VisibleListed(k, replica, HostList, items, local.hosts, (h: Host) => HostValue(h));
    hide Sort, Of, Itemized, CheckedSet, Opened, DistinctBundle, Visible, Left, PositionForIndex, Holds, HostItems;
    BundleWritten(b);
    BundleOf(b, HostList);
    ItemizedOf(items, HostList, Credentials, HostList);
    OpenedHolds(k, replica, LocalSSHRecords(local), HostList);
    WrittenRead(k, replica, items, HostList, Credentials);
  }

  lemma OwnKeys(local: SSHLists, k: Keyring, replica: seq<Winner>)
    requires DistinctBundle(NoSecrets(local)) && Holds(replica, LocalSSHRecords(local)) && CheckedSet(LocalSSHRecords(local))
    ensures var v, left := Sort(Of(Opened(k, replica), KeyList)), Left(k, replica, KeyList, local.keys);
      |v| == |left| && forall i :: 0 <= i < |v| ==> v[i].value == KeyValue(left[i])
  {
    var b := NoSecrets(local);
    var items := KeyItems(b.keys);
    VisibleListed(k, replica, KeyList, items, local.keys, (key: SSHKey) => KeyValue(key));
    hide Sort, Of, Itemized, CheckedSet, Opened, DistinctBundle, Visible, Left, PositionForIndex, Holds, KeyItems;
    BundleWritten(b);
    BundleOf(b, KeyList);
    ItemizedOf(items, KeyList, KeySecrets, KeyList);
    OpenedHolds(k, replica, LocalSSHRecords(local), KeyList);
    WrittenRead(k, replica, items, KeyList, KeySecrets);
  }

  // Projecting the records a device wrote for its own hosts and keys.
  lemma OwnSSHProjects(local: SSHLists, k: Keyring, replica: seq<Winner>)
    requires DistinctBundle(NoSecrets(local)) && Holds(replica, LocalSSHRecords(local))
    ensures CheckedSet(Opened(k, replica)) && ProjectSSH(local, k, replica) == Some(SSHLeft(local, k, replica))
  {
    var records, all := Opened(k, replica), LocalSSHRecords(local);
    BundleChecked(NoSecrets(local));
    assert AllReadable(all, SSH_METADATA);
    hide Sort, Of, LocalSSHRecords, CheckedSet, Opened, AllReadable, DistinctBundle, Found, Left, Holds;
    OpenedChecked(k, replica, all);
    OwnHosts(local, k, replica);
    OwnKeys(local, k, replica);
    OwnReadable(k, replica, all, SSH_METADATA);
    ProjectSSHIs(local, k, replica, Left(k, replica, HostList, local.hosts), Left(k, replica, KeyList, local.keys));
  }

  lemma ProjectSSHIs(local: SSHLists, k: Keyring, replica: seq<Winner>, hosts: seq<Host>, keys: seq<SSHKey>)
    requires CheckedSet(Opened(k, replica)) && AllReadable(Opened(k, replica), SSH_METADATA)
    requires var v := Sort(Of(Opened(k, replica), HostList)); |v| == |hosts| && forall i :: 0 <= i < |v| ==> v[i].value == HostValue(hosts[i])
    requires var v := Sort(Of(Opened(k, replica), KeyList)); |v| == |keys| && forall i :: 0 <= i < |v| ==> v[i].value == KeyValue(keys[i])
    ensures ProjectSSH(local, k, replica) == Some(if Found(k, replica, SSH_METADATA) then SSHLists(hosts, keys) else local)
  {
    hide Sort, Of, CheckedSet, Opened, AllReadable, Found;
    SortReadable(Opened(k, replica), HostList);
    SortReadable(Opened(k, replica), KeyList);
    var h, v := Sort(Of(Opened(k, replica), HostList)), Sort(Of(Opened(k, replica), KeyList));
    assert seq(|h|, i requires 0 <= i < |h| => h[i].value.host) == hosts;
    assert seq(|v|, i requires 0 <= i < |v| => v[i].value.key) == keys;
  }

  // It is the identity exactly when none of the records can be opened, or all
  // can.
  lemma OwnSSHIdentityExactly(local: SSHLists, k: Keyring, replica: seq<Winner>)
    requires DistinctBundle(NoSecrets(local)) && Holds(replica, LocalSSHRecords(local)) && CheckedSet(Opened(k, replica))
    ensures ProjectSSH(local, k, replica) == Some(local) <==>
      !Found(k, replica, SSH_METADATA) || (
        && (forall i :: 0 <= i < |local.hosts| ==> !Hidden(k, replica, HostList, local.hosts[i].id))
        && (forall i :: 0 <= i < |local.keys| ==> !Hidden(k, replica, KeyList, local.keys[i].id)))
  {
    hide ProjectSSH, Hidden, Holds, Left, Found, DistinctBundle;
    OwnSSHProjects(local, k, replica);
    LeftExactly(k, replica, HostList, local.hosts);
    LeftExactly(k, replica, KeyList, local.keys);
  }

  lemma {:induction false} OpenedJoin(k: Keyring, a: seq<Winner>, b: seq<Winner>)
    ensures Opened(k, a + b) == Opened(k, a) + Opened(k, b)
  {
    if b == [] {
      assert a + b == a;
    } else {
      OpenedJoin(k, a, b[..|b| - 1]);
      assert (a + b)[..|a + b| - 1] == a + b[..|b| - 1];
    }
  }

  function Except(s: seq<Winner>, i: nat): seq<Winner>
    requires i < |s|
  {
    s[..i] + s[i + 1..]
  }

  lemma OpenedExcept(k: Keyring, s: seq<Winner>, i: nat)
    requires i < |s|
    ensures multiset(s) == multiset(Except(s, i)) + multiset{s[i]}
    ensures multiset(Opened(k, s)) == multiset(Opened(k, Except(s, i))) + multiset(Opened(k, [s[i]]))
  {
    hide Opened;
    assert s == s[..i] + [s[i]] + s[i + 1..];
    OpenedJoin(k, s[..i] + [s[i]], s[i + 1..]);
    OpenedJoin(k, s[..i], [s[i]]);
    OpenedJoin(k, s[..i], s[i + 1..]);
  }

  lemma {:induction false} OpenedPermuted(k: Keyring, a: seq<Winner>, b: seq<Winner>)
    requires multiset(a) == multiset(b)
    ensures multiset(Opened(k, a)) == multiset(Opened(k, b))
    decreases |a|
  {
    hide Opened;
    assert |a| == |multiset(a)| && |b| == |multiset(b)|;
    if a != [] {
      WinnerOf(a, b, 0);
      var i :| 0 <= i < |b| && b[i] == a[0];
      OpenedExcept(k, a, 0);
      OpenedExcept(k, b, i);
      assert |Except(a, 0)| < |a|;
      hide Except;
      assert multiset(Except(a, 0)) == multiset(a) - multiset{a[0]} && multiset(Except(b, i)) == multiset(b) - multiset{a[0]};
      OpenedPermuted(k, Except(a, 0), Except(b, i));
    }
  }

  lemma WinnerOf(a: seq<Winner>, b: seq<Winner>, i: nat)
    requires i < |a| && multiset(a) == multiset(b)
    ensures a[i] in b
  {
    assert a[i] in multiset(a);
  }

  lemma FoundPermuted(k: Keyring, a: seq<Winner>, b: seq<Winner>, cs: set<Collection>)
    requires multiset(a) == multiset(b) && Found(k, a, cs)
    ensures Found(k, b, cs)
  {
    var i :| 0 <= i < |a| && a[i].plain.collection in cs && CanOpen(k, a[i]);
    WinnerOf(a, b, i);
  }

  lemma KeptPermuted(local: Selection, k: Keyring, a: seq<Winner>, b: seq<Winner>)
    requires multiset(a) == multiset(b) && CheckedSet(Opened(k, a)) && AllReadable(Opened(k, a), PROFILE_COLLECTIONS)
    ensures CheckedSet(Opened(k, b)) && AllReadable(Opened(k, b), PROFILE_COLLECTIONS)
    ensures KeptOf(local, k, a) == KeptOf(local, k, b)
  {
    hide Sort, Of, Side, CheckedSet, Opened;
    var s, t := Opened(k, a), Opened(k, b);
    OpenedPermuted(k, a, b);
    CheckedPermuted(s, t);
    ReadablePermuted(s, t, PROFILE_COLLECTIONS);
    PermutedReads(s, t, ProfileList, "");
    SortReadable(s, ProfileList);
    var listed := Sort(Of(s, ProfileList));
    forall i | 0 <= i < |listed|
      ensures Side(Of(s, ProfileEnvs), listed[i].value.profile.id) == Side(Of(t, ProfileEnvs), listed[i].value.profile.id)
    {
      PermutedReads(s, t, ProfileEnvs, listed[i].value.profile.id);
    }
    assert Incoming(k, local.profiles, listed, Of(s, ProfileEnvs)) == Incoming(k, local.profiles, listed, Of(t, ProfileEnvs));
  }

  // Whether the configuration records that can be opened all select the same
  // surviving profile, or none.
  ghost predicate DefaultsAlike(local: Selection, k: Keyring, replica: seq<Winner>)
    requires CheckedSet(Opened(k, replica))
  {
    Found(k, replica, PROFILE_COLLECTIONS) && AllReadable(Opened(k, replica), PROFILE_COLLECTIONS) ==>
      SelectAlike(Of(Opened(k, replica), ProfileConfig), KeptOf(local, k, replica))
  }

  // The projected profiles do not depend on the order of the winners, as long as
  // the configuration records select alike.
  lemma ProjectProfilesPermuted(local: Selection, k: Keyring, a: seq<Winner>, b: seq<Winner>)
    requires multiset(a) == multiset(b) && CheckedSet(Opened(k, a)) && DefaultsAlike(local, k, a)
    ensures CheckedSet(Opened(k, b)) && ProjectProfiles(local, k, a) == ProjectProfiles(local, k, b)
  {
    hide Of, CheckedSet, Opened, Found, KeptOf;
    var s, t := Opened(k, a), Opened(k, b);
    OpenedPermuted(k, a, b);
    CheckedPermuted(s, t);
    if Found(k, a, PROFILE_COLLECTIONS) {
      FoundPermuted(k, a, b, PROFILE_COLLECTIONS);
    } else if Found(k, b, PROFILE_COLLECTIONS) {
      FoundPermuted(k, b, a, PROFILE_COLLECTIONS);
    }
    if AllReadable(s, PROFILE_COLLECTIONS) {
      KeptPermuted(local, k, a, b);
      OfPermuted(s, t, ProfileConfig);
      if Found(k, a, PROFILE_COLLECTIONS) {
        AlikePermuted(Of(s, ProfileConfig), Of(t, ProfileConfig), KeptOf(local, k, a));
      }
    } else if AllReadable(t, PROFILE_COLLECTIONS) {
      ReadablePermuted(t, s, PROFILE_COLLECTIONS);
    }
  }

  lemma LastOpened(k: Keyring, replica: seq<Winner>, i: nat)
    requires i < |replica| && CanOpen(k, replica[i]) && !replica[i].deleted && replica[i].plain.collection == ProfileConfig
    ensures DefaultOf(Of(Opened(k, Last(replica, i)), ProfileConfig)) == DefaultIn(Some(replica[i].plain.value))
  {
    var w, rest := replica[i], replica[..i] + replica[i + 1..];
    OpenedJoin(k, rest, [w]);
    assert [w][..0] == [] && Opened(k, [w]) == [w.plain];
    hide Opened, Of;
    OfJoin(Opened(k, rest), [w.plain], ProfileConfig);
    OfOne(w.plain, ProfileConfig);
  }

  lemma ProjectionOrderShows(local: Selection, k: Keyring, replica: seq<Winner>) returns (moved: seq<Winner>)
    requires CheckedSet(Opened(k, replica)) && !DefaultsAlike(local, k, replica)
    ensures multiset(moved) == multiset(replica) && CheckedSet(Opened(k, moved))
    ensures ProjectProfiles(local, k, moved) != ProjectProfiles(local, k, replica)
  {
    hide Of, CheckedSet, KeptOf, AllReadable, Opened, Found, SelectAlike, Resolve, DefaultOf, CanOpen;
    var configs, kept := Of(Opened(k, replica), ProfileConfig), KeptOf(local, k, replica);
    var j := Disagreeing(configs, kept);
    OfMembers(Opened(k, replica), ProfileConfig);
    OpenedMembers(k, replica);
    assert configs[j] in configs;
    var i :| 0 <= i < |replica| && replica[i].plain == configs[j] && CanOpen(k, replica[i]) && !replica[i].deleted;
    moved := Last(replica, i);
    LastPermutes(replica, i);
    LastOpened(k, replica, i);
    KeptPermuted(local, k, replica, moved);
    FoundPermuted(k, replica, moved, PROFILE_COLLECTIONS);
  }

  // The projected profiles are the same for every order of the winners exactly
  // when nothing can be opened, a record cannot be read, or all configuration
  // records that can be opened select alike.
  lemma ProjectProfilesOrderExactly(local: Selection, k: Keyring, replica: seq<Winner>)
    requires CheckedSet(Opened(k, replica))
    ensures (forall b :: multiset(b) == multiset(replica) && CheckedSet(Opened(k, b)) ==>
               ProjectProfiles(local, k, b) == ProjectProfiles(local, k, replica))
      <==> DefaultsAlike(local, k, replica)
  {
    hide ProjectProfiles, CheckedSet, DefaultsAlike, Opened;
    if DefaultsAlike(local, k, replica) {
      forall b | multiset(b) == multiset(replica) && CheckedSet(Opened(k, b))
        ensures ProjectProfiles(local, k, b) == ProjectProfiles(local, k, replica)
      {
        ProjectProfilesPermuted(local, k, replica, b);
      }
    } else {
      var moved := ProjectionOrderShows(local, k, replica);
    }
  }

  // A replica lists the winners of each collection by record ID, so the order it
  // gives them to the projection in cannot vary.

  predicate InIDOrder(winners: seq<Winner>) {
    forall i, j :: 0 <= i < j < |winners| ==> Less(winners[i].plain.recordID, winners[j].plain.recordID)
  }

  lemma InIDOrderHeads(a: seq<Winner>, b: seq<Winner>)
    requires InIDOrder(a) && InIDOrder(b) && multiset(a) == multiset(b) && a != [] && b != []
    ensures a[0] == b[0]
  {
    hide Less;
    WinnerOf(a, b, 0);
    WinnerOf(b, a, 0);
    var i :| 0 <= i < |b| && b[i] == a[0];
    var j :| 0 <= j < |a| && a[j] == b[0];
    if i > 0 && j > 0 {
      LessTotal(a[0].plain.recordID, b[0].plain.recordID);
    }
  }

  lemma WinnerHead(s: seq<Winner>)
    requires s != []
    ensures multiset(s[1..]) == multiset(s) - multiset{s[0]} && s == [s[0]] + s[1..]
  {
    assert s == [s[0]] + s[1..];
  }

  lemma {:induction false} InIDOrderUnique(a: seq<Winner>, b: seq<Winner>)
    requires InIDOrder(a) && InIDOrder(b) && multiset(a) == multiset(b)
    ensures a == b
  {
    hide Less;
    assert |a| == |multiset(a)| && |b| == |multiset(b)|;
    if a != [] {
      InIDOrderHeads(a, b);
      WinnerHead(a);
      WinnerHead(b);
      InIDOrderUnique(a[1..], b[1..]);
    }
  }

  lemma {:induction false} WinnersCounts(replica: seq<Winner>, c: Collection)
    ensures forall w :: multiset(WinnersOf(replica, c))[w] == if w.plain.collection == c then multiset(replica)[w] else 0
  {
    if replica != [] {
      WinnersCounts(replica[..|replica| - 1], c);
      assert replica == replica[..|replica| - 1] + [replica[|replica| - 1]];
    }
  }

  lemma SameWinners(k: Keyring, a: seq<Winner>, b: seq<Winner>, c: Collection)
    requires multiset(a) == multiset(b) && InIDOrder(WinnersOf(a, c)) && InIDOrder(WinnersOf(b, c))
    ensures Of(Opened(k, a), c) == Of(Opened(k, b), c)
  {
    WinnersCounts(a, c);
    WinnersCounts(b, c);
    InIDOrderUnique(WinnersOf(a, c), WinnersOf(b, c));
    OpenedOf(k, a, c);
    OpenedOf(k, b, c);
  }

  // Replicas with the same winners, each collection listed by record ID, project
  // to the same profiles, however many configuration records there are.
  lemma SameWinnersProject(local: Selection, k: Keyring, a: seq<Winner>, b: seq<Winner>)
    requires multiset(a) == multiset(b) && CheckedSet(Opened(k, a))
    requires forall c :: InIDOrder(WinnersOf(a, c)) && InIDOrder(WinnersOf(b, c))
    ensures CheckedSet(Opened(k, b)) && ProjectProfiles(local, k, a) == ProjectProfiles(local, k, b)
  {
    hide Of, CheckedSet, Opened, Found, KeptOf, InIDOrder, WinnersOf;
    var s, t := Opened(k, a), Opened(k, b);
    OpenedPermuted(k, a, b);
    CheckedPermuted(s, t);
    SameWinners(k, a, b, ProfileConfig);
    if Found(k, a, PROFILE_COLLECTIONS) {
      FoundPermuted(k, a, b, PROFILE_COLLECTIONS);
    } else if Found(k, b, PROFILE_COLLECTIONS) {
      FoundPermuted(k, b, a, PROFILE_COLLECTIONS);
    }
    if AllReadable(s, PROFILE_COLLECTIONS) {
      KeptPermuted(local, k, a, b);
    } else if AllReadable(t, PROFILE_COLLECTIONS) {
      ReadablePermuted(t, s, PROFILE_COLLECTIONS);
    }
  }

  lemma ProjectSSHPermuted(local: SSHLists, k: Keyring, a: seq<Winner>, b: seq<Winner>)
    requires multiset(a) == multiset(b) && CheckedSet(Opened(k, a))
    ensures CheckedSet(Opened(k, b)) && ProjectSSH(local, k, a) == ProjectSSH(local, k, b)
  {
    hide Sort, Of, Side, CheckedSet, Opened, Found;
    var s, t := Opened(k, a), Opened(k, b);
    OpenedPermuted(k, a, b);
    CheckedPermuted(s, t);
    if Found(k, a, SSH_METADATA) {
      FoundPermuted(k, a, b, SSH_METADATA);
    } else if Found(k, b, SSH_METADATA) {
      FoundPermuted(k, b, a, SSH_METADATA);
    }
    PermutedReads(s, t, HostList, "");
    PermutedReads(s, t, KeyList, "");
    if AllReadable(s, SSH_METADATA) {
      ReadablePermuted(s, t, SSH_METADATA);
      SortReadable(s, HostList);
      SortReadable(s, KeyList);
    } else if AllReadable(t, SSH_METADATA) {
      ReadablePermuted(t, s, SSH_METADATA);
    }
  }

  // The source's loops.

  lemma OpenedSnoc(k: Keyring, replica: seq<Winner>, i: nat)
    requires i < |replica|
    ensures Opened(k, replica[..i + 1])
         == if CanOpen(k, replica[i]) && !replica[i].deleted then Opened(k, replica[..i]) + [replica[i].plain] else Opened(k, replica[..i])
  {
    assert replica[..i + 1][..i] == replica[..i];
  }

  lemma {:induction false} WinnersAre(replica: seq<Winner>, c: Collection)
    ensures forall w :: w in WinnersOf(replica, c) <==> w in replica && w.plain.collection == c
  {
    if replica != [] {
      WinnersAre(replica[..|replica| - 1], c);
      assert replica == replica[..|replica| - 1] + [replica[|replica| - 1]];
    }
  }

  lemma OpenedOfOther(k: Keyring, replica: seq<Winner>, c: Collection, d: Collection)
    requires c != d
    ensures Of(Opened(k, WinnersOf(replica, c)), d) == []
  {
  }

  // One collection's winners, opened in turn.
  method OpenCollection(k: Keyring, winners: seq<Winner>) returns (plain: seq<PlainRecord>, found: bool)
    ensures plain == Opened(k, winners)
    ensures found <==> SomeOpens(k, winners)
  {
    plain, found := [], false;
    for i := 0 to |winners|
      invariant plain == Opened(k, winners[..i])
      invariant found <==> exists j :: 0 <= j < i && CanOpen(k, winners[j])
    {
      OpenedSnoc(k, winners, i);
      if CanOpen(k, winners[i]) {
        found := true;
        if !winners[i].deleted {
          plain := plain + [winners[i].plain];
        }
      }
    }
    assert winners[..|winners|] == winners;
  }

  // For each of some collections, the same list as in the whole replica.
  ghost predicate Gathered(plain: seq<PlainRecord>, k: Keyring, replica: seq<Winner>, cs: seq<Collection>) {
    forall c :: Of(plain, c) == if c in cs then Of(Opened(k, replica), c) else []
  }

  lemma GatherStep(plain: seq<PlainRecord>, k: Keyring, replica: seq<Winner>, cs: seq<Collection>, next: Collection)
    requires Gathered(plain, k, replica, cs) && next !in cs
    ensures Gathered(plain + Opened(k, WinnersOf(replica, next)), k, replica, cs + [next])
  {
    hide Opened, Of;
    var more := Opened(k, WinnersOf(replica, next));
    forall c
      ensures Of(plain + more, c) == if c in cs + [next] then Of(Opened(k, replica), c) else []
    {
      OfJoin(plain, more, c);
      if c == next {
        OpenedOf(k, replica, c);
        OfWhole(Opened(k, replica), c);
      } else {
        OpenedOfOther(k, replica, next, c);
      }
    }
  }

  ghost predicate SomeOpens(k: Keyring, winners: seq<Winner>) {
    exists i :: 0 <= i < |winners| && CanOpen(k, winners[i])
  }

  ghost predicate FoundIn(k: Keyring, replica: seq<Winner>, cs: seq<Collection>) {
    exists i :: 0 <= i < |replica| && replica[i].plain.collection in cs && CanOpen(k, replica[i])
  }

  lemma FoundStep(k: Keyring, replica: seq<Winner>, cs: seq<Collection>, next: Collection)
    ensures FoundIn(k, replica, cs + [next]) <==> FoundIn(k, replica, cs) || SomeOpens(k, WinnersOf(replica, next))
  {
    var winners := WinnersOf(replica, next);
    WinnersAre(replica, next);
    assert forall c :: c in cs + [next] <==> c in cs || c == next;
    if j :| 0 <= j < |winners| && CanOpen(k, winners[j]) {
      assert winners[j] in replica;
      var i :| 0 <= i < |replica| && replica[i] == winners[j];
      assert replica[i].plain.collection in cs + [next] && CanOpen(k, replica[i]);
    } else if FoundIn(k, replica, cs + [next]) {
      var i :| 0 <= i < |replica| && replica[i].plain.collection in cs + [next] && CanOpen(k, replica[i]);
      var w := replica[i];
      assert w.plain.collection == next ==> w in winners;
    }
  }

  // The records of some collections, gathered collection by collection.
  method OpenLocalProjectionRecords(k: Keyring, replica: seq<Winner>, cs: seq<Collection>)
    returns (plain: seq<PlainRecord>, found: bool)
    requires forall i, j :: 0 <= i < j < |cs| ==> cs[i] != cs[j]
    ensures Gathered(plain, k, replica, cs)
    ensures found <==> FoundIn(k, replica, cs)
  {
    plain, found := [], false;
    assert Gathered(plain, k, replica, cs[..0]);
    hide Opened, Gathered, WinnersOf;
    for n := 0 to |cs|
      invariant Gathered(plain, k, replica, cs[..n])
      invariant found <==> FoundIn(k, replica, cs[..n])
    {
      assert cs[..n + 1] == cs[..n] + [cs[n]];
      GatherStep(plain, k, replica, cs[..n], cs[n]);
      FoundStep(k, replica, cs[..n], cs[n]);
      var more, some := OpenCollection(k, WinnersOf(replica, cs[n]));
      plain, found := plain + more, found || some;
    }
    assert cs[..|cs|] == cs;
  }

  lemma OfWhole(records: seq<PlainRecord>, c: Collection)
    ensures Of(Of(records, c), c) == Of(records, c)
  {
  }

  lemma ReadableOf(s: seq<PlainRecord>, t: seq<PlainRecord>, cs: set<Collection>)
    requires forall c :: c in cs ==> Of(s, c) == Of(t, c)
    requires AllReadable(s, cs)
    ensures AllReadable(t, cs)
  {
    forall i | 0 <= i < |t| && t[i].collection in cs
      ensures Readable(t[i])
    {
      var c := t[i].collection;
      OfMembers(s, c);
      OfMembers(t, c);
      assert t[i] in Of(s, c);
    }
  }

  // The loop that fills in environments, dropping nothing.
  method FillIncoming(k: Keyring, local: seq<Profile>, listed: seq<PlainRecord>, environments: map<string, Env>, ghost records: seq<PlainRecord>)
    returns (incoming: seq<Profile>)
    requires forall i :: 0 <= i < |listed| ==> listed[i].value.ProfileValue?
    requires Fills(environments, records, EnvOfValue)
    ensures incoming == Incoming(k, local, listed, records)
  {
    var localByID := ByID(local);
    incoming := [];
    for i := 0 to |listed|
      invariant |incoming| == i
      invariant forall n :: 0 <= n < i ==>
        incoming[n] == WithEnv(listed[n].value.profile, ProjectedEnv(k, local, listed[n].value.profile, records))
    {
      var p := listed[i].value.profile;
      var env: Env := map[];
      if !p.body.syncEnv || !k.vault {
        if p.id in localByID {
          env := localByID[p.id].body.env;
        }
      } else if p.id in environments {
        env := environments[p.id];
      }
      incoming := incoming + [WithEnv(p, env)];
    }
  }

  method ProjectProfilesOnto(local: Selection, k: Keyring, replica: seq<Winner>) returns (r: Option<Selection>)
    requires CheckedSet(Opened(k, replica))
    ensures r == ProjectProfiles(local, k, replica)
  {
    hide Of, Opened, CheckedSet, Sort, AllReadable, Sorted, Orderable, Fills, Incoming, CanOpen;
    ghost var records := Opened(k, replica);
    var plain, found := OpenLocalProjectionRecords(k, replica, [ProfileList, ProfileConfig, ProfileEnvs]);
    assert found <==> Found(k, replica, PROFILE_COLLECTIONS);
    if !found {
      return Some(local);
    }
    var ok, listed, environments, defaultID := CollectProfileRecords(plain);
    assert forall c :: c in PROFILE_COLLECTIONS ==> Of(plain, c) == Of(records, c);
    if AllReadable(plain, PROFILE_COLLECTIONS) {
      ReadableOf(plain, records, PROFILE_COLLECTIONS);
    } else if AllReadable(records, PROFILE_COLLECTIONS) {
      ReadableOf(records, plain, PROFILE_COLLECTIONS);
    }
    if !ok {
      return None;
    }
    OfApart(records, ProfileList);
    listed := SortPositioned(listed);
    SortedIsSort(records, ProfileList, listed);
    SortReadable(records, ProfileList);
    ReadableIn(records, PROFILE_COLLECTIONS, listed);
    var incoming := FillIncoming(k, local.profiles, listed, environments, Of(records, ProfileEnvs));
    var kept := FilterValidProfiles(incoming);
    var default := ResolveDefaultProfileID(defaultID, kept);
    r := Some(Selection(kept, default));
  }

  method WriteLocalProfileRecords(local: Selection) returns (records: seq<PlainRecord>)
    ensures records == LocalProfileRecords(local)
  {
    var profiles := FilterValidProfiles(local.profiles);
    records := WriteProfileRecords(profiles);
    if |profiles| != 0 {
      var default := ResolveDefaultProfileID(local.defaultID, profiles);
      records := records + [ConfigRecord(default)];
    }
  }
}
