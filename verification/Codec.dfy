/** The codec between a device's sealed lists and the typed records of the
    replica. Sealing and opening are inverse here, so a sealed value is its
    content. */
module Codec {
  import opened Wrappers
  import opened Widths
  import opened Entries
  import opened Profiles
  import opened ConfigImport
  import opened Positions
  import opened Records

  const PROFILE_COLLECTIONS := {ProfileList, ProfileEnvs, ProfileConfig}

  const SSH_COLLECTIONS := {HostList, KeyList, Credentials, KeySecrets}

  function EnvIn(v: Option<Value>): Env {
    if v.Some? && v.value.EnvValue? then v.value.env else map[]
  }

  function DefaultIn(v: Option<Value>): string {
    if v.Some? && v.value.DefaultValue? then v.value.defaultID else ""
  }

  function PasswordIn(v: Option<Value>): string {
    if v.Some? && v.value.PasswordValue? then v.value.password else ""
  }

  function SecretIn(v: Option<Value>): Value {
    if v.Some? && v.value.SecretValue? then v.value else SecretValue("", "")
  }

  function Restored(p: Profile, environments: seq<PlainRecord>): Profile {
    if p.body.syncEnv then WithEnv(p, EnvIn(Side(environments, p.id))) else p
  }

  function ProfilesIn(listed: seq<PlainRecord>, environments: seq<PlainRecord>): seq<Profile>
    requires forall i :: 0 <= i < |listed| ==> listed[i].value.ProfileValue?
  {
    seq(|listed|, i requires 0 <= i < |listed| => Restored(listed[i].value.profile, environments))
  }

  // The last configuration record read.
  function DefaultOf(records: seq<PlainRecord>): string {
    if records == [] then "" else DefaultIn(Some(records[|records| - 1].value))
  }

  // The profiles of a readable record set, in order, with their environments.
  ghost function ProfilesOf(records: seq<PlainRecord>): seq<Profile>
    requires CheckedSet(records) && AllReadable(records, PROFILE_COLLECTIONS)
  {
    SortReadable(records, ProfileList);
    ProfilesIn(Sort(Of(records, ProfileList)), Of(records, ProfileEnvs))
  }

  // The content of the sealed value, or nothing when a record cannot be read.
  ghost function EncodeProfiles(records: seq<PlainRecord>): Option<Selection>
    requires CheckedSet(records)
  {
    if !AllReadable(records, PROFILE_COLLECTIONS) then None
    else
      var profiles := ProfilesOf(records);
      Some(Pushed(Selection(profiles, Resolve(DefaultOf(Of(records, ProfileConfig)), profiles))))
  }

  // What one configuration record selects among some profiles.
  function Selects(config: PlainRecord, profiles: seq<Profile>): string {
    Resolve(DefaultIn(Some(config.value)), profiles)
  }

  // Every configuration record selects the same profile, or none.
  predicate SelectAlike(configs: seq<PlainRecord>, profiles: seq<Profile>) {
    forall i, j :: 0 <= i < |configs| && 0 <= j < |configs| ==> Selects(configs[i], profiles) == Selects(configs[j], profiles)
  }

  lemma ProfilesPermuted(a: seq<PlainRecord>, b: seq<PlainRecord>)
    requires CheckedSet(a) && AllReadable(a, PROFILE_COLLECTIONS) && multiset(a) == multiset(b)
    ensures CheckedSet(b) && AllReadable(b, PROFILE_COLLECTIONS) && ProfilesOf(a) == ProfilesOf(b)
  {
    hide Sort, Of, Side, CheckedSet;
    CheckedPermuted(a, b);
    ReadablePermuted(a, b, PROFILE_COLLECTIONS);
    PermutedReads(a, b, ProfileList, "");
    SortReadable(a, ProfileList);
    var listed := Sort(Of(a, ProfileList));
    forall i | 0 <= i < |listed|
      ensures Restored(listed[i].value.profile, Of(a, ProfileEnvs)) == Restored(listed[i].value.profile, Of(b, ProfileEnvs))
    {
      PermutedReads(a, b, ProfileEnvs, listed[i].value.profile.id);
    }
    assert ProfilesIn(listed, Of(a, ProfileEnvs)) == ProfilesIn(listed, Of(b, ProfileEnvs));
  }

  lemma AlikePermuted(a: seq<PlainRecord>, b: seq<PlainRecord>, profiles: seq<Profile>)
    requires multiset(a) == multiset(b) && SelectAlike(a, profiles)
    ensures Resolve(DefaultOf(a), profiles) == Resolve(DefaultOf(b), profiles)
  {
    assert |a| == |multiset(a)| && |b| == |multiset(b)|;
    if b != [] {
      MemberOf(b, a, |b| - 1);
    }
  }

  // The sealed profiles do not depend on the order of the records, as long as
  // the configuration records select alike.
  lemma EncodeProfilesPermuted(a: seq<PlainRecord>, b: seq<PlainRecord>)
    requires CheckedSet(a) && multiset(a) == multiset(b)
    requires AllReadable(a, PROFILE_COLLECTIONS) ==> SelectAlike(Of(a, ProfileConfig), ProfilesOf(a))
    ensures CheckedSet(b) && EncodeProfiles(a) == EncodeProfiles(b)
  {
    hide Sort, Of, Side, CheckedSet, ProfilesOf;
    CheckedPermuted(a, b);
    if AllReadable(a, PROFILE_COLLECTIONS) {
      ProfilesPermuted(a, b);
      OfPermuted(a, b, ProfileConfig);
      AlikePermuted(Of(a, ProfileConfig), Of(b, ProfileConfig), ProfilesOf(a));
    } else if AllReadable(b, PROFILE_COLLECTIONS) {
      ReadablePermuted(b, a, PROFILE_COLLECTIONS);
    }
  }

  // The records with one of them moved to the end.
  function Last<T>(s: seq<T>, i: nat): seq<T>
    requires i < |s|
  {
    s[..i] + s[i + 1..] + [s[i]]
  }

  lemma LastPermutes<T>(s: seq<T>, i: nat)
    requires i < |s|
    ensures multiset(Last(s, i)) == multiset(s)
  {
    assert s == s[..i] + [s[i]] + s[i + 1..];
  }

  lemma LastConfig(records: seq<PlainRecord>, i: nat)
    requires i < |records| && records[i].collection == ProfileConfig
    ensures DefaultOf(Of(Last(records, i), ProfileConfig)) == DefaultIn(Some(records[i].value))
  {
    hide Of;
    OfJoin(records[..i] + records[i + 1..], [records[i]], ProfileConfig);
    OfOne(records[i], ProfileConfig);
  }

  // If they do not, one of them disagrees with the last.
  lemma Disagreeing(configs: seq<PlainRecord>, profiles: seq<Profile>) returns (j: nat)
    requires !SelectAlike(configs, profiles)
    ensures j < |configs| && Selects(configs[j], profiles) != Resolve(DefaultOf(configs), profiles)
  {
    hide Resolve, DefaultIn;
    var a, b :| 0 <= a < |configs| && 0 <= b < |configs| && Selects(configs[a], profiles) != Selects(configs[b], profiles);
    j := if Selects(configs[a], profiles) != Selects(configs[|configs| - 1], profiles) then a else b;
  }

  // If two of them do not, moving one that disagrees with the last to the end
  // shows.
  lemma OrderShows(records: seq<PlainRecord>) returns (moved: seq<PlainRecord>)
    requires CheckedSet(records) && AllReadable(records, PROFILE_COLLECTIONS)
    requires !SelectAlike(Of(records, ProfileConfig), ProfilesOf(records))
    ensures multiset(moved) == multiset(records) && CheckedSet(moved) && EncodeProfiles(moved) != EncodeProfiles(records)
  {
    hide Of, CheckedSet, ProfilesOf, AllReadable, SelectAlike, Resolve, DefaultOf;
    var configs, profiles := Of(records, ProfileConfig), ProfilesOf(records);
    var j := Disagreeing(configs, profiles);
    OfMembers(records, ProfileConfig);
    assert configs[j] in configs;
    var i :| 0 <= i < |records| && records[i] == configs[j];
    moved := Last(records, i);
    LastPermutes(records, i);
    LastConfig(records, i);
    ProfilesPermuted(records, moved);
  }

  // The sealed profiles are the same for every order of the records exactly when
  // a record cannot be read, or all configuration records select alike.
  lemma EncodeProfilesOrderExactly(records: seq<PlainRecord>)
    requires CheckedSet(records)
    ensures (forall b :: multiset(b) == multiset(records) && CheckedSet(b) ==> EncodeProfiles(b) == EncodeProfiles(records))
      <==> (AllReadable(records, PROFILE_COLLECTIONS) ==> SelectAlike(Of(records, ProfileConfig), ProfilesOf(records)))
  {
    hide EncodeProfiles, CheckedSet, SelectAlike, AllReadable;
    if AllReadable(records, PROFILE_COLLECTIONS) && !SelectAlike(Of(records, ProfileConfig), ProfilesOf(records)) {
      var moved := OrderShows(records);
    } else {
      forall b | multiset(b) == multiset(records) && CheckedSet(b)
        ensures EncodeProfiles(b) == EncodeProfiles(records)
      {
        EncodeProfilesPermuted(records, b);
      }
    }
  }

  lemma OfThree(a: PlainRecord, b: PlainRecord, c: PlainRecord, e: Collection)
    ensures Of([a, b, c], e) == Of([a], e) + Of([b], e) + Of([c], e)
    ensures Of([a], e) == (if a.collection == e then [a] else [])
    ensures Of([b], e) == (if b.collection == e then [b] else [])
    ensures Of([c], e) == (if c.collection == e then [c] else [])
  {
    hide Of;
    assert [a, b, c] == [a] + [b] + [c];
    OfJoin([a] + [b], [c], e);
    OfJoin([a], [b], e);
    OfOne(a, e);
    OfOne(b, e);
    OfOne(c, e);
  }

  lemma LastDefaultWins(item: PlainRecord, first: PlainRecord, last: PlainRecord)
    requires CheckedSet([item, first, last]) && AllReadable([item, first, last], PROFILE_COLLECTIONS)
    requires item.collection == ProfileList && first.collection == last.collection == ProfileConfig
    requires item.value.ProfileValue? && last.value.DefaultValue?
    ensures var d := last.value.defaultID;
      EncodeProfiles([item, first, last]).Some?
      && EncodeProfiles([item, first, last]).value.defaultID == if d == item.value.profile.id then d else ""
  {
    hide CheckedSet, AllReadable, Of;
    var s := [item, first, last];
    OfThree(item, first, last, ProfileList);
    OfThree(item, first, last, ProfileConfig);
    assert Sort([item]) == [item] by { assert [item][..0] == []; }
    var ps := ProfilesIn(Sort(Of(s, ProfileList)), Of(s, ProfileEnvs));
    assert ps == [Restored(item.value.profile, Of(s, ProfileEnvs))];
    assert ps[0].id in Ids(ps);
  }

  lemma ThreeChecked(a: PlainRecord, b: PlainRecord, c: PlainRecord)
    requires Checked(a) && Checked(b) && Checked(c) && !SameKey(a, b) && !SameKey(a, c) && !SameKey(b, c)
    requires Readable(a) && Readable(b) && Readable(c)
    ensures CheckedSet([a, b, c]) && AllReadable([a, b, c], PROFILE_COLLECTIONS)
  {
  }

  // With two configuration records, one naming a stored profile and one naming
  // nothing stored, the last one read decides and the order shows.
  lemma TwoDefaultsDisagree(item: PlainRecord, yes: PlainRecord, no: PlainRecord)
    requires Checked(item) && Readable(item) && item.collection == ProfileList && item.recordID != ""
    requires Readable(yes) && Readable(no) && yes.collection == no.collection == ProfileConfig && yes.recordID != no.recordID
    requires yes.value.defaultID == item.recordID != no.value.defaultID
    ensures var a, b := [item, no, yes], [item, yes, no];
      CheckedSet(a) && CheckedSet(b) && multiset(a) == multiset(b) && EncodeProfiles(a) != EncodeProfiles(b)
  {
    ThreeChecked(item, no, yes);
    ThreeChecked(item, yes, no);
    LastDefaultWins(item, no, yes);
    LastDefaultWins(item, yes, no);
  }

  function ProfileItem(i: nat, p: Profile): Item {
    Item(PlainRecord(ProfileList, p.id, PositionForIndex(i), ProfileValue(WithEnv(p, map[]))),
         if p.body.syncEnv && p.body.env != map[] then Some(PlainRecord(ProfileEnvs, p.id, "", EnvValue(p.body.env))) else None)
  }

  function ProfileItems(ps: seq<Profile>): seq<Item> {
    seq(|ps|, i requires 0 <= i < |ps| => ProfileItem(i, ps[i]))
  }

  const CONFIG_ID := "default"

  function ConfigRecord(defaultID: string): PlainRecord {
    PlainRecord(ProfileConfig, CONFIG_ID, "", DefaultValue(defaultID))
  }

  // The records of an opened profiles value.
  function DecodeProfiles(sealed: Selection): seq<PlainRecord> {
    Itemized(ProfileItems(Filtered(sealed.profiles, Named))) + [ConfigRecord(sealed.defaultID)]
  }

  // The list record of one profile: its place and everything but its environment.
  predicate BareRecord(r: PlainRecord, ps: seq<Profile>, i: nat)
    requires i < |ps|
  {
    var p := ps[i];
    r == PlainRecord(ProfileList, p.id, PositionForIndex(i), ProfileValue(p.(body := p.body.(env := map[]))))
  }

  // The record of its environment, if it is opted in and has one.
  predicate EnvRecord(r: PlainRecord, p: Profile) {
    p.body.syncEnv && p.body.env != map[] && r == PlainRecord(ProfileEnvs, p.id, "", EnvValue(p.body.env))
  }

  predicate RecordOf(r: PlainRecord, ps: seq<Profile>) {
    exists i :: 0 <= i < |ps| && (BareRecord(r, ps, i) || EnvRecord(r, ps[i]))
  }

  // These are all the records written for some profiles: no environment is in a
  // list record, and none of a profile that is not opted in is in any.
  lemma ProfileRecordsExactly(ps: seq<Profile>, r: PlainRecord)
    ensures r in Itemized(ProfileItems(ps)) <==> RecordOf(r, ps)
  {
    hide PositionForIndex, Itemized;
    ItemizedExactly(ProfileItems(ps));
    forall i | 0 <= i < |ps|
      ensures From(r, ProfileItems(ps)[i]) <==> BareRecord(r, ps, i) || EnvRecord(r, ps[i])
    {
    }
    hide From, ProfileItems, BareRecord, EnvRecord;
  }

  // The records of a sealed value: those of its valid profiles, and its default.
  lemma DecodedExactly(sealed: Selection, r: PlainRecord)
    ensures r in DecodeProfiles(sealed) <==>
      r == PlainRecord(ProfileConfig, "default", "", DefaultValue(sealed.defaultID)) || RecordOf(r, Filtered(sealed.profiles, Named))
  {
    hide Itemized, Filtered, RecordOf;
    ProfileRecordsExactly(Filtered(sealed.profiles, Named), r);
  }

  lemma ProfilesWritten(ps: seq<Profile>)
    requires Distinct(ps) && |ps| <= TWO_TO_THE_64
    ensures Written(ProfileItems(ps), ProfileList, ProfileEnvs)
    ensures forall r :: r in Itemized(ProfileItems(ps)) ==> Readable(r)
  {
    hide PositionForIndex;
    WrittenReadable(ProfileItems(ps), ProfileList, ProfileEnvs);
  }

  lemma ConfigOnly(records: seq<PlainRecord>, config: seq<PlainRecord>, c: Collection)
    requires |config| <= 1 && forall i :: 0 <= i < |config| ==> config[i].collection == ProfileConfig
    ensures Of(records + config, c) == if c == ProfileConfig then Of(records, c) + config else Of(records, c)
  {
    OfJoin(records, config, c);
    if |config| == 1 {
      OfOne(config[0], c);
      assert config == [config[0]];
    }
    assert Of(records, c) + [] == Of(records, c);
  }

  predicate OneConfig(config: seq<PlainRecord>) {
    |config| <= 1 && forall i :: 0 <= i < |config| ==> config[i].collection == ProfileConfig && Readable(config[i])
  }

  lemma ProfileRecordsChecked(ps: seq<Profile>, config: seq<PlainRecord>)
    requires Distinct(ps) && |ps| <= TWO_TO_THE_64 && OneConfig(config)
    ensures CheckedSet(Itemized(ProfileItems(ps)) + config)
    ensures AllReadable(Itemized(ProfileItems(ps)) + config, PROFILE_COLLECTIONS)
  {
    hide PositionForIndex;
    var items, records := ProfileItems(ps), Itemized(ProfileItems(ps));
    ProfilesWritten(ps);
    WrittenChecked(items, ProfileList, ProfileEnvs);
    forall i | 0 <= i < |records|
      ensures records[i].collection != ProfileConfig && Readable(records[i])
    {
      assert records[i] in records;
      ItemizedFrom(items, records[i]);
    }
    hide Itemized, ProfileItems, Written;
    CheckedJoin(records, config);
  }

  // The records of a list of profiles, with a configuration record or none.
  lemma ProfileRecordsRead(ps: seq<Profile>, config: seq<PlainRecord>)
    requires Distinct(ps) && |ps| <= TWO_TO_THE_64 && OneConfig(config)
    ensures var records := Itemized(ProfileItems(ps)) + config;
      && Of(records, ProfileList) == ListedOf(ProfileItems(ps)) == Sort(Of(records, ProfileList)) && Of(records, ProfileConfig) == config
      && forall i :: 0 <= i < |ps| ==> EnvIn(Side(Of(records, ProfileEnvs), ps[i].id)) == StripOne(ps[i]).body.env
  {
    hide PositionForIndex, Of, Itemized, Sort, Side;
    var items := ProfileItems(ps);
    ProfilesWritten(ps);
    WrittenReads(items, ProfileList, ProfileEnvs);
    ConfigOnly(Itemized(items), config, ProfileList);
    ConfigOnly(Itemized(items), config, ProfileEnvs);
    ConfigOnly(Itemized(items), config, ProfileConfig);
    ItemizedOf(items, ProfileList, ProfileEnvs, ProfileConfig);
    ItemizedOf(items, ProfileList, ProfileEnvs, ProfileList);
    assert [] + config == config;
    forall i | 0 <= i < |ps|
      ensures EnvIn(Side(Of(Itemized(items), ProfileEnvs), ps[i].id)) == StripOne(ps[i]).body.env
    {
      assert items[i].listed.recordID == ps[i].id;
    }
  }

  // Opening a sealed list, writing it as records and encoding those again gives
  // the valid profiles in their order, opted-in environments restored and the
  // others stripped, and the default resolved.
  lemma DecodeEncodeProfiles(sealed: Selection)
    requires |Filtered(sealed.profiles, Named)| <= TWO_TO_THE_64
    ensures CheckedSet(DecodeProfiles(sealed))
    ensures var kept := Filtered(sealed.profiles, Named);
      EncodeProfiles(DecodeProfiles(sealed)) == Some(Selection(Strip(kept), Resolve(sealed.defaultID, kept)))
  {
    hide CheckedSet, Sort, Of, Itemized, AllReadable, Side;
    var kept, records := Filtered(sealed.profiles, Named), DecodeProfiles(sealed);
    FilteredIsStored(sealed.profiles, Named);
    StoredDistinct(kept);
    ProfileRecordsChecked(kept, [ConfigRecord(sealed.defaultID)]);
    ProfileRecordsRead(kept, [ConfigRecord(sealed.defaultID)]);
    var back := ProfilesIn(ListedOf(ProfileItems(kept)), Of(records, ProfileEnvs));
    forall i | 0 <= i < |kept|
      ensures back[i] == StripOne(kept[i])
    {
      assert ListedOf(ProfileItems(kept))[i].value.profile == WithEnv(kept[i], map[]);
    }
    assert back == Strip(kept) && Strip(back) == back;
    AlikeIds(kept, back);
  }

  // SSH hosts and keys with their secrets.

  datatype SealedHost = SealedHost(host: Host, password: string)

  datatype SealedKey = SealedKey(key: SSHKey, privateKey: string, passphrase: string)

  datatype Bundle = Bundle(hosts: seq<SealedHost>, keys: seq<SealedKey>)

  function HostItem(i: nat, h: SealedHost): Item {
    Item(PlainRecord(HostList, h.host.id, PositionForIndex(i), HostValue(h.host)),
         if h.password != "" then Some(PlainRecord(Credentials, h.host.id, "", PasswordValue(h.password))) else None)
  }

  function KeyItem(i: nat, k: SealedKey): Item {
    Item(PlainRecord(KeyList, k.key.id, PositionForIndex(i), KeyValue(k.key)),
         if k.privateKey != "" || k.passphrase != ""
         then Some(PlainRecord(KeySecrets, k.key.id, "", SecretValue(k.privateKey, k.passphrase))) else None)
  }

  function HostItems(hosts: seq<SealedHost>): seq<Item> {
    seq(|hosts|, i requires 0 <= i < |hosts| => HostItem(i, hosts[i]))
  }

  function KeyItems(keys: seq<SealedKey>): seq<Item> {
    seq(|keys|, i requires 0 <= i < |keys| => KeyItem(i, keys[i]))
  }

  predicate DistinctBundle(b: Bundle) {
    && (forall i, j :: 0 <= i < j < |b.hosts| ==> b.hosts[i].host.id != b.hosts[j].host.id)
    && (forall i, j :: 0 <= i < j < |b.keys| ==> b.keys[i].key.id != b.keys[j].key.id)
    && |b.hosts| <= TWO_TO_THE_64 && |b.keys| <= TWO_TO_THE_64
  }

  function DecodeSSH(b: Bundle): seq<PlainRecord> {
    Itemized(HostItems(b.hosts)) + Itemized(KeyItems(b.keys))
  }

  function HostsIn(listed: seq<PlainRecord>, credentials: seq<PlainRecord>): seq<SealedHost>
    requires forall i :: 0 <= i < |listed| ==> listed[i].value.HostValue?
  {
    seq(|listed|, i requires 0 <= i < |listed| =>
      SealedHost(listed[i].value.host, PasswordIn(Side(credentials, listed[i].value.host.id))))
  }

  function KeysIn(listed: seq<PlainRecord>, secrets: seq<PlainRecord>): seq<SealedKey>
    requires forall i :: 0 <= i < |listed| ==> listed[i].value.KeyValue?
  {
    seq(|listed|, i requires 0 <= i < |listed| =>
      var secret := SecretIn(Side(secrets, listed[i].value.key.id));
      SealedKey(listed[i].value.key, secret.privateKey, secret.passphrase))
  }

  ghost function EncodeSSH(records: seq<PlainRecord>): Option<Bundle>
    requires CheckedSet(records)
  {
    if !AllReadable(records, SSH_COLLECTIONS) then None
    else
      SortReadable(records, HostList);
      SortReadable(records, KeyList);
      Some(Bundle(HostsIn(Sort(Of(records, HostList)), Of(records, Credentials)),
                  KeysIn(Sort(Of(records, KeyList)), Of(records, KeySecrets))))
  }

  // The sealed hosts and keys do not depend on the order of the records.
  lemma EncodeSSHPermuted(a: seq<PlainRecord>, b: seq<PlainRecord>)
    requires CheckedSet(a) && multiset(a) == multiset(b)
    ensures CheckedSet(b) && EncodeSSH(a) == EncodeSSH(b)
  {
    hide Sort, Of, Side, CheckedSet;
    CheckedPermuted(a, b);
    if AllReadable(a, SSH_COLLECTIONS) {
      ReadablePermuted(a, b, SSH_COLLECTIONS);
      PermutedReads(a, b, HostList, "");
      PermutedReads(a, b, KeyList, "");
      SortReadable(a, HostList);
      SortReadable(a, KeyList);
      var hosts, keys := Sort(Of(a, HostList)), Sort(Of(a, KeyList));
      forall i | 0 <= i < |hosts|
        ensures Side(Of(a, Credentials), hosts[i].value.host.id) == Side(Of(b, Credentials), hosts[i].value.host.id)
      {
        PermutedReads(a, b, Credentials, hosts[i].value.host.id);
      }
      forall i | 0 <= i < |keys|
        ensures Side(Of(a, KeySecrets), keys[i].value.key.id) == Side(Of(b, KeySecrets), keys[i].value.key.id)
      {
        PermutedReads(a, b, KeySecrets, keys[i].value.key.id);
      }
      assert HostsIn(hosts, Of(a, Credentials)) == HostsIn(hosts, Of(b, Credentials));
      assert KeysIn(keys, Of(a, KeySecrets)) == KeysIn(keys, Of(b, KeySecrets));
    } else if AllReadable(b, SSH_COLLECTIONS) {
      ReadablePermuted(b, a, SSH_COLLECTIONS);
    }
  }

  predicate HostRecord(r: PlainRecord, hosts: seq<SealedHost>, i: nat)
    requires i < |hosts|
  {
    var h := hosts[i];
    || r == PlainRecord(HostList, h.host.id, PositionForIndex(i), HostValue(h.host))
    || (h.password != "" && r == PlainRecord(Credentials, h.host.id, "", PasswordValue(h.password)))
  }

  predicate KeyRecord(r: PlainRecord, keys: seq<SealedKey>, i: nat)
    requires i < |keys|
  {
    var k := keys[i];
    || r == PlainRecord(KeyList, k.key.id, PositionForIndex(i), KeyValue(k.key))
    || ((k.privateKey != "" || k.passphrase != "") && r == PlainRecord(KeySecrets, k.key.id, "", SecretValue(k.privateKey, k.passphrase)))
  }

  // The records of sealed hosts and keys: a password, or a private key and its
  // passphrase, has a record of its own exactly when there is one.
  lemma BundleExactly(b: Bundle, r: PlainRecord)
    ensures r in DecodeSSH(b) <==>
      (exists i :: 0 <= i < |b.hosts| && HostRecord(r, b.hosts, i)) || (exists i :: 0 <= i < |b.keys| && KeyRecord(r, b.keys, i))
  {
    hide PositionForIndex, Itemized;
    ItemizedExactly(HostItems(b.hosts));
    ItemizedExactly(KeyItems(b.keys));
    forall i | 0 <= i < |b.hosts|
      ensures From(r, HostItems(b.hosts)[i]) <==> HostRecord(r, b.hosts, i)
    {
    }
    forall i | 0 <= i < |b.keys|
      ensures From(r, KeyItems(b.keys)[i]) <==> KeyRecord(r, b.keys, i)
    {
    }
    hide From, HostItems, KeyItems, HostRecord, KeyRecord;
  }

  // Any readable records, wherever they come from: each profile seals with the
  // environment of its own record if it is opted in, and with none otherwise,
  // whatever its list record carries.
  lemma EncodedEnvs(records: seq<PlainRecord>, i: nat)
    requires CheckedSet(records) && AllReadable(records, PROFILE_COLLECTIONS) && i < |Sort(Of(records, ProfileList))|
    ensures Sort(Of(records, ProfileList))[i].value.ProfileValue?
    ensures var p := Sort(Of(records, ProfileList))[i].value.profile;
      var env := Side(Of(records, ProfileEnvs), p.id);
      && |EncodeProfiles(records).value.profiles| == |Sort(Of(records, ProfileList))|
      && EncodeProfiles(records).value.profiles[i]
         == p.(body := p.body.(env := if p.body.syncEnv && env.Some? && env.value.EnvValue? then env.value.env else map[]))
  {
    hide Sort, Of, Side, CheckedSet;
    SortReadable(records, ProfileList);
    assert Readable(Sort(Of(records, ProfileList))[i]);
  }

  lemma BundleWritten(b: Bundle)
    requires DistinctBundle(b)
    ensures Written(HostItems(b.hosts), HostList, Credentials) && Written(KeyItems(b.keys), KeyList, KeySecrets)
  {
    hide PositionForIndex;
  }

  lemma HostRecordsAre(hosts: seq<SealedHost>, r: PlainRecord)
    requires r in Itemized(HostItems(hosts))
    ensures (r.collection == HostList || r.collection == Credentials) && Readable(r)
  {
    hide PositionForIndex, Itemized;
    ItemizedFrom(HostItems(hosts), r);
  }

  lemma KeyRecordsAre(keys: seq<SealedKey>, r: PlainRecord)
    requires r in Itemized(KeyItems(keys))
    ensures (r.collection == KeyList || r.collection == KeySecrets) && Readable(r)
  {
    hide PositionForIndex, Itemized;
    ItemizedFrom(KeyItems(keys), r);
  }

  lemma BundleChecked(b: Bundle)
    requires DistinctBundle(b)
    ensures CheckedSet(DecodeSSH(b)) && AllReadable(DecodeSSH(b), SSH_COLLECTIONS)
  {
    hide Itemized, HostItems, KeyItems, Written, CheckedSet, DistinctBundle, Readable;
    var hosts, keys := HostItems(b.hosts), KeyItems(b.keys);
    var h, k := Itemized(hosts), Itemized(keys);
    BundleWritten(b);
    WrittenChecked(hosts, HostList, Credentials);
    WrittenChecked(keys, KeyList, KeySecrets);
    forall i | 0 <= i < |h|
      ensures (h[i].collection == HostList || h[i].collection == Credentials) && Readable(h[i])
    {
      HostRecordsAre(b.hosts, h[i]);
    }
    forall i | 0 <= i < |k|
      ensures (k[i].collection == KeyList || k[i].collection == KeySecrets) && Readable(k[i])
    {
      KeyRecordsAre(b.keys, k[i]);
    }
    CheckedJoin(h, k);
  }

  lemma BundleOf(b: Bundle, c: Collection)
    requires DistinctBundle(b)
    ensures c == HostList || c == Credentials ==> Of(DecodeSSH(b), c) == Of(Itemized(HostItems(b.hosts)), c)
    ensures c == KeyList || c == KeySecrets ==> Of(DecodeSSH(b), c) == Of(Itemized(KeyItems(b.keys)), c)
  {
    hide Of, Itemized, HostItems, KeyItems, DistinctBundle;
    BundleWritten(b);
    var h, k := Of(Itemized(HostItems(b.hosts)), c), Of(Itemized(KeyItems(b.keys)), c);
    OfJoin(Itemized(HostItems(b.hosts)), Itemized(KeyItems(b.keys)), c);
    ItemizedOf(HostItems(b.hosts), HostList, Credentials, c);
    ItemizedOf(KeyItems(b.keys), KeyList, KeySecrets, c);
    assert h + [] == h && [] + k == k;
  }

  // Opening sealed hosts and keys, writing them as records and encoding those
  // again gives them back in order, every password and private key with its own.
  lemma DecodeEncodeSSH(b: Bundle)
    requires DistinctBundle(b)
    ensures CheckedSet(DecodeSSH(b)) && EncodeSSH(DecodeSSH(b)) == Some(b)
  {
    hide CheckedSet, Sort, Of, Itemized, AllReadable, Side, Written;
    var records, hosts, keys := DecodeSSH(b), HostItems(b.hosts), KeyItems(b.keys);
    BundleChecked(b);
    BundleWritten(b);
    BundleOf(b, HostList);
    BundleOf(b, KeyList);
    BundleOf(b, Credentials);
    BundleOf(b, KeySecrets);
    WrittenReads(hosts, HostList, Credentials);
    WrittenReads(keys, KeyList, KeySecrets);
    var hostsBack := HostsIn(ListedOf(hosts), Of(records, Credentials));
    var keysBack := KeysIn(ListedOf(keys), Of(records, KeySecrets));
    forall i | 0 <= i < |b.hosts|
      ensures hostsBack[i] == b.hosts[i]
    {
      assert hosts[i].listed.recordID == b.hosts[i].host.id;
    }
    forall i | 0 <= i < |b.keys|
      ensures keysBack[i] == b.keys[i]
    {
      assert keys[i].listed.recordID == b.keys[i].key.id;
    }
    assert hostsBack == b.hosts && keysBack == b.keys;
  }

  // The source's loops.

  method SortPositioned(s: seq<PlainRecord>) returns (sorted: seq<PlainRecord>)
    requires Orderable(s)
    ensures Sorted(sorted) && multiset(sorted) == multiset(s)
  {
    SortIs(s);
    sorted := Sort(s);
  }

  lemma SortedIsSort(records: seq<PlainRecord>, c: Collection, sorted: seq<PlainRecord>)
    requires CheckedSet(records) && Listed(c) && Sorted(sorted) && multiset(sorted) == multiset(Of(records, c))
    ensures sorted == Sort(Of(records, c))
  {
    OfApart(records, c);
    SortIs(Of(records, c));
    forall i | 0 <= i < |sorted|
      ensures ValidPosition(sorted[i].position)
    {
      MemberOf(sorted, Of(records, c), i);
    }
    SortedUnique(sorted, Sort(Of(records, c)));
  }

  lemma OfSnoc(records: seq<PlainRecord>, i: nat, c: Collection)
    requires i < |records|
    ensures Of(records[..i + 1], c) == if records[i].collection == c then Of(records[..i], c) + [records[i]] else Of(records[..i], c)
  {
    assert records[..i + 1][..i] == records[..i];
  }

  lemma ReadableSnoc(records: seq<PlainRecord>, i: nat, cs: set<Collection>)
    requires i < |records|
    ensures AllReadable(records[..i + 1], cs) <==> AllReadable(records[..i], cs) && (records[i].collection in cs ==> Readable(records[i]))
    ensures AllReadable(records, cs) ==> AllReadable(records[..i + 1], cs)
  {
  }

  // The map a loop over side records has filled.
  ghost predicate Fills<V>(m: map<string, V>, s: seq<PlainRecord>, of: Value -> V) {
    && (forall id :: id in m <==> Side(s, id).Some?)
    && (forall id :: id in m ==> m[id] == of(Side(s, id).value))
  }

  lemma FillsSnoc<V>(m: map<string, V>, s: seq<PlainRecord>, of: Value -> V, r: PlainRecord)
    requires Fills(m, s, of)
    ensures Fills(m[r.recordID := of(r.value)], s + [r], of)
  {
  }

  function EnvOfValue(v: Value): Env { EnvIn(Some(v)) }

  // Collects the records of the profiles value; fails on the first one that
  // cannot be read.
  method CollectProfileRecords(records: seq<PlainRecord>)
    returns (ok: bool, listed: seq<PlainRecord>, environments: map<string, Env>, defaultID: string)
    ensures ok <==> AllReadable(records, PROFILE_COLLECTIONS)
    ensures ok ==> listed == Of(records, ProfileList) && defaultID == DefaultOf(Of(records, ProfileConfig))
    ensures ok ==> Fills(environments, Of(records, ProfileEnvs), EnvOfValue)
  {
    listed, environments, defaultID := [], map[], "";
    assert Fills(environments, [], EnvOfValue);
    hide Fills;
    for i := 0 to |records|
      invariant AllReadable(records[..i], PROFILE_COLLECTIONS)
      invariant listed == Of(records[..i], ProfileList) && defaultID == DefaultOf(Of(records[..i], ProfileConfig))
      invariant Fills(environments, Of(records[..i], ProfileEnvs), EnvOfValue)
    {
      var r := records[i];
      OfSnoc(records, i, ProfileList);
      OfSnoc(records, i, ProfileEnvs);
      OfSnoc(records, i, ProfileConfig);
      FillsSnoc(environments, Of(records[..i], ProfileEnvs), EnvOfValue, r);
      match r.collection
      case ProfileList =>
        if !r.value.ProfileValue? {
          return false, [], map[], "";
        }
        listed := listed + [r];
      case ProfileEnvs =>
        if !r.value.EnvValue? {
          return false, [], map[], "";
        }
        environments := environments[r.recordID := r.value.env];
      case ProfileConfig =>
        if !r.value.DefaultValue? {
          return false, [], map[], "";
        }
        defaultID := r.value.defaultID;
      case _ =>
    }
    assert records[..|records|] == records;
    ok := true;
  }

  method EncodeSealedProfiles(records: seq<PlainRecord>) returns (sealed: Option<Selection>)
    requires CheckedSet(records)
    ensures sealed == EncodeProfiles(records)
  {
    hide Of, Sort, CheckedSet, AllReadable, Sorted, Orderable;
    var ok, listed, environments, defaultID := CollectProfileRecords(records);
    if !ok {
      return None;
    }
    OfApart(records, ProfileList);
    listed := SortPositioned(listed);
    SortedIsSort(records, ProfileList, listed);
    SortReadable(records, ProfileList);
    ReadableIn(records, PROFILE_COLLECTIONS, listed);
    var plain: seq<Profile> := [];
    for i := 0 to |listed|
      invariant |plain| == i
      invariant forall k :: 0 <= k < i ==> plain[k] == Restored(listed[k].value.profile, Of(records, ProfileEnvs))
    {
      var p := listed[i].value.profile;
      if p.body.syncEnv {
        p := WithEnv(p, if p.id in environments then environments[p.id] else map[]);
      }
      plain := plain + [p];
    }
    assert plain == ProfilesIn(listed, Of(records, ProfileEnvs));
    var default := ResolveDefaultProfileID(defaultID, plain);
    var stripped := StripUnsyncedEnv(plain);
    sealed := Some(Selection(stripped, default));
  }

  // One record for each profile, and one for each shared environment.
  method WriteProfileRecords(profiles: seq<Profile>) returns (records: seq<PlainRecord>)
    ensures records == Itemized(ProfileItems(profiles))
  {
    records := [];
    for i := 0 to |profiles|
      invariant records == Itemized(ProfileItems(profiles)[..i])
    {
      var p := profiles[i];
      assert ProfileItems(profiles)[..i + 1][..i] == ProfileItems(profiles)[..i];
      records := records + [PlainRecord(ProfileList, p.id, PositionForIndex(i), ProfileValue(WithEnv(p, map[])))];
      if p.body.syncEnv && |p.body.env| != 0 {
        records := records + [PlainRecord(ProfileEnvs, p.id, "", EnvValue(p.body.env))];
      }
    }
    assert ProfileItems(profiles)[..|profiles|] == ProfileItems(profiles);
  }

  method DecodeSealedProfiles(sealed: Selection) returns (records: seq<PlainRecord>)
    ensures records == DecodeProfiles(sealed)
  {
    var profiles := FilterValidProfiles(sealed.profiles);
    records := WriteProfileRecords(profiles);
    records := records + [ConfigRecord(sealed.defaultID)];
  }

  method WriteHostRecords(hosts: seq<SealedHost>) returns (records: seq<PlainRecord>)
    ensures records == Itemized(HostItems(hosts))
  {
    records := [];
    for i := 0 to |hosts|
      invariant records == Itemized(HostItems(hosts)[..i])
    {
      var h := hosts[i];
      assert HostItems(hosts)[..i + 1][..i] == HostItems(hosts)[..i];
      records := records + [PlainRecord(HostList, h.host.id, PositionForIndex(i), HostValue(h.host))];
      if h.password != "" {
        records := records + [PlainRecord(Credentials, h.host.id, "", PasswordValue(h.password))];
      }
    }
    assert HostItems(hosts)[..|hosts|] == HostItems(hosts);
  }

  method WriteKeyRecords(keys: seq<SealedKey>) returns (records: seq<PlainRecord>)
    ensures records == Itemized(KeyItems(keys))
  {
    records := [];
    for i := 0 to |keys|
      invariant records == Itemized(KeyItems(keys)[..i])
    {
      var k := keys[i];
      assert KeyItems(keys)[..i + 1][..i] == KeyItems(keys)[..i];
      records := records + [PlainRecord(KeyList, k.key.id, PositionForIndex(i), KeyValue(k.key))];
      if k.privateKey != "" || k.passphrase != "" {
        records := records + [PlainRecord(KeySecrets, k.key.id, "", SecretValue(k.privateKey, k.passphrase))];
      }
    }
    assert KeyItems(keys)[..|keys|] == KeyItems(keys);
  }

  method DecodeSealedSSH(b: Bundle) returns (records: seq<PlainRecord>)
    ensures records == DecodeSSH(b)
  {
    var hosts := WriteHostRecords(b.hosts);
    var keys := WriteKeyRecords(b.keys);
    records := hosts + keys;
  }

  function PasswordOfValue(v: Value): string { PasswordIn(Some(v)) }

  function SecretOfValue(v: Value): Value { SecretIn(Some(v)) }

  // Collects the records of the SSH value; fails on the first one that cannot be
  // read.
  method CollectSSHRecords(records: seq<PlainRecord>)
    returns (ok: bool, hosts: seq<PlainRecord>, keys: seq<PlainRecord>, credentials: map<string, string>, secrets: map<string, Value>)
    ensures ok <==> AllReadable(records, SSH_COLLECTIONS)
    ensures ok ==> hosts == Of(records, HostList) && keys == Of(records, KeyList)
    ensures ok ==> Fills(credentials, Of(records, Credentials), PasswordOfValue) && Fills(secrets, Of(records, KeySecrets), SecretOfValue)
  {
    hosts, keys, credentials, secrets := [], [], map[], map[];
    assert AllReadable(records[..0], SSH_COLLECTIONS) && forall c :: Of(records[..0], c) == [];
    assert Fills(credentials, [], PasswordOfValue) && Fills(secrets, [], SecretOfValue);
    hide Fills, Of, AllReadable;
    for i := 0 to |records|
      invariant AllReadable(records[..i], SSH_COLLECTIONS)
      invariant hosts == Of(records[..i], HostList) && keys == Of(records[..i], KeyList)
      invariant Fills(credentials, Of(records[..i], Credentials), PasswordOfValue)
      invariant Fills(secrets, Of(records[..i], KeySecrets), SecretOfValue)
    {
      var r := records[i];
      ReadableSnoc(records, i, SSH_COLLECTIONS);
      OfSnoc(records, i, HostList);
      OfSnoc(records, i, KeyList);
      OfSnoc(records, i, Credentials);
      OfSnoc(records, i, KeySecrets);
      FillsSnoc(credentials, Of(records[..i], Credentials), PasswordOfValue, r);
      FillsSnoc(secrets, Of(records[..i], KeySecrets), SecretOfValue, r);
      if r.collection in SSH_COLLECTIONS && !Readable(r) {
        return false, [], [], map[], map[];
      }
      match r.collection
      case HostList => hosts := hosts + [r];
      case KeyList => keys := keys + [r];
      case Credentials => credentials := credentials[r.recordID := r.value.password];
      case KeySecrets => secrets := secrets[r.recordID := r.value];
      case _ =>
    }
    assert records[..|records|] == records;
    ok := true;
  }

  method EncodeSealedSSH(records: seq<PlainRecord>) returns (sealed: Option<Bundle>)
    requires CheckedSet(records)
    ensures sealed == EncodeSSH(records)
  {
    hide Of, Sort, CheckedSet, AllReadable, Sorted, Orderable;
    var ok, hosts, keys, credentials, secrets := CollectSSHRecords(records);
    if !ok {
      return None;
    }
    OfApart(records, HostList);
    OfApart(records, KeyList);
    hosts := SortPositioned(hosts);
    keys := SortPositioned(keys);
    SortedIsSort(records, HostList, hosts);
    SortedIsSort(records, KeyList, keys);
    SortReadable(records, HostList);
    SortReadable(records, KeyList);
    ReadableIn(records, SSH_COLLECTIONS, hosts);
    ReadableIn(records, SSH_COLLECTIONS, keys);
    var plainHosts: seq<SealedHost> := [];
    for i := 0 to |hosts|
      invariant |plainHosts| == i
      invariant forall n :: 0 <= n < i ==> plainHosts[n] == HostsIn(hosts, Of(records, Credentials))[n]
    {
      var h := hosts[i].value.host;
      plainHosts := plainHosts + [SealedHost(h, if h.id in credentials then credentials[h.id] else "")];
    }
    var plainKeys: seq<SealedKey> := [];
    for i := 0 to |keys|
      invariant |plainKeys| == i
      invariant forall n :: 0 <= n < i ==> plainKeys[n] == KeysIn(keys, Of(records, KeySecrets))[n]
    {
      var k := keys[i].value.key;
      var secret := if k.id in secrets then secrets[k.id] else SecretValue("", "");
      plainKeys := plainKeys + [SealedKey(k, secret.privateKey, secret.passphrase)];
    }
    assert plainHosts == HostsIn(hosts, Of(records, Credentials)) && plainKeys == KeysIn(keys, Of(records, KeySecrets));
    sealed := Some(Bundle(plainHosts, plainKeys));
  }
}
