/** Import and export of SSH hosts, SSH keys and session profiles: what a preview
    promises, what applying it writes, and the export that is read back. */
module ConfigImport {
  import opened Wrappers
  import opened Entries
  import opened Profiles

  datatype ForwardRule = ForwardRule(
    id: string, kind: string, bindAddr: string, bindPort: string, targetHost: string, targetPort: string, note: string)

  // A nil list and an empty one are the same value here.
  datatype HostBody = HostBody(
    alias: string, host: string, port: string, user: string, authKind: string, keyID: string, tags: seq<string>,
    note: string, startupCommand: string, startupDelayMs: int, identityFile: string, proxyJump: string,
    proxyCommand: string, forwards: seq<ForwardRule>)

  datatype KeyBody = KeyBody(name: string, keyType: string)

  type Host = Entry<HostBody>

  type SSHKey = Entry<KeyBody>

  function HasHost(b: HostBody): bool { Trim(b.host) != "" }

  function HasName(b: KeyBody): bool { Trim(b.name) != "" }

  datatype Action = Add | Replace | Unchanged

  datatype Section = Hosts | Vault

  datatype Key = ListKey(section: Section, id: string) | ProfileKey(id: string) | DefaultKey

  datatype Change = Change(key: Key, action: Action)

  datatype SSHPayload = SSHPayload(hosts: seq<Host>, keys: seq<SSHKey>)

  // `None` for a key that is absent or does not parse.
  datatype File = File(version: int, ssh: Option<SSHPayload>, profiles: Option<Selection>)

  const EXPORT_VERSION := 1

  datatype Config = Config(hosts: seq<Host>, keys: seq<SSHKey>, selection: Selection)

  // Hosts and keys.

  function ListAction<T(==)>(local: seq<Entry<T>>, e: Entry<T>): Action {
    var l := Lookup(local, e.id);
    if l.None? then Add else if l.value == e then Unchanged else Replace
  }

  function Actionable<T(==)>(local: seq<Entry<T>>, file: seq<Entry<T>>): seq<Entry<T>> {
    if file == [] then []
    else
      var rest, e := Actionable(local, file[..|file| - 1]), file[|file| - 1];
      if ListAction(local, e) == Unchanged then rest else rest + [e]
  }

  function PutAll<T>(s: seq<Entry<T>>, es: seq<Entry<T>>): seq<Entry<T>> {
    if es == [] then s else Put(PutAll(s, es[..|es| - 1]), es[|es| - 1])
  }

  function ListImport<T(==)>(local: seq<Entry<T>>, file: seq<Entry<T>>): seq<Entry<T>> {
    PutAll(local, Actionable(local, file))
  }

  function TargetChanged(was: HostBody, now: HostBody): bool {
    was.host != now.host || was.port != now.port || was.user != now.user
  }

  // The hosts whose stored credential is cleared.
  function Moved(local: seq<Host>, es: seq<Host>): seq<string> {
    if es == [] then []
    else
      var rest, e := Moved(local, es[..|es| - 1]), es[|es| - 1];
      var l := Lookup(local, e.id);
      if l.Some? && TargetChanged(l.value.body, e.body) then rest + [e.id] else rest
  }

  function ListChanges<T(==)>(local: seq<Entry<T>>, file: seq<Entry<T>>, section: Section): seq<Change> {
    seq(|file|, i requires 0 <= i < |file| => Change(ListKey(section, file[i].id), ListAction(local, file[i])))
  }

  // Profiles.

  function MergeCandidate(local: Profile, p: Profile): Profile {
    if p.body.env == map[] && !p.body.syncEnv then WithEnv(p, local.body.env) else p
  }

  function ProfileAction(local: seq<Profile>, p: Profile): Action {
    var l := Lookup(local, p.id);
    if l.None? then Add else if l.value == MergeCandidate(l.value, p) then Unchanged else Replace
  }

  function DefaultAction(local: string, file: string): Action {
    if local == "" then Add else if local != file then Replace else Unchanged
  }

  // The sharing flag follows the environment that the merge will keep.
  function PinOne(local: seq<Profile>, p: Profile): Profile {
    var l := Lookup(local, p.id);
    if p.body.env == map[] && l.Some? && l.value.body.env != map[]
    then p.(body := p.body.(syncEnv := l.value.body.syncEnv)) else p
  }

  function PinAll(local: seq<Profile>, file: seq<Profile>): seq<Profile> {
    seq(|file|, i requires 0 <= i < |file| => PinOne(local, file[i]))
  }

  function Without(s: seq<Profile>, ids: set<string>): seq<Profile> {
    if s == [] then []
    else
      var rest, p := Without(s[..|s| - 1], ids), s[|s| - 1];
      if p.id in ids then rest else rest + [p]
  }

  function Merged(local: seq<Profile>, file: seq<Profile>): seq<Profile> {
    Merge(local, PinAll(local, file) + Without(local, Ids(file)))
  }

  function DefaultChanges(local: Selection, file: Selection): bool {
    file.defaultID != "" && DefaultAction(local.defaultID, file.defaultID) != Unchanged
  }

  function AnyActionable(local: seq<Profile>, file: seq<Profile>): bool {
    exists i :: 0 <= i < |file| && ProfileAction(local, file[i]) != Unchanged
  }

  datatype Applied<A> = Applied(value: A, ok: bool)

  // What applying a profiles payload leaves; the payload's list is validated.
  function ImportProfiles(local: Selection, file: Selection): Applied<Selection> {
    var merged := Merged(local.profiles, file.profiles);
    if !AnyActionable(local.profiles, file.profiles) && !DefaultChanges(local, file) then Applied(local, true)
    else if !Stored(merged, Named) then Applied(local, false)
    else
      var kept := Resolve(local.defaultID, merged);
      var wanted := Resolve(file.defaultID, merged);
      Applied(Selection(merged, if DefaultChanges(local, file) && wanted != "" then wanted else kept), true)
  }

  function ValidSelection(s: Selection): Selection {
    s.(profiles := Validated(s.profiles, Named))
  }

  function ImportSSH(c: Config, p: SSHPayload): Config {
    c.(hosts := ListImport(c.hosts, Validated(p.hosts, HasHost)), keys := ListImport(c.keys, Validated(p.keys, HasName)))
  }

  // What applying a file leaves; not `ok` when the version is not read, or when
  // the profile list is refused after the hosts have been written.
  function Import(c: Config, f: File): Applied<Config> {
    if f.version != EXPORT_VERSION then Applied(c, false)
    else
      var c1 := if f.ssh.Some? then ImportSSH(c, f.ssh.value) else c;
      if f.profiles.None? then Applied(c1, true)
      else
        var s := ImportProfiles(c.selection, ValidSelection(f.profiles.value));
        Applied(c1.(selection := s.value), s.ok)
  }

  function PreviewSelection(local: Selection, file: Selection): seq<Change> {
    seq(|file.profiles|, i requires 0 <= i < |file.profiles| =>
      Change(ProfileKey(file.profiles[i].id), ProfileAction(local.profiles, file.profiles[i])))
    + if file.defaultID == "" then [] else [Change(DefaultKey, DefaultAction(local.defaultID, file.defaultID))]
  }

  function PreviewSSH(c: Config, p: SSHPayload): seq<Change> {
    ListChanges(c.hosts, Validated(p.hosts, HasHost), Hosts)
    + ListChanges(c.keys, Validated(p.keys, HasName), Vault)
  }

  function Preview(c: Config, f: File): Option<seq<Change>> {
    if f.version != EXPORT_VERSION then None
    else Some(
      (if f.profiles.None? then [] else PreviewSelection(c.selection, ValidSelection(f.profiles.value)))
      + (if f.ssh.None? then [] else PreviewSSH(c, f.ssh.value)))
  }

  function Export(c: Config, includeLocalEnv: bool): File {
    var profiles := if includeLocalEnv then c.selection.profiles else Strip(c.selection.profiles);
    File(EXPORT_VERSION,
         if |c.hosts| > 0 || |c.keys| > 0 then Some(SSHPayload(c.hosts, c.keys)) else None,
         if |profiles| > 0 || c.selection.defaultID != "" then Some(Selection(profiles, c.selection.defaultID)) else None)
  }
}
