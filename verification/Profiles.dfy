/** Session profiles: the environment rule for what leaves a machine and what a
    merge keeps, and the pull of another device's list. */
module Profiles {
  import opened Wrappers
  import opened Entries

  // A nil environment and an empty one are the same value here.
  type Env = map<string, string>

  datatype ProfileBody = ProfileBody(name: string, shell: string, cwd: string, startupCmd: string, env: Env, syncEnv: bool)

  type Profile = Entry<ProfileBody>

  function Named(b: ProfileBody): bool {
    Trim(b.name) != ""
  }

  function WithEnv(p: Profile, env: Env): Profile {
    p.(body := p.body.(env := env))
  }

  function StripOne(p: Profile): Profile {
    if p.body.syncEnv then p else WithEnv(p, map[])
  }

  function Strip(ps: seq<Profile>): (r: seq<Profile>)
    ensures |r| == |ps|
  {
    seq(|ps|, i requires 0 <= i < |ps| => StripOne(ps[i]))
  }

  method StripUnsyncedEnv(ps: seq<Profile>) returns (out: seq<Profile>)
    ensures out == Strip(ps)
  {
    out := [];
    for i := 0 to |ps|
      invariant out == Strip(ps[..i])
    {
      var p := ps[i];
      if !p.body.syncEnv {
        p := WithEnv(p, map[]);
      }
      out := out + [p];
    }
    assert ps[..|ps|] == ps;
  }

  function EnvOf(local: seq<Profile>, id: string): Env {
    var l := Lookup(local, id);
    if l.Some? then l.value.body.env else map[]
  }

  // An incoming profile without an environment takes the local one of its ID.
  function MergeOne(local: seq<Profile>, p: Profile): Profile {
    if p.body.env == map[] then WithEnv(p, EnvOf(local, p.id)) else p
  }

  function Merge(local: seq<Profile>, incoming: seq<Profile>): seq<Profile> {
    seq(|incoming|, i requires 0 <= i < |incoming| => MergeOne(local, incoming[i]))
  }

  method MergeProfiles(local: seq<Profile>, incoming: seq<Profile>) returns (out: seq<Profile>)
    ensures out == Merge(local, incoming)
  {
    var localByID := ByID(local);
    out := [];
    for i := 0 to |incoming|
      invariant out == Merge(local, incoming[..i])
    {
      var p := incoming[i];
      if |p.body.env| == 0 && p.id in localByID && |localByID[p.id].body.env| > 0 {
        p := WithEnv(p, localByID[p.id].body.env);
      }
      out := out + [p];
    }
    assert incoming[..|incoming|] == incoming;
  }

  // The loop of the inbound validator, which keeps the IDs as they came.
  method FilterValidProfiles(ps: seq<Profile>) returns (out: seq<Profile>)
    ensures out == Filtered(ps, Named)
  {
    out := [];
    var seen: set<string> := {};
    for i := 0 to |ps|
      invariant out == Filtered(ps[..i], Named) && seen == TrimmedIds(out)
    {
      assert ps[..i + 1][..i] == ps[..i];
      var id := TrimSpace(ps[i].id);
      var name := TrimSpace(ps[i].body.name);
      if id != "" && name != "" && id !in seen {
        TrimmedIdsSnoc(out, ps[i]);
        seen := seen + {id};
        out := out + [ps[i]];
      }
    }
    assert ps[..|ps|] == ps;
  }

  function Resolve(id: string, ps: seq<Profile>): string {
    if id != "" && id in Ids(ps) then id else ""
  }

  method ResolveDefaultProfileID(id: string, ps: seq<Profile>) returns (r: string)
    ensures r == Resolve(id, ps)
  {
    if id == "" {
      return "";
    }
    for i := 0 to |ps|
      invariant forall k :: 0 <= k < i ==> ps[k].id != id
    {
      if ps[i].id == id {
        return id;
      }
    }
    return "";
  }

  datatype Selection = Selection(profiles: seq<Profile>, defaultID: string)

  // What a device seals for the others, and what a device makes of it.
  function Pushed(s: Selection): Selection {
    s.(profiles := Strip(s.profiles))
  }

  function Pulled(local: Selection, remote: Selection): Selection {
    var merged := Merge(local.profiles, Filtered(remote.profiles, Named));
    Selection(merged, Resolve(remote.defaultID, merged))
  }

  method Pull(local: Selection, remote: Selection) returns (r: Selection)
    ensures r == Pulled(local, remote)
  {
    var incoming := FilterValidProfiles(remote.profiles);
    var merged := MergeProfiles(local.profiles, incoming);
    var default := ResolveDefaultProfileID(remote.defaultID, merged);
    r := Selection(merged, default);
  }

  // A default names a stored profile, or is empty.
  predicate Resolved(s: Selection) {
    s.defaultID == "" || s.defaultID in Ids(s.profiles)
  }

  // The same profiles by ID and name, in the same order.
  predicate Alike(a: seq<Profile>, b: seq<Profile>) {
    && |a| == |b|
    && forall i :: 0 <= i < |a| ==> a[i].id == b[i].id && a[i].body.name == b[i].body.name
  }

  lemma AlikeIds(a: seq<Profile>, b: seq<Profile>)
    requires Alike(a, b)
    ensures Ids(a) == Ids(b)
  {
  }

  lemma AlikeStored(a: seq<Profile>, b: seq<Profile>)
    requires Alike(a, b) && Stored(a, Named)
    ensures Stored(b, Named) && Filtered(b, Named) == b
  {
    assert forall i :: 0 <= i < |a| ==> Acceptable(a[i], Named) && Acceptable(b[i], Named);
    FilteredKeeps(b, Named);
  }

  lemma StoredDistinct(ps: seq<Profile>)
    requires Stored(ps, Named)
    ensures Distinct(ps)
  {
  }

  // Every pull leaves a list SetProfiles would accept, whatever came in, and a
  // default that resolves.
  lemma PullStores(local: Selection, remote: Selection)
    ensures Stored(Pulled(local, remote).profiles, Named) && Resolved(Pulled(local, remote))
  {
    FilteredIsStored(remote.profiles, Named);
    AlikeStored(Filtered(remote.profiles, Named), Pulled(local, remote).profiles);
  }

  // A pull, profile by profile: the valid incoming ones in their order, each with
  // its own environment or, if it brings none, the stored one of its ID; and the
  // incoming default if one of them has that ID, else none.
  lemma PulledExactly(local: Selection, remote: Selection)
    ensures var incoming, r := Filtered(remote.profiles, Named), Pulled(local, remote);
      && |r.profiles| == |incoming|
      && (forall i :: 0 <= i < |incoming| ==>
            var p, l := incoming[i], Lookup(local.profiles, incoming[i].id);
            r.profiles[i] == p.(body := p.body.(env := if p.body.env == map[] && l.Some? then l.value.body.env else p.body.env)))
      && r.defaultID == if remote.defaultID != "" && exists i :: 0 <= i < |incoming| && incoming[i].id == remote.defaultID
                        then remote.defaultID else ""
  {
    hide Filtered, IndexOf;
    var incoming, r := Filtered(remote.profiles, Named), Pulled(local, remote);
    assert forall i :: 0 <= i < |incoming| ==> r.profiles[i].id == incoming[i].id;
  }

  // What one machine sends and another stores, merges and sends on: by
  // position, the sender's own list with stripped environments, except that an
  // opted-in profile without one picks up the other machine's.
  lemma Relayed(a: Selection, b: Selection)
    requires Stored(a.profiles, Named)
    ensures var r := Pushed(Pulled(b, Pushed(a))).profiles;
      && |r| == |a.profiles|
      && forall i :: 0 <= i < |r| ==>
           r[i] == if !a.profiles[i].body.syncEnv then WithEnv(a.profiles[i], map[])
                   else MergeOne(b.profiles, a.profiles[i])
  {
    AlikeStored(a.profiles, Strip(a.profiles));
  }

  function RoundTrip(a: Selection, b: Selection): Selection {
    Pulled(a, Pushed(Pulled(b, Pushed(a))))
  }

  // A pushes, any machine B merges and pushes, and A merges again: A's list is
  // back, position by position, but for profiles A opted in with no environment
  // of its own, which take B's.
  lemma RoundTripAt(a: Selection, b: Selection, i: nat)
    requires Stored(a.profiles, Named) && i < |a.profiles|
    ensures |RoundTrip(a, b).profiles| == |a.profiles|
    ensures RoundTrip(a, b).profiles[i] == if a.profiles[i].body.syncEnv then MergeOne(b.profiles, a.profiles[i]) else a.profiles[i]
  {
    hide Stored, Filtered;
    var sent := Pushed(Pulled(b, Pushed(a))).profiles;
    Relayed(a, b);
    assert Alike(a.profiles, sent);
    AlikeStored(a.profiles, sent);
    StoredDistinct(a.profiles);
    IndexIs(a.profiles, i);
  }

  // The default travels with the list.
  lemma RoundTripDefault(a: Selection, b: Selection)
    requires Stored(a.profiles, Named) && Resolved(a)
    ensures RoundTrip(a, b).defaultID == a.defaultID && |RoundTrip(a, b).profiles| == |a.profiles|
  {
    hide Stored, Filtered;
    var merged := Pulled(b, Pushed(a));
    Relayed(a, b);
    assert Alike(a.profiles, Pushed(merged).profiles);
    AlikeStored(a.profiles, Pushed(merged).profiles);
    AlikeIds(a.profiles, merged.profiles);
    AlikeIds(a.profiles, RoundTrip(a, b).profiles);
  }

  // Exactly when the whole selection comes back.
  lemma RoundTripIdentityExactly(a: Selection, b: Selection)
    requires Stored(a.profiles, Named) && Resolved(a)
    ensures RoundTrip(a, b) == a <==>
      forall i :: 0 <= i < |a.profiles| && a.profiles[i].body.syncEnv && a.profiles[i].body.env == map[] ==>
        EnvOf(b.profiles, a.profiles[i].id) == map[]
  {
    hide Stored, Filtered, RoundTrip, EnvOf;
    RoundTripDefault(a, b);
    forall i | 0 <= i < |a.profiles|
      ensures RoundTrip(a, b).profiles[i] == a.profiles[i] <==>
        (a.profiles[i].body.syncEnv && a.profiles[i].body.env == map[] ==> EnvOf(b.profiles, a.profiles[i].id) == map[])
    {
      RoundTripAt(a, b, i);
    }
    assert RoundTrip(a, b).profiles == a.profiles <==>
      forall i :: 0 <= i < |a.profiles| ==> RoundTrip(a, b).profiles[i] == a.profiles[i];
  }

  // An environment that a device would share although it was never opted in
  // here.
  predicate Promoted(local: seq<Profile>, p: Profile) {
    var l := Lookup(local, p.id);
    l.Some? && !l.value.body.syncEnv && l.value.body.env != map[] && StripOne(p).body.env == l.value.body.env
  }

  // A pull turns a private environment into a shared one exactly when the other
  // device opted the profile in and sent no environment for it, or sent that
  // very environment itself.
  lemma PullPromotesExactly(local: Selection, remote: Selection, i: nat)
    requires i < |Filtered(remote.profiles, Named)|
    ensures var p, l := Filtered(remote.profiles, Named)[i], Lookup(local.profiles, Filtered(remote.profiles, Named)[i].id);
      Promoted(local.profiles, Pulled(local, remote).profiles[i]) <==>
      && l.Some? && !l.value.body.syncEnv && l.value.body.env != map[]
      && p.body.syncEnv && (p.body.env == map[] || p.body.env == l.value.body.env)
  {
  }

  // Both at a concrete input: a profile opted into sharing without an environment
  // on one machine, and private with one on the other.

  function Sample(syncEnv: bool, env: Env): Profile {
    Entry("p", ProfileBody("n", "", "", "", env, syncEnv))
  }

  lemma SampleStored(syncEnv: bool, env: Env)
    ensures Stored([Sample(syncEnv, env)], Named) && Filtered([Sample(syncEnv, env)], Named) == [Sample(syncEnv, env)]
  {
    assert Trim("p") == "p" && Trim("n") == "n";
    FilteredKeeps([Sample(syncEnv, env)], Named);
  }

  lemma SampleLookup(syncEnv: bool, env: Env)
    ensures Lookup([Sample(syncEnv, env)], "p") == Some(Sample(syncEnv, env)) && EnvOf([Sample(syncEnv, env)], "p") == env
  {
    IndexIs([Sample(syncEnv, env)], 0);
  }

  lemma RoundTripDiffersOnce()
    ensures var a, b := Selection([Sample(true, map[])], ""), Selection([Sample(false, map["K" := "v"])], "");
      Stored(a.profiles, Named) && Resolved(a) && RoundTrip(a, b) != a
  {
    var a, b := Selection([Sample(true, map[])], ""), Selection([Sample(false, map["K" := "v"])], "");
    hide Stored, RoundTrip, Lookup, Trim;
    SampleStored(true, map[]);
    SampleLookup(false, map["K" := "v"]);
    RoundTripIdentityExactly(a, b);
    assert "K" in EnvOf(b.profiles, a.profiles[0].id);
  }

  lemma PullPromotesOnce()
    ensures var local, remote := Selection([Sample(false, map["K" := "v"])], ""), Selection([Sample(true, map[])], "");
      |Pulled(local, remote).profiles| == 1 && Promoted(local.profiles, Pulled(local, remote).profiles[0])
  {
    var local, remote := Selection([Sample(false, map["K" := "v"])], ""), Selection([Sample(true, map[])], "");
    hide Stored, Lookup, Trim, Filtered;
    SampleStored(true, map[]);
    SampleLookup(false, map["K" := "v"]);
    PullPromotesExactly(local, remote, 0);
    assert "K" in map["K" := "v"];
  }
}
