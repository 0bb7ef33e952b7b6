/** Version vectors over acknowledgements: what every active member has, and what
    some member still misses. A missing entry counts as zero. */
module Vectors {
  type Actor = string

  type Vector = map<Actor, nat>

  function At(v: Vector, a: Actor): nat {
    if a in v then v[a] else 0
  }

  ghost predicate Below(v: Vector, w: Vector) {
    forall a :: At(v, a) <= At(w, a)
  }

  // Without zero entries, as cloning a vector leaves it.
  predicate Normal(v: Vector) {
    forall a :: a in v ==> v[a] > 0
  }

  lemma NormalUnique(v: Vector, w: Vector)
    requires Normal(v) && Normal(w) && Below(v, w) && Below(w, v)
    ensures v == w
  {
    assert forall a :: At(v, a) <= At(w, a) && At(w, a) <= At(v, a);
    assert forall a :: a in v ==> At(w, a) > 0;
    assert forall a :: a in w ==> At(v, a) > 0;
  }

  // The acknowledged vector recorded for a member, if any.
  function Acked(acks: map<string, Vector>, member: string): Vector {
    if member in acks then acks[member] else map[]
  }

  // Lower bounds of the local vector and of what each active remote member has
  // acknowledged.
  ghost predicate Common(v: Vector, local: Vector, members: set<string>, self: string, acks: map<string, Vector>) {
    && Below(v, local)
    && forall m :: m in members && m != self ==> Below(v, Acked(acks, m))
  }

  // The greatest of them, without zero entries.
  ghost predicate Stable(v: Vector, local: Vector, members: set<string>, self: string, acks: map<string, Vector>) {
    && Normal(v) && Common(v, local, members, self, acks)
    && forall w :: Common(w, local, members, self, acks) ==> Below(w, v)
  }

  function Lower(v: Vector, ack: Vector): Vector {
    map a | a in v && At(ack, a) != 0 :: if ack[a] < v[a] then ack[a] else v[a]
  }

  // Lowers a vector to an acknowledged one, entry by entry in any order.
  method LowerInPlace(v: Vector, ack: Vector) returns (r: Vector)
    ensures r == Lower(v, ack)
  {
    r := v;
    var todo := v.Keys;
    while todo != {}
      invariant todo <= v.Keys && todo <= r.Keys
      invariant forall a :: a in todo ==> r[a] == v[a]
      invariant forall a :: a in r && a !in todo ==> a in Lower(v, ack) && r[a] == Lower(v, ack)[a]
      invariant forall a :: a in Lower(v, ack) ==> a in r
      invariant r.Keys <= v.Keys
      decreases |todo|
    {
      var actor :| actor in todo;
      todo := todo - {actor};
      if At(ack, actor) == 0 {
        r := r - {actor};
      } else if ack[actor] < r[actor] {
        r := r[actor := ack[actor]];
      }
    }
  }

  lemma LowerIsMeet(v: Vector, ack: Vector)
    requires Normal(v)
    ensures Normal(Lower(v, ack)) && Below(Lower(v, ack), v) && Below(Lower(v, ack), ack)
    ensures forall w :: Below(w, v) && Below(w, ack) ==> Below(w, Lower(v, ack))
  {
  }

  function SetOf(s: seq<string>): set<string> {
    set m | m in s
  }

  // The stable vector, computed member by member.
  method StableConfigVector(local: Vector, active: seq<string>, self: string, acks: map<string, Vector>) returns (stable: Vector)
    requires Normal(local)
    ensures Stable(stable, local, SetOf(active), self, acks)
  {
    stable := local;
    for i := 0 to |active|
      invariant Stable(stable, local, SetOf(active[..i]), self, acks)
    {
      assert SetOf(active[..i + 1]) == SetOf(active[..i]) + {active[i]};
      if active[i] == self {
        continue;
      }
      var acknowledged := if active[i] in acks then acks[active[i]] else map[];
      LowerIsMeet(stable, acknowledged);
      StableStep(stable, local, SetOf(active[..i]), self, acks, active[i]);
      stable := LowerInPlace(stable, acknowledged);
    }
    assert active[..|active|] == active;
  }

  lemma StableStep(v: Vector, local: Vector, members: set<string>, self: string, acks: map<string, Vector>, m: string)
    requires Stable(v, local, members, self, acks) && m != self
    ensures Stable(Lower(v, Acked(acks, m)), local, members + {m}, self, acks)
  {
    var ack := Acked(acks, m);
    var r := Lower(v, ack);
    LowerIsMeet(v, ack);
    forall n | n in members + {m} && n != self
      ensures Below(r, Acked(acks, n))
    {
      if n in members {
        BelowTransitive(r, v, Acked(acks, n));
      }
    }
    BelowTransitive(r, v, local);
    forall w | Common(w, local, members + {m}, self, acks)
      ensures Below(w, r)
    {
      assert m in members + {m};
      assert Common(w, local, members, self, acks);
    }
  }

  lemma BelowTransitive(u: Vector, v: Vector, w: Vector)
    requires Below(u, v) && Below(v, w)
    ensures Below(u, w)
  {
  }

  // There is one stable vector, whatever the order of the members or of the
  // entries.
  lemma StableUnique(v: Vector, w: Vector, local: Vector, members: set<string>, self: string, acks: map<string, Vector>)
    requires Stable(v, local, members, self, acks) && Stable(w, local, members, self, acks)
    ensures v == w
  {
    NormalUnique(v, w);
  }

  // More acknowledged, by fewer members: the stable vector only grows.
  lemma StableMonotone(v: Vector, w: Vector, local: Vector, more: set<string>, fewer: set<string>, self: string,
                       before: map<string, Vector>, after: map<string, Vector>)
    requires fewer <= more && forall m :: Below(Acked(before, m), Acked(after, m))
    requires Stable(v, local, more, self, before) && Stable(w, local, fewer, self, after)
    ensures Below(v, w)
  {
  }

  // An operation is stable exactly when the device has it and every active
  // remote member has acknowledged it.
  lemma StableExactly(v: Vector, local: Vector, members: set<string>, self: string, acks: map<string, Vector>, a: Actor, n: nat)
    requires Stable(v, local, members, self, acks) && n > 0
    ensures n <= At(v, a) <==> n <= At(local, a) && forall m :: m in members && m != self ==> n <= At(Acked(acks, m), a)
    ensures n <= At(v, a) <==>
      && a in local && n <= local[a]
      && forall m :: m in members && m != self ==> m in acks && a in acks[m] && n <= acks[m][a]
  {
    assert forall m :: n <= At(Acked(acks, m), a) <==> m in acks && a in acks[m] && n <= acks[m][a];
    if n <= At(local, a) && forall m :: m in members && m != self ==> n <= At(Acked(acks, m), a) {
      var w: Vector := map[a := n];
      assert Common(w, local, members, self, acks);
      assert At(w, a) <= At(v, a);
    }
  }

  // The status: merged acknowledgements and the operations none of them covers.

  function MergeOf(v: Vector, w: Vector): Vector {
    map a | a in v.Keys + w.Keys :: if At(w, a) > At(v, a) then At(w, a) else At(v, a)
  }

  ghost function Sum(v: Vector): nat
    decreases |v|
  {
    if v == map[] then 0
    else
      var a :| a in v;
      v[a] + Sum(v - {a})
  }

  // The sum does not depend on the order the entries are visited in.
  lemma {:induction false} SumRemove(v: Vector, a: Actor)
    requires a in v
    ensures Sum(v) == v[a] + Sum(v - {a})
    decreases |v|
  {
    var b :| b in v && Sum(v) == v[b] + Sum(v - {b});
    if a != b {
      SumRemove(v - {b}, a);
      SumRemove(v - {a}, b);
      assert (v - {b}) - {a} == (v - {a}) - {b};
    }
  }

  function Uncovered(local: Vector, merged: Vector): Vector {
    map a | a in local :: if local[a] > At(merged, a) then local[a] - At(merged, a) else 0
  }

  function Covered(local: Vector, merged: Vector): Vector {
    map a | a in local :: if local[a] > At(merged, a) then At(merged, a) else local[a]
  }

  lemma {:induction false} SumSplit(whole: Vector, part: Vector, rest: Vector)
    requires part.Keys == whole.Keys && rest.Keys == whole.Keys && forall a :: a in whole ==> part[a] + rest[a] == whole[a]
    ensures Sum(part) + Sum(rest) == Sum(whole)
    decreases |whole|
  {
    if whole == map[] {
      assert part == map[] && rest == map[];
    } else {
      var a :| a in whole;
      SumSplit(whole - {a}, part - {a}, rest - {a});
      SumRemove(whole, a);
      SumRemove(part, a);
      SumRemove(rest, a);
    }
  }

  // Operations no member is known to have, plus those some member has, are the
  // local operations.
  lemma PendingPlusCovered(local: Vector, merged: Vector)
    ensures Sum(Uncovered(local, merged)) + Sum(Covered(local, merged)) == Sum(local)
  {
    SumSplit(local, Uncovered(local, merged), Covered(local, merged));
  }

  lemma {:induction false} SumZero(v: Vector)
    ensures Sum(v) == 0 <==> forall a :: a in v ==> v[a] == 0
    decreases |v|
  {
    if v != map[] {
      var a :| a in v;
      SumRemove(v, a);
      SumZero(v - {a});
      assert forall b :: b in v ==> b == a || (b in v - {a} && (v - {a})[b] == v[b]);
      assert forall b :: b in v - {a} ==> b in v;
    }
  }

  // The operations of each actor between two counts.
  ghost function Between(low: Vector, high: Vector): set<(Actor, nat)> {
    set a, n: nat | a in high && At(low, a) < n <= high[a] :: (a, n)
  }

  ghost function OfActor(a: Actor, low: nat, high: nat): set<(Actor, nat)> {
    set n | low < n <= high :: (a, n)
  }

  lemma {:induction false} OfActorCounts(a: Actor, low: nat, high: nat)
    ensures |OfActor(a, low, high)| == if high > low then high - low else 0
    decreases high
  {
    if high <= low {
      assert OfActor(a, low, high) == {};
    } else {
      OfActorCounts(a, low, high - 1);
      assert OfActor(a, low, high) == OfActor(a, low, high - 1) + {(a, high)};
    }
  }

  lemma BetweenSplits(local: Vector, merged: Vector, a: Actor)
    requires a in local
    ensures Between(merged, local) == Between(merged, local - {a}) + OfActor(a, At(merged, a), local[a])
    ensures Between(merged, local - {a}) !! OfActor(a, At(merged, a), local[a])
  {
    var rest := local - {a};
    hide At;
    assert forall b :: b in local <==> b in rest || b == a;
    assert forall b :: b in rest ==> rest[b] == local[b] && b != a;
  }

  lemma UncoveredWithout(local: Vector, merged: Vector, a: Actor)
    requires a in local
    ensures Uncovered(local, merged) - {a} == Uncovered(local - {a}, merged)
  {
  }

  // The sum of the uncovered counts is the number of operations that are not
  // covered; with nothing covered, the number of all of them.
  lemma {:induction false} UncoveredCounts(local: Vector, merged: Vector)
    ensures Sum(Uncovered(local, merged)) == |Between(merged, local)|
    decreases |local|
  {
    if local == map[] {
      assert Uncovered(local, merged) == map[] && Between(merged, local) == {};
    } else {
      var a :| a in local;
      UncoveredCounts(local - {a}, merged);
      SumRemove(Uncovered(local, merged), a);
      UncoveredWithout(local, merged, a);
      OfActorCounts(a, At(merged, a), local[a]);
      BetweenSplits(local, merged, a);
      hide Sum, Between, OfActor, At;
    }
  }

  lemma LocalCounts(local: Vector)
    ensures Sum(local) == |Between(map[], local)|
  {
    UncoveredCounts(local, map[]);
    assert Uncovered(local, map[]) == local;
  }

  // A member's recorded exchange.
  datatype Peer = Peer(acknowledged: Vector, lastExchangeAt: int)

  predicate Exchanging(peers: map<string, Peer>, self: string, m: string) {
    m != self && m in peers && peers[m].lastExchangeAt != 0
  }

  // The least vector above what each exchanging member has acknowledged.
  ghost predicate MergedAcks(v: Vector, members: set<string>, self: string, peers: map<string, Peer>) {
    && (forall m :: m in members && Exchanging(peers, self, m) ==> Below(peers[m].acknowledged, v))
    && (forall w :: (forall m :: m in members && Exchanging(peers, self, m) ==> Below(peers[m].acknowledged, w)) ==> Below(v, w))
  }

  method MergeInPlace(v: Vector, other: Vector) returns (r: Vector)
    ensures forall a :: At(r, a) == At(MergeOf(v, other), a)
  {
    r := v;
    var todo := other.Keys;
    while todo != {}
      invariant todo <= other.Keys
      invariant forall a :: a !in todo ==> At(r, a) == At(MergeOf(v, other), a)
      invariant forall a :: a in todo ==> At(r, a) == At(v, a)
      decreases |todo|
    {
      var actor :| actor in todo;
      todo := todo - {actor};
      if other[actor] > At(r, actor) {
        r := r[actor := other[actor]];
      }
    }
  }

  lemma MergeStep(v: Vector, r: Vector, members: set<string>, self: string, peers: map<string, Peer>, m: string)
    requires MergedAcks(v, members, self, peers) && Exchanging(peers, self, m)
    requires forall a :: At(r, a) == At(MergeOf(v, peers[m].acknowledged), a)
    ensures MergedAcks(r, members + {m}, self, peers)
  {
    assert Below(v, r) && Below(peers[m].acknowledged, r);
    forall n | n in members + {m} && Exchanging(peers, self, n)
      ensures Below(peers[n].acknowledged, r)
    {
      if n in members {
        BelowTransitive(peers[n].acknowledged, v, r);
      }
    }
    forall w | forall n :: n in members + {m} && Exchanging(peers, self, n) ==> Below(peers[n].acknowledged, w)
      ensures Below(r, w)
    {
      assert forall n :: n in members ==> n in members + {m};
      assert m in members + {m};
      assert Below(v, w) && Below(peers[m].acknowledged, w);
      forall a
        ensures At(r, a) <= At(w, a)
      {
        assert At(v, a) <= At(w, a) && At(peers[m].acknowledged, a) <= At(w, a);
      }
    }
  }

  // Sums the entries in any order.
  method Total(v: Vector) returns (n: nat)
    ensures n == Sum(v)
  {
    n := 0;
    var todo := v.Keys;
    assert (map a | a in v && a !in todo :: v[a]) == map[];
    while todo != {}
      invariant todo <= v.Keys && n == Sum(map a | a in v && a !in todo :: v[a])
      decreases |todo|
    {
      var actor :| actor in todo;
      ghost var done := map a | a in v && a !in todo - {actor} :: v[a];
      SumRemove(done, actor);
      assert done - {actor} == map a | a in v && a !in todo :: v[a];
      todo := todo - {actor};
      n := n + v[actor];
    }
    assert (map a | a in v && a !in todo :: v[a]) == v;
  }

  method ConfigSyncStatus(local: Vector, active: seq<string>, self: string, peers: map<string, Peer>)
    returns (localOperations: nat, pendingOperations: nat, acknowledged: Vector)
    ensures MergedAcks(acknowledged, SetOf(active), self, peers)
    ensures localOperations == Sum(local) && pendingOperations == Sum(Uncovered(local, acknowledged))
  {
    localOperations := Total(local);
    acknowledged := map[];
    for i := 0 to |active|
      invariant MergedAcks(acknowledged, SetOf(active[..i]), self, peers)
    {
      var m := active[i];
      assert SetOf(active[..i + 1]) == SetOf(active[..i]) + {m};
      if m == self || m !in peers || peers[m].lastExchangeAt == 0 {
        continue;
      }
      ghost var before := acknowledged;
      acknowledged := MergeInPlace(acknowledged, peers[m].acknowledged);
      MergeStep(before, acknowledged, SetOf(active[..i]), self, peers, m);
    }
    assert active[..|active|] == active;
    pendingOperations := Total(Uncovered(local, acknowledged));
  }

  // Nothing is pending exactly when each local operation has been acknowledged
  // by some exchanging member.
  lemma NothingPendingExactly(local: Vector, merged: Vector, members: set<string>, self: string, peers: map<string, Peer>)
    requires MergedAcks(merged, members, self, peers) && Normal(local)
    ensures Sum(Uncovered(local, merged)) == 0 <==>
      forall a :: a in local ==> exists m :: m in members && Exchanging(peers, self, m) && At(peers[m].acknowledged, a) >= local[a]
  {
    SumZero(Uncovered(local, merged));
    forall a | a in local
      ensures At(merged, a) >= local[a] <==>
        exists m :: m in members && Exchanging(peers, self, m) && At(peers[m].acknowledged, a) >= local[a]
    {
      MergedReaches(merged, members, self, peers, a, local[a]);
    }
    assert forall a :: a in local ==> (Uncovered(local, merged)[a] == 0 <==> At(merged, a) >= local[a]);
    assert Uncovered(local, merged).Keys == local.Keys;
  }

  // The merged vector reaches a count only where some member does.
  lemma MergedReaches(merged: Vector, members: set<string>, self: string, peers: map<string, Peer>, a: Actor, n: nat)
    requires MergedAcks(merged, members, self, peers) && n > 0
    ensures At(merged, a) >= n <==> exists m :: m in members && Exchanging(peers, self, m) && At(peers[m].acknowledged, a) >= n
  {
    if forall m :: m in members && Exchanging(peers, self, m) ==> At(peers[m].acknowledged, a) < n {
      var w := merged[a := n - 1];
      forall m | m in members && Exchanging(peers, self, m)
        ensures Below(peers[m].acknowledged, w)
      {
        assert Below(peers[m].acknowledged, merged);
      }
      assert Below(merged, w);
      assert At(merged, a) <= At(w, a);
    } else {
      var m :| m in members && Exchanging(peers, self, m) && At(peers[m].acknowledged, a) >= n;
      assert At(peers[m].acknowledged, a) <= At(merged, a);
    }
  }

  // So the status counts the local operations, and as pending exactly those that
  // no other member which has ever exchanged has acknowledged.
  lemma StatusCounts(local: Vector, merged: Vector, members: set<string>, self: string, peers: map<string, Peer>)
    requires MergedAcks(merged, members, self, peers)
    ensures Sum(local) == |set a, n: nat | a in local && 0 < n <= local[a] :: (a, n)|
    ensures Sum(Uncovered(local, merged))
         == |set a, n: nat | a in local && 0 < n <= local[a] && !SomeoneHas(members, self, peers, a, n) :: (a, n)|
  {
    LocalCounts(local);
    assert Between(map[], local) == set a, n: nat | a in local && 0 < n <= local[a] :: (a, n);
    UncoveredCounts(local, merged);
    forall a, n: nat | n > 0
      ensures At(merged, a) >= n <==> SomeoneHas(members, self, peers, a, n)
    {
      MergedReaches(merged, members, self, peers, a, n);
    }
    assert Between(merged, local) == set a, n: nat | a in local && 0 < n <= local[a] && !SomeoneHas(members, self, peers, a, n) :: (a, n);
  }

  // Another member, with which an exchange is on record, acknowledged it.
  ghost predicate SomeoneHas(members: set<string>, self: string, peers: map<string, Peer>, a: Actor, n: nat) {
    exists m :: m in members && m != self && m in peers && peers[m].lastExchangeAt != 0
                && a in peers[m].acknowledged && n <= peers[m].acknowledged[a]
  }
}
