/** The canonical membership of each peer: a worklist over signed tokens, each of
    which may carry the token of its issuer. Verifying a token is a parameter. */
module Memberships {
  import opened Wrappers
  import opened Positions

  datatype Grant = Grant(token: string, subject: string, issuedAt: int, serial: string, issuer: string)

  datatype Verdict = Active(grant: Grant) | Expired | Invalid

  // What signing gives: a verified grant is the one its token encodes, and the
  // issuer's token, which is embedded in it, is shorter.
  ghost predicate Embeds(verify: string -> Verdict) {
    forall t :: verify(t).Active? ==> verify(t).grant.token == t && |verify(t).grant.issuer| < |t|
  }

  // The issuer's token a token leads to.
  function IssuerOf(v: Verdict): Option<string> {
    if v.Active? && v.grant.issuer != "" then Some(v.grant.issuer) else None
  }

  predicate CanonicalAfter(candidate: Grant, current: Grant) {
    if candidate.issuedAt != current.issuedAt then candidate.issuedAt > current.issuedAt
    else if candidate.serial != current.serial then Less(candidate.serial, current.serial)
    else Less(candidate.token, current.token)
  }

  // A token and all the issuers' tokens inside it.
  ghost function Chain(verify: string -> Verdict, t: string): set<string>
    requires Embeds(verify)
    decreases |t|
  {
    var next := IssuerOf(verify(t));
    {t} + if next.None? then {} else Chain(verify, next.value)
  }

  ghost function Closure(verify: string -> Verdict, roots: seq<string>): set<string>
    requires Embeds(verify)
  {
    set r, t | r in roots && t in Chain(verify, r) :: t
  }

  // `grant` is the canonical one of its subject among some tokens.
  ghost predicate Canonical(verify: string -> Verdict, tokens: set<string>, grant: Grant) {
    && grant.token in tokens && verify(grant.token) == Active(grant)
    && forall t :: t in tokens && verify(t).Active? && verify(t).grant.subject == grant.subject ==>
         !CanonicalAfter(verify(t).grant, grant)
  }

  // One canonical grant for each subject of an active token.
  ghost predicate Folded(verify: string -> Verdict, tokens: set<string>, byPeer: map<string, Grant>) {
    && (forall p :: p in byPeer ==> byPeer[p].subject == p && Canonical(verify, tokens, byPeer[p]))
    && (forall t :: t in tokens && verify(t).Active? ==> verify(t).grant.subject in byPeer)
  }

  // The order: strict, and total on different tokens.

  lemma CanonicalAfterTotal(a: Grant, b: Grant)
    ensures !(CanonicalAfter(a, b) && CanonicalAfter(b, a)) && !CanonicalAfter(a, a)
    ensures a.token != b.token ==> CanonicalAfter(a, b) || CanonicalAfter(b, a)
  {
    LessTotal(a.serial, b.serial);
    LessTotal(a.token, b.token);
    LessTotal(a.token, a.token);
  }

  lemma CanonicalAfterTransitive(a: Grant, b: Grant, c: Grant)
    requires CanonicalAfter(a, b) && CanonicalAfter(b, c)
    ensures CanonicalAfter(a, c)
  {
    if Less(a.serial, b.serial) && Less(b.serial, c.serial) {
      LessTransitive(a.serial, b.serial, c.serial);
      LessTotal(a.serial, c.serial);
    }
    if Less(a.token, b.token) && Less(b.token, c.token) {
      LessTransitive(a.token, b.token, c.token);
    }
  }

  // What canonical means, spelled out: none of the subject's active grants was
  // issued later; of those issued at the same time none has a smaller serial; and
  // of those none has a smaller token.
  ghost predicate Newest(verify: string -> Verdict, tokens: set<string>, grant: Grant) {
    && grant.token in tokens && verify(grant.token) == Active(grant)
    && forall t :: t in tokens && verify(t).Active? && verify(t).grant.subject == grant.subject ==>
         var g := verify(t).grant;
         && g.issuedAt <= grant.issuedAt
         && (g.issuedAt == grant.issuedAt ==> !Less(g.serial, grant.serial))
         && (g.issuedAt == grant.issuedAt && g.serial == grant.serial ==> !Less(t, grant.token))
  }

  lemma CanonicalIsNewest(verify: string -> Verdict, tokens: set<string>, grant: Grant)
    requires Embeds(verify)
    ensures Canonical(verify, tokens, grant) <==> Newest(verify, tokens, grant)
  {
    forall t | t in tokens && verify(t).Active?
      ensures var g := verify(t).grant;
        !CanonicalAfter(g, grant) <==>
          && g.issuedAt <= grant.issuedAt
          && (g.issuedAt == grant.issuedAt ==> !Less(g.serial, grant.serial))
          && (g.issuedAt == grant.issuedAt && g.serial == grant.serial ==> !Less(t, grant.token))
    {
      LessTotal(verify(t).grant.serial, grant.serial);
    }
  }

  // So the fold is one newest grant for each subject of an active token.
  lemma FoldedExactly(verify: string -> Verdict, tokens: set<string>, byPeer: map<string, Grant>)
    requires Embeds(verify)
    ensures Folded(verify, tokens, byPeer) <==>
      && (forall p :: p in byPeer ==> byPeer[p].subject == p && Newest(verify, tokens, byPeer[p]))
      && (forall t :: t in tokens && verify(t).Active? ==> verify(t).grant.subject in byPeer)
  {
    forall p | p in byPeer
      ensures Canonical(verify, tokens, byPeer[p]) <==> Newest(verify, tokens, byPeer[p])
    {
      CanonicalIsNewest(verify, tokens, byPeer[p]);
    }
    hide Canonical, Newest;
  }

  // The fold is determined by the set of tokens.
  lemma FoldedUnique(verify: string -> Verdict, tokens: set<string>, a: map<string, Grant>, b: map<string, Grant>)
    requires Embeds(verify) && Folded(verify, tokens, a) && Folded(verify, tokens, b)
    ensures a == b
  {
    assert forall p :: p in a ==> verify(a[p].token).Active?;
    assert forall p :: p in b ==> verify(b[p].token).Active?;
    assert a.Keys == b.Keys;
    forall p | p in a
      ensures a[p] == b[p]
    {
      CanonicalAfterTotal(a[p], b[p]);
    }
  }

  // Termination: popping a token and pushing its issuer always loses weight.
  function Weight(tokens: seq<string>): nat {
    if tokens == [] then 0 else |tokens[0]| + 1 + Weight(tokens[1..])
  }

  lemma {:induction false} WeightSnoc(tokens: seq<string>, t: string)
    ensures Weight(tokens + [t]) == Weight(tokens) + |t| + 1
  {
    if tokens == [] {
      assert [] + [t] == [t];
    } else {
      WeightSnoc(tokens[1..], t);
      assert (tokens + [t])[1..] == tokens[1..] + [t];
    }
  }

  lemma {:induction false} ChainClosed(verify: string -> Verdict, r: string, seen: set<string>)
    requires Embeds(verify) && r in seen
    requires forall t :: t in seen ==> IssuerOf(verify(t)).Some? ==> IssuerOf(verify(t)).value in seen
    ensures Chain(verify, r) <= seen
    decreases |r|
  {
    var next := IssuerOf(verify(r));
    if next.Some? {
      ChainClosed(verify, next.value, seen);
    }
  }

  lemma {:induction false} ChainStep(verify: string -> Verdict, r: string, t: string)
    requires Embeds(verify) && t in Chain(verify, r) && IssuerOf(verify(t)).Some?
    ensures IssuerOf(verify(t)).value in Chain(verify, r)
    decreases |r|
  {
    if t != r {
      ChainStep(verify, IssuerOf(verify(r)).value, t);
    }
  }

  lemma ClosureStep(verify: string -> Verdict, roots: seq<string>, t: string)
    requires Embeds(verify) && t in Closure(verify, roots) && IssuerOf(verify(t)).Some?
    ensures IssuerOf(verify(t)).value in Closure(verify, roots)
  {
    var r :| r in roots && t in Chain(verify, r);
    ChainStep(verify, r, t);
  }

  lemma FoldOne(verify: string -> Verdict, seen: set<string>, byPeer: map<string, Grant>, t: string)
    requires Embeds(verify) && Folded(verify, seen, byPeer) && verify(t).Active?
    ensures var g := verify(t).grant;
      var replace := g.subject !in byPeer || CanonicalAfter(g, byPeer[g.subject]);
      Folded(verify, seen + {t}, if replace then byPeer[g.subject := g] else byPeer)
  {
    var g := verify(t).grant;
    CanonicalAfterTotal(g, g);
    if g.subject in byPeer && CanonicalAfter(g, byPeer[g.subject]) {
      forall u | u in seen && verify(u).Active? && verify(u).grant.subject == g.subject
        ensures !CanonicalAfter(verify(u).grant, g)
      {
        if CanonicalAfter(verify(u).grant, g) {
          CanonicalAfterTransitive(verify(u).grant, g, byPeer[g.subject]);
        }
      }
    }
  }

  // Every root and every issuer of a processed token is processed or waiting.
  ghost predicate Pending(verify: string -> Verdict, roots: seq<string>, seen: set<string>, tokens: seq<string>) {
    && (forall t :: t in roots ==> t in seen || t in tokens)
    && (forall t :: t in seen && IssuerOf(verify(t)).Some? ==>
          IssuerOf(verify(t)).value in seen || IssuerOf(verify(t)).value in tokens)
  }

  lemma PendingStep(verify: string -> Verdict, roots: seq<string>, seen: set<string>, tokens: seq<string>)
    requires Pending(verify, roots, seen, tokens) && tokens != []
    ensures var next, rest := IssuerOf(verify(tokens[0])), tokens[1..];
      && (tokens[0] in seen ==> Pending(verify, roots, seen, rest))
      && Pending(verify, roots, seen + {tokens[0]}, if next.Some? then rest + [next.value] else rest)
  {
  }

  // The closure: the tokens given, the issuers of its active members, and nothing
  // else.
  lemma ClosureExactly(verify: string -> Verdict, roots: seq<string>)
    requires Embeds(verify)
    ensures var all := Closure(verify, roots);
      && (forall t :: t in roots ==> t in all)
      && (forall t :: t in all && verify(t).Active? && verify(t).grant.issuer != "" ==> verify(t).grant.issuer in all)
      && (forall u :: u in all && u !in roots ==> exists t :: t in all && verify(t).Active? && verify(t).grant.issuer == u && u != "")
  {
    var all := Closure(verify, roots);
    RootsIn(verify, roots);
    forall t | t in all && verify(t).Active? && verify(t).grant.issuer != ""
      ensures verify(t).grant.issuer in all
    {
      ClosureStep(verify, roots, t);
    }
    forall u | u in all && u !in roots
      ensures exists t :: t in all && verify(t).Active? && verify(t).grant.issuer == u && u != ""
    {
      var r :| r in roots && u in Chain(verify, r);
      var t := ChainParent(verify, r, u);
      assert t in all;
    }
  }

  lemma {:induction false} ChainParent(verify: string -> Verdict, r: string, u: string) returns (t: string)
    requires Embeds(verify) && u in Chain(verify, r) && u != r
    ensures t in Chain(verify, r) && verify(t).Active? && verify(t).grant.issuer == u && u != ""
    decreases |r|
  {
    var next := IssuerOf(verify(r)).value;
    if u == next {
      t := r;
    } else {
      t := ChainParent(verify, next, u);
    }
  }

  // Fails exactly when a token in the closure is invalid; otherwise the fold of
  // the closure.
  method ActiveMemberships(roots: seq<string>, verify: string -> Verdict) returns (r: Option<map<string, Grant>>)
    requires Embeds(verify)
    ensures r.None? <==> exists t :: t in Closure(verify, roots) && verify(t).Invalid?
    ensures r.Some? ==> Folded(verify, Closure(verify, roots), r.value)
  {
    var tokens, byPeer, seen := roots, map[], {};
    RootsIn(verify, roots);
    assert Folded(verify, seen, byPeer) && Pending(verify, roots, seen, tokens);
    hide Folded, CanonicalAfter, Chain, Closure, Pending;
    while tokens != []
      invariant seen <= Closure(verify, roots)
      invariant forall t :: t in tokens ==> t in Closure(verify, roots)
      invariant Pending(verify, roots, seen, tokens)
      invariant forall t :: t in seen ==> !verify(t).Invalid?
      invariant Folded(verify, seen, byPeer)
      decreases Weight(tokens)
    {
      var token := tokens[0];
      PendingStep(verify, roots, seen, tokens);
      assert tokens == [token] + tokens[1..];
      tokens := tokens[1..];
      if token in seen {
        continue;
      }
      match verify(token) {
        case Expired =>
          FoldSkip(verify, seen, byPeer, token);
        case Invalid =>
          return None;
        case Active(grant) =>
          FoldOne(verify, seen, byPeer, token);
          if grant.subject !in byPeer || CanonicalAfter(grant, byPeer[grant.subject]) {
            byPeer := byPeer[grant.subject := grant];
          }
          if grant.issuer != "" {
            ClosureStep(verify, roots, token);
            WeightSnoc(tokens, grant.issuer);
            tokens := tokens + [grant.issuer];
          }
      }
      seen := seen + {token};
    }
    PendingDone(verify, roots, seen);
    r := Some(byPeer);
  }

  lemma RootsIn(verify: string -> Verdict, roots: seq<string>)
    requires Embeds(verify)
    ensures forall t :: t in roots ==> t in Closure(verify, roots)
  {
    assert forall t :: t in roots ==> t in Chain(verify, t);
  }

  lemma FoldSkip(verify: string -> Verdict, seen: set<string>, byPeer: map<string, Grant>, t: string)
    requires Folded(verify, seen, byPeer) && !verify(t).Active?
    ensures Folded(verify, seen + {t}, byPeer)
  {
  }

  lemma ClosureWithin(verify: string -> Verdict, roots: seq<string>, seen: set<string>)
    requires Embeds(verify) && forall t :: t in roots ==> t in seen
    requires forall t :: t in seen ==> IssuerOf(verify(t)).Some? ==> IssuerOf(verify(t)).value in seen
    ensures Closure(verify, roots) <= seen
  {
    forall r | r in roots
      ensures Chain(verify, r) <= seen
    {
      ChainClosed(verify, r, seen);
    }
  }

  lemma PendingDone(verify: string -> Verdict, roots: seq<string>, seen: set<string>)
    requires Embeds(verify) && Pending(verify, roots, seen, [])
    ensures Closure(verify, roots) <= seen
  {
    ClosureWithin(verify, roots, seen);
  }

  // Replicas holding the same tokens, in whatever order and however often, find
  // the same invalid tokens and the same canonical memberships.
  lemma SameTokensAgree(verify: string -> Verdict, a: seq<string>, b: seq<string>, x: map<string, Grant>, y: map<string, Grant>)
    requires Embeds(verify) && (forall t :: t in a <==> t in b)
    ensures Closure(verify, a) == Closure(verify, b)
    ensures Folded(verify, Closure(verify, a), x) && Folded(verify, Closure(verify, b), y) ==> x == y
  {
    if Folded(verify, Closure(verify, a), x) && Folded(verify, Closure(verify, b), y) {
      FoldedUnique(verify, Closure(verify, a), x, y);
    }
  }

  // Adding a token that is already inside one of the others changes nothing.
  lemma EmbeddedTokenIsRedundant(verify: string -> Verdict, roots: seq<string>, t: string)
    requires Embeds(verify) && t in Closure(verify, roots)
    ensures Closure(verify, roots + [t]) == Closure(verify, roots)
  {
    var all := Closure(verify, roots);
    forall u | u in all && IssuerOf(verify(u)).Some?
      ensures IssuerOf(verify(u)).value in all
    {
      ClosureStep(verify, roots, u);
    }
    RootsIn(verify, roots);
    ClosureWithin(verify, roots + [t], all);
  }
}
