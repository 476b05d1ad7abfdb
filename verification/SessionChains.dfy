/** The session store as its clients may think of it: at most one usable token per family, with a deadline. */
module SessionChains {
  import opened Wrappers
  import opened Tokens
  import opened Sessions

  /** The one usable token of a family: its id, the digest of its secret, its user, and when it stops working. */
  datatype Holder = Holder(jti: string, digest: string, user: UserId, until: int)

  datatype Chains = Chains(now: int, holders: map<string, Holder>)

  function Follow(ttl: nat, hash: Digest, a: Chains, ev: Event): Chains {
    match ev
    case Login(t, user) => a.(holders := a.holders[t.fam := Holder(t.jti, hash(t.secret), user, a.now + ttl)])
    case Present(t, active, jti', secret') =>
      if Good(hash, a, t) && active(a.holders[t.fam].user)
      then a.(holders := a.holders[t.fam := Holder(jti', hash(secret'), a.holders[t.fam].user, a.now + ttl)])
      else a.(holders := a.holders - {t.fam})
    case Leave(fam) => a.(holders := a.holders - {fam})
    case Wait(d) => Chains(a.now + d, map f | f in a.holders && a.now + d < a.holders[f].until :: a.holders[f])
  }

  /** The token is its family's usable one. */
  predicate Good(hash: Digest, a: Chains, t: RefreshToken) {
    t.fam in a.holders && a.holders[t.fam].jti == t.jti && a.holders[t.fam].digest == hash(t.secret)
  }

  /** What the refresh endpoint answers. */
  function Reply(hash: Digest, a: Chains, ev: Event): Option<RefreshToken>
    requires ev.Present?
  {
    if Good(hash, a, ev.t) && ev.active(a.holders[ev.t.fam].user)
    then Some(RefreshToken(ev.t.fam, ev.jti', ev.secret')) else None
  }

  function FollowAll(ttl: nat, hash: Digest, a: Chains, evs: seq<Event>): Chains
    decreases |evs|
  {
    if evs == [] then a else FollowAll(ttl, hash, Follow(ttl, hash, a, evs[0]), evs[1..])
  }

  /** The keys are those of the chains: one session key and one index with one member per family. */
  predicate Matches(s: State, a: Chains) {
    && s.store.now == a.now
    && s.store.fams.Keys == a.holders.Keys
    && (forall f :: f in a.holders ==> HolderMatches(s, f, a.holders[f]))
    && (forall j :: j in s.store.jtis ==>
          j in s.famOf && s.famOf[j] in a.holders && a.holders[s.famOf[j]].jti == j)
  }

  predicate HolderMatches(s: State, f: string, h: Holder) {
    && h.jti in s.store.jtis && s.store.jtis[h.jti] == Session(h.user, h.digest, h.until)
    && h.jti in s.famOf && s.famOf[h.jti] == f
    && f in s.store.fams && s.store.fams[f] == Family({h.jti}, h.until)
  }

  lemma UsableIsGood(hash: Digest, s: State, a: Chains, t: RefreshToken)
    requires Matches(s, a) && (t.jti in s.famOf ==> s.famOf[t.jti] == t.fam)
    ensures Usable(hash, s, t) <==> Good(hash, a, t)
    ensures Good(hash, a, t) ==> s.store.jtis[t.jti].user == a.holders[t.fam].user
  {
    if t.fam in a.holders {
      assert HolderMatches(s, t.fam, a.holders[t.fam]);
    }
  }

  lemma LoginMatches(ttl: nat, hash: Digest, s: State, a: Chains, t: RefreshToken, user: UserId)
    requires Matches(s, a) && Proper(s, Login(t, user)) && (forall j :: j in s.famOf ==> s.famOf[j] in s.used)
    ensures Matches(Next(ttl, hash, s, Login(t, user)), Follow(ttl, hash, a, Login(t, user)))
  {
    var s', a' := Next(ttl, hash, s, Login(t, user)), Follow(ttl, hash, a, Login(t, user));
    assert forall f :: f in a.holders ==> HolderMatches(s, f, a.holders[f]);
    assert t.fam !in a.holders;
    assert {} - {} + {t.jti} == {t.jti};
    forall f | f in a'.holders ensures HolderMatches(s', f, a'.holders[f]) {
      if f != t.fam {
        assert HolderMatches(s, f, a.holders[f]);
      }
    }
  }

  lemma RevokeMatches(s: State, a: Chains, fam: string)
    requires Matches(s, a)
    ensures Matches(s.(store := RevokeFamily(s.store, fam)), a.(holders := a.holders - {fam}))
  {
    var s', a' := s.(store := RevokeFamily(s.store, fam)), a.(holders := a.holders - {fam});
    forall f | f in a'.holders ensures HolderMatches(s', f, a'.holders[f]) {
      assert HolderMatches(s, f, a.holders[f]);
      if fam in a.holders {
        assert HolderMatches(s, fam, a.holders[fam]);
      }
    }
    assert forall f :: f in a.holders ==> HolderMatches(s, f, a.holders[f]);
  }

  lemma RotateMatches(ttl: nat, hash: Digest, s: State, a: Chains, t: RefreshToken, jti': string, secret': string)
    requires Matches(s, a) && Usable(hash, s, t) && Good(hash, a, t) && jti' !in s.famOf
    ensures Matches(Rotated(ttl, hash, s, t, jti', secret'),
                    a.(holders := a.holders[t.fam := Holder(jti', hash(secret'), a.holders[t.fam].user, a.now + ttl)]))
  {
    var h := a.holders[t.fam];
    assert HolderMatches(s, t.fam, h);
    var s' := Rotated(ttl, hash, s, t, jti', secret');
    var a' := a.(holders := a.holders[t.fam := Holder(jti', hash(secret'), h.user, a.now + ttl)]);
    assert {t.jti} - {t.jti} + {jti'} == {jti'};
    forall f | f in a'.holders ensures HolderMatches(s', f, a'.holders[f]) {
      if f != t.fam {
        assert HolderMatches(s, f, a.holders[f]);
      }
    }
  }

  lemma WaitMatches(ttl: nat, hash: Digest, s: State, a: Chains, d: nat)
    requires Matches(s, a)
    ensures Matches(Next(ttl, hash, s, Wait(d)), Follow(ttl, hash, a, Wait(d)))
  {
    var s', a' := Next(ttl, hash, s, Wait(d)), Follow(ttl, hash, a, Wait(d));
    forall f | f in a.holders ensures HolderMatches(s, f, a.holders[f]) {
    }
    forall j | j in s'.store.jtis ensures s'.famOf[j] in a'.holders && a'.holders[s'.famOf[j]].jti == j {
      assert HolderMatches(s, s.famOf[j], a.holders[s.famOf[j]]);
    }
  }

  lemma PresentMatches(ttl: nat, hash: Digest, s: State, a: Chains, ev: Event)
    requires Coherent(s) && Matches(s, a) && ev.Present? && Proper(s, ev)
    ensures Matches(Next(ttl, hash, s, ev), Follow(ttl, hash, a, ev))
    ensures Refresh(s.store, ttl, hash, ev.active, ev.t, ev.jti', ev.secret').1 == Reply(hash, a, ev)
  {
    hide Coherent, Matches, Next, Rotated, RevokeFamily, Usable;
    UsableIsGood(hash, s, a, ev.t);
    PresentEffect(ttl, hash, s, ev);
    ReplyIsToken(ttl, hash, s, ev);
    if Usable(hash, s, ev.t) {
      RotateMatches(ttl, hash, s, a, ev.t, ev.jti', ev.secret');
      var a1 := a.(holders := a.holders[ev.t.fam := Holder(ev.jti', hash(ev.secret'), a.holders[ev.t.fam].user, a.now + ttl)]);
      RevokeMatches(Rotated(ttl, hash, s, ev.t, ev.jti', ev.secret'), a1, ev.t.fam);
      assert a1.holders - {ev.t.fam} == a.holders - {ev.t.fam};
    } else {
      RevokeMatches(s, a, ev.t.fam);
    }
  }

  lemma ReplyIsToken(ttl: nat, hash: Digest, s: State, ev: Event)
    requires ev.Present?
    ensures var out := Refresh(s.store, ttl, hash, ev.active, ev.t, ev.jti', ev.secret').1;
      out == if Accepted(ttl, hash, s, ev) then Some(RefreshToken(ev.t.fam, ev.jti', ev.secret')) else None
  {
  }

  lemma {:induction false} RunMatches(ttl: nat, hash: Digest, s: State, a: Chains, evs: seq<Event>)
    requires Coherent(s) && Matches(s, a) && ProperRun(ttl, hash, s, evs)
    ensures Coherent(Run(ttl, hash, s, evs)) && Matches(Run(ttl, hash, s, evs), FollowAll(ttl, hash, a, evs))
    decreases |evs|
  {
    hide Matches, Next, Proper, Follow;
    if evs != [] {
      StepMatches(ttl, hash, s, a, evs[0]);
      NextCoherent(ttl, hash, s, evs[0]);
      RunMatches(ttl, hash, Next(ttl, hash, s, evs[0]), Follow(ttl, hash, a, evs[0]), evs[1..]);
    }
  }

  lemma StepMatches(ttl: nat, hash: Digest, s: State, a: Chains, ev: Event)
    requires Coherent(s) && Matches(s, a) && Proper(s, ev)
    ensures Matches(Next(ttl, hash, s, ev), Follow(ttl, hash, a, ev))
  {
    hide Matches, RevokeFamily, Tick, Issue, Rotate, Refresh;
    match ev
    case Login(t, user) => LoginMatches(ttl, hash, s, a, t, user);
    case Present(_, _, _, _) => PresentMatches(ttl, hash, s, a, ev);
    case Leave(fam) => RevokeMatches(s, a, fam);
    case Wait(d) => WaitMatches(ttl, hash, s, a, d);
  }

  /** In every serialized run the store answers each presented token exactly as one usable token per family demands: with
      a sibling if it is that token, its time is not up and its user active, and else not at all. */
  lemma StoreFollowsChains(ttl: nat, hash: Digest, evs: seq<Event>, ev: Event)
    requires ProperRun(ttl, hash, FRESH, evs) && ev.Present? && Proper(Run(ttl, hash, FRESH, evs), ev)
    ensures Refresh(Run(ttl, hash, FRESH, evs).store, ttl, hash, ev.active, ev.t, ev.jti', ev.secret').1
         == Reply(hash, FollowAll(ttl, hash, Chains(0, map[]), evs), ev)
  {
    hide ProperRun, Run, FollowAll, Proper, Refresh, Reply;
    FreshCoherent();
    RunMatches(ttl, hash, FRESH, Chains(0, map[]), evs);
    PresentMatches(ttl, hash, Run(ttl, hash, FRESH, evs), FollowAll(ttl, hash, Chains(0, map[]), evs), ev);
  }

  // ---------- how long a token works ----------

  /** A token works for the time to live after its login, and no longer. */
  lemma LoginLifetime(ttl: nat, hash: Digest, s: State, t: RefreshToken, user: UserId, d: nat, active: UserId -> bool,
                      jti': string, secret': string)
    requires Coherent(s) && Proper(s, Login(t, user)) && jti' !in s.famOf && jti' != t.jti
    ensures var s' := Next(ttl, hash, Next(ttl, hash, s, Login(t, user)), Wait(d));
      Refresh(s'.store, ttl, hash, active, t, jti', secret').1
        == if d < ttl && active(user) then Some(RefreshToken(t.fam, jti', secret')) else None
  {
    var s1 := Next(ttl, hash, s, Login(t, user));
    var ev := Present(t, active, jti', secret');
    NextCoherent(ttl, hash, s, Login(t, user));
    NextCoherent(ttl, hash, s1, Wait(d));
    KeyLifetime(ttl, hash, s1, t, user, d);
    PresentEffect(ttl, hash, Next(ttl, hash, s1, Wait(d)), ev);
    ReplyIsToken(ttl, hash, Next(ttl, hash, s1, Wait(d)), ev);
  }

  lemma KeyLifetime(ttl: nat, hash: Digest, s: State, t: RefreshToken, user: UserId, d: nat)
    requires t.jti in s.store.jtis && s.store.jtis[t.jti] == Session(user, hash(t.secret), s.store.now + ttl)
    ensures var s' := Next(ttl, hash, s, Wait(d));
      && (Usable(hash, s', t) <==> d < ttl)
      && (Usable(hash, s', t) ==> s'.store.jtis[t.jti].user == user)
  {
  }

  /** So does the sibling that a refresh hands out, from that refresh on. */
  lemma RotationLifetime(ttl: nat, hash: Digest, s: State, first: Event, d: nat, again: Event)
    requires Coherent(s) && first.Present? && Proper(s, first) && Accepted(ttl, hash, s, first)
    requires again.Present? && again.t == RefreshToken(first.t.fam, first.jti', first.secret')
    requires again.jti' !in s.famOf && again.jti' != first.jti'
    ensures first.t.jti in s.store.jtis
    ensures var s' := Next(ttl, hash, Next(ttl, hash, s, first), Wait(d));
      Refresh(s'.store, ttl, hash, again.active, again.t, again.jti', again.secret').1
        == if d < ttl && again.active(s.store.jtis[first.t.jti].user)
           then Some(RefreshToken(first.t.fam, again.jti', again.secret')) else None
  {
    hide Coherent, Refresh, Rotate, Accepted;
    PresentEffect(ttl, hash, s, first);
    var s1 := Next(ttl, hash, s, first);
    NextCoherent(ttl, hash, s, first);
    NextCoherent(ttl, hash, s1, Wait(d));
    KeyLifetime(ttl, hash, s1, again.t, s.store.jtis[first.t.jti].user, d);
    PresentEffect(ttl, hash, Next(ttl, hash, s1, Wait(d)), again);
    ReplyIsToken(ttl, hash, Next(ttl, hash, s1, Wait(d)), again);
  }

  // ---------- texts ----------

  /** The endpoints read the texts that the store hands out: a token's text refreshes that token and logs its family out;
      a text of no well-formed token refreshes nothing and changes no key. */
  lemma TextsAreTokens(st: Store, ttl: nat, hash: Digest, active: UserId -> bool, t: RefreshToken, jti': string,
                       secret': string)
    requires WellFormed(t)
    ensures RefreshText(st, ttl, hash, active, TokenText(t), jti', secret') == Refresh(st, ttl, hash, active, t, jti', secret')
    ensures Logout(st, TokenText(t)) == RevokeFamily(st, t.fam)
  {
    hide Refresh, RevokeFamily, TokenText, WellFormed;
    ParseIff(TokenText(t), t);
  }

  lemma OtherTextsDoNothing(st: Store, ttl: nat, hash: Digest, active: UserId -> bool, tok: string, jti': string,
                            secret': string)
    requires forall t :: WellFormed(t) ==> tok != TokenText(t)
    ensures RefreshText(st, ttl, hash, active, tok, jti', secret') == (st, None)
  {
    hide Refresh, TokenText, WellFormed, ParseRefreshToken;
    if ParseRefreshToken(tok).Some? {
      ParseIff(tok, ParseRefreshToken(tok).value);
    }
  }
}
