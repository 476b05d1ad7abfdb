/** The rotating refresh-token store: session keys and family index sets with expiry, and the session service over them.
    The secret digest is a parameter; fresh ids and secrets arrive as arguments. */
module Sessions {
  import opened Wrappers
  import opened Tokens

  type UserId = nat
  type Digest = string -> string

  /** A session key: whose it is, the digest of its secret, and when it expires. */
  datatype Session = Session(user: UserId, digest: string, expires: int)

  /** A family's index set and when it expires. */
  datatype Family = Family(members: set<string>, expires: int)

  /** The keys present at a time; a key whose time has come is no longer present. */
  datatype Store = Store(now: int, jtis: map<string, Session>, fams: map<string, Family>)

  const EMPTY_STORE := Store(0, map[], map[])

  // ---------- atomic commands ----------

  function Members(st: Store, fam: string): set<string> {
    if fam in st.fams then st.fams[fam].members else {}
  }

  /** One pipeline: set the session key, take one id out of the index and put one in, refresh the index's expiry. */
  function PutSession(st: Store, ttl: nat, fam: string, out: set<string>, jti: string, user: UserId, digest: string): Store {
    st.(jtis := st.jtis[jti := Session(user, digest, st.now + ttl)],
        fams := st.fams[fam := Family(Members(st, fam) - out + {jti}, st.now + ttl)])
  }

  /** GETDEL on a session key. */
  function TakeSession(st: Store, jti: string): Store {
    st.(jtis := st.jtis - {jti})
  }

  /** One pipeline: delete the listed session keys and the index. */
  function DropFamily(st: Store, fam: string, listed: set<string>): Store {
    st.(jtis := st.jtis - listed, fams := st.fams - {fam})
  }

  /** Time passes; expired keys vanish. */
  function Tick(st: Store, d: nat): Store {
    var now := st.now + d;
    Store(now,
          map j | j in st.jtis && st.jtis[j].expires > now :: st.jtis[j],
          map f | f in st.fams && st.fams[f].expires > now :: st.fams[f])
  }

  // ---------- whole operations ----------

  function Issue(st: Store, ttl: nat, hash: Digest, t: RefreshToken, user: UserId): Store {
    PutSession(st, ttl, t.fam, {}, t.jti, user, hash(t.secret))
  }

  function RevokeFamily(st: Store, fam: string): Store {
    DropFamily(st, fam, Members(st, fam))
  }

  /** Consumes one id; issues a sibling, or nothing if the id is gone or the secret is wrong. */
  function Rotate(st: Store, ttl: nat, hash: Digest, t: RefreshToken, jti': string, secret': string)
    : (Store, Option<(RefreshToken, UserId)>)
  {
    if t.jti !in st.jtis then (st, None)
    else
      var entry, taken := st.jtis[t.jti], TakeSession(st, t.jti);
      if entry.digest != hash(t.secret) then (RevokeFamily(taken, t.fam), None)
      else (PutSession(taken, ttl, t.fam, {t.jti}, jti', entry.user, hash(secret')),
            Some((RefreshToken(t.fam, jti', secret'), entry.user)))
  }

  /** The refresh endpoint: rotate; revoke the family on an unknown token or an unavailable account. */
  function Refresh(st: Store, ttl: nat, hash: Digest, active: UserId -> bool, t: RefreshToken, jti': string, secret': string)
    : (Store, Option<RefreshToken>)
  {
    var (st', rotated) := Rotate(st, ttl, hash, t, jti', secret');
    match rotated
    case None => (RevokeFamily(st', t.fam), None)
    case Some((t', user)) => if active(user) then (st', Some(t')) else (RevokeFamily(st', t.fam), None)
  }

  function RefreshText(st: Store, ttl: nat, hash: Digest, active: UserId -> bool, tok: string, jti': string, secret': string)
    : (Store, Option<RefreshToken>)
  {
    match ParseRefreshToken(tok)
    case None => (st, None)
    case Some(t) => Refresh(st, ttl, hash, active, t, jti', secret')
  }

  /** Logout revokes the family of any three-part text, and ignores every other text. */
  function Logout(st: Store, tok: string): Store {
    var parts := Parts(tok);
    if |parts| != 3 then st else RevokeFamily(st, parts[0])
  }

  // ---------- serialized runs ----------

  /** A store with its history: the family each id was issued in, and the families in use so far. */
  datatype State = State(store: Store, famOf: map<string, string>, used: set<string>)

  const FRESH := State(EMPTY_STORE, map[], {})

  datatype Event =
    | Login(t: RefreshToken, user: UserId)
    | Present(t: RefreshToken, active: UserId -> bool, jti': string, secret': string)
    | Leave(fam: string)
    | Wait(d: nat)

  /** Ids are fresh, and a known id is presented within its own family; its secret may be anything. */
  predicate Proper(s: State, ev: Event) {
    match ev
    case Login(t, _) => t.jti !in s.famOf && t.fam !in s.used
    case Present(t, _, jti', _) => jti' !in s.famOf && (t.jti in s.famOf ==> s.famOf[t.jti] == t.fam)
    case Leave(_) => true
    case Wait(_) => true
  }

  /** Whether a presented token is answered with a new one. */
  predicate Accepted(ttl: nat, hash: Digest, s: State, ev: Event) {
    ev.Present? && Refresh(s.store, ttl, hash, ev.active, ev.t, ev.jti', ev.secret').1.Some?
  }

  function Next(ttl: nat, hash: Digest, s: State, ev: Event): State {
    match ev
    case Login(t, user) => State(Issue(s.store, ttl, hash, t, user), s.famOf[t.jti := t.fam], s.used + {t.fam})
    case Present(t, active, jti', secret') =>
      var rotated := Rotate(s.store, ttl, hash, t, jti', secret').1;
      State(Refresh(s.store, ttl, hash, active, t, jti', secret').0,
            if rotated.Some? then s.famOf[jti' := t.fam] else s.famOf, s.used)
    case Leave(fam) => s.(store := RevokeFamily(s.store, fam))
    case Wait(d) => s.(store := Tick(s.store, d))
  }

  predicate ProperRun(ttl: nat, hash: Digest, s: State, evs: seq<Event>)
    decreases |evs|
  {
    evs == [] || (Proper(s, evs[0]) && ProperRun(ttl, hash, Next(ttl, hash, s, evs[0]), evs[1..]))
  }

  function Run(ttl: nat, hash: Digest, s: State, evs: seq<Event>): State
    decreases |evs|
  {
    if evs == [] then s else Run(ttl, hash, Next(ttl, hash, s, evs[0]), evs[1..])
  }

  /** The live ids issued in a family. */
  function LiveOf(s: State, fam: string): set<string> {
    set j | j in s.store.jtis && j in s.famOf && s.famOf[j] == fam
  }

  /** Live ids are known, no family has two of them, each is listed in its family's index alone with the same expiry, and
      no index lists anything else. */
  predicate Coherent(s: State) {
    var (jtis, fams) := (s.store.jtis, s.store.fams);
    && (forall j :: j in s.famOf ==> s.famOf[j] in s.used)
    && (forall j :: j in jtis ==> j in s.famOf)
    && (forall j :: j in jtis ==> s.famOf[j] in fams && fams[s.famOf[j]] == Family({j}, jtis[j].expires))
    && (forall f :: f in fams ==> exists j :: j in jtis && s.famOf[j] == f)
  }

  lemma LoginCoherent(ttl: nat, hash: Digest, s: State, t: RefreshToken, user: UserId)
    requires Coherent(s) && Proper(s, Login(t, user))
    ensures Coherent(Next(ttl, hash, s, Login(t, user)))
  {
    var s' := Next(ttl, hash, s, Login(t, user));
    assert t.jti in s'.store.jtis && s'.famOf[t.jti] == t.fam;
    forall f | f in s'.store.fams ensures exists j :: j in s'.store.jtis && s'.famOf[j] == f {
      if f != t.fam {
        var j :| j in s.store.jtis && s.famOf[j] == f;
        assert j in s'.store.jtis && s'.famOf[j] == f;
      }
    }
  }

  lemma RevokeCoherent(s: State, fam: string)
    requires Coherent(s)
    ensures Coherent(s.(store := RevokeFamily(s.store, fam)))
    ensures LiveOf(s.(store := RevokeFamily(s.store, fam)), fam) == {}
  {
    var s' := s.(store := RevokeFamily(s.store, fam));
    forall f | f in s'.store.fams ensures exists j :: j in s'.store.jtis && s'.famOf[j] == f {
      var j :| j in s.store.jtis && s.famOf[j] == f;
      assert j in s'.store.jtis && s'.famOf[j] == f;
    }
  }

  lemma TickCoherent(s: State, d: nat)
    requires Coherent(s)
    ensures Coherent(s.(store := Tick(s.store, d)))
  {
    var s' := s.(store := Tick(s.store, d));
    forall f | f in s'.store.fams ensures exists j :: j in s'.store.jtis && s'.famOf[j] == f {
      var j :| j in s.store.jtis && s.famOf[j] == f;
      assert j in s'.store.jtis && s'.famOf[j] == f;
    }
  }

  /** A wrong secret costs the family the same as revoking it. */
  lemma MismatchIsRevocation(s: State, t: RefreshToken)
    requires Coherent(s) && t.jti in s.store.jtis && s.famOf[t.jti] == t.fam
    ensures RevokeFamily(TakeSession(s.store, t.jti), t.fam) == RevokeFamily(s.store, t.fam)
  {
    assert Members(s.store, t.fam) == {t.jti};
    assert s.store.jtis - {t.jti} - {t.jti} == s.store.jtis - {t.jti};
  }

  lemma RevokeTwice(st: Store, fam: string)
    ensures RevokeFamily(RevokeFamily(st, fam), fam) == RevokeFamily(st, fam)
  {
    var once := RevokeFamily(st, fam);
    assert Members(once, fam) == {} && once.jtis - {} == once.jtis && once.fams - {fam} == once.fams;
  }

  /** The id is live in the token's family and the secret's digest matches. */
  predicate Usable(hash: Digest, s: State, t: RefreshToken) {
    t.jti in s.store.jtis && s.store.jtis[t.jti].digest == hash(t.secret)
  }

  function Rotated(ttl: nat, hash: Digest, s: State, t: RefreshToken, jti': string, secret': string): State
    requires Usable(hash, s, t)
  {
    State(PutSession(TakeSession(s.store, t.jti), ttl, t.fam, {t.jti}, jti', s.store.jtis[t.jti].user, hash(secret')),
          s.famOf[jti' := t.fam], s.used)
  }

  lemma RotatedCoherent(ttl: nat, hash: Digest, s: State, t: RefreshToken, jti': string, secret': string)
    requires Coherent(s) && Usable(hash, s, t) && s.famOf[t.jti] == t.fam && jti' !in s.famOf
    ensures Coherent(Rotated(ttl, hash, s, t, jti', secret'))
    ensures LiveOf(Rotated(ttl, hash, s, t, jti', secret'), t.fam) == {jti'}
  {
    var s' := Rotated(ttl, hash, s, t, jti', secret');
    assert jti' in s'.store.jtis && s'.famOf[jti'] == t.fam;
    assert Members(s.store, t.fam) - {t.jti} + {jti'} == {jti'};
    forall f | f in s'.store.fams ensures exists j :: j in s'.store.jtis && s'.famOf[j] == f {
      if f != t.fam {
        var j :| j in s.store.jtis && s.famOf[j] == f;
        assert j in s'.store.jtis && s'.famOf[j] == f;
      }
    }
  }

  /** Presenting a token rotates the chain exactly when the token is usable and its user active; otherwise the family ends
      up revoked. */
  lemma PresentEffect(ttl: nat, hash: Digest, s: State, ev: Event)
    requires Coherent(s) && ev.Present? && Proper(s, ev)
    ensures Accepted(ttl, hash, s, ev) <==> Usable(hash, s, ev.t) && ev.active(s.store.jtis[ev.t.jti].user)
    ensures Accepted(ttl, hash, s, ev) ==> Next(ttl, hash, s, ev) == Rotated(ttl, hash, s, ev.t, ev.jti', ev.secret')
    ensures !Usable(hash, s, ev.t) ==> Next(ttl, hash, s, ev) == s.(store := RevokeFamily(s.store, ev.t.fam))
    ensures Usable(hash, s, ev.t) && !Accepted(ttl, hash, s, ev) ==>
      var r := Rotated(ttl, hash, s, ev.t, ev.jti', ev.secret');
      Next(ttl, hash, s, ev) == r.(store := RevokeFamily(r.store, ev.t.fam))
  {
    hide PutSession, RevokeFamily, Coherent;
    if ev.t.jti in s.store.jtis && !Usable(hash, s, ev.t) {
      assert s.famOf[ev.t.jti] == ev.t.fam by { CoherentKnown(s, ev.t.jti); }
      MismatchIsRevocation(s, ev.t);
      RevokeTwice(s.store, ev.t.fam);
    }
  }

  lemma CoherentKnown(s: State, jti: string)
    requires Coherent(s) && jti in s.store.jtis
    ensures jti in s.famOf
  {
  }

  /** Every proper event keeps the index sets and the session keys in agreement. */
  lemma NextCoherent(ttl: nat, hash: Digest, s: State, ev: Event)
    requires Coherent(s) && Proper(s, ev)
    ensures Coherent(Next(ttl, hash, s, ev))
    ensures ev.Present? && !Accepted(ttl, hash, s, ev) ==> LiveOf(Next(ttl, hash, s, ev), ev.t.fam) == {}
    ensures ev.Leave? ==> LiveOf(Next(ttl, hash, s, ev), ev.fam) == {}
  {
    hide Coherent, PutSession, RevokeFamily, Tick, LiveOf, Accepted, Rotated;
    match ev
    case Login(t, user) => LoginCoherent(ttl, hash, s, t, user);
    case Leave(fam) => RevokeCoherent(s, fam);
    case Wait(d) => TickCoherent(s, d);
    case Present(t, active, jti', secret') =>
      PresentEffect(ttl, hash, s, ev);
      if Usable(hash, s, t) {
        CoherentKnown(s, t.jti);
        RotatedCoherent(ttl, hash, s, t, jti', secret');
        RevokeCoherent(Rotated(ttl, hash, s, t, jti', secret'), t.fam);
      } else {
        RevokeCoherent(s, t.fam);
      }
  }

  lemma {:induction false} RunCoherent(ttl: nat, hash: Digest, s: State, evs: seq<Event>)
    requires Coherent(s) && ProperRun(ttl, hash, s, evs)
    ensures Coherent(Run(ttl, hash, s, evs))
    decreases |evs|
  {
    hide Coherent, Next, Proper;
    if evs != [] {
      NextCoherent(ttl, hash, s, evs[0]);
      RunCoherent(ttl, hash, Next(ttl, hash, s, evs[0]), evs[1..]);
    }
  }

  /** In every serialized run each family's index set is exactly its live ids, of which there is at most one. */
  lemma IndexIsLive(ttl: nat, hash: Digest, evs: seq<Event>, fam: string)
    requires ProperRun(ttl, hash, FRESH, evs)
    ensures var s := Run(ttl, hash, FRESH, evs);
      Members(s.store, fam) == LiveOf(s, fam) && forall i, j :: i in LiveOf(s, fam) && j in LiveOf(s, fam) ==> i == j
  {
    hide ProperRun, Run;
    RunCoherent(ttl, hash, FRESH, evs);
    var s := Run(ttl, hash, FRESH, evs);
    if fam in s.store.fams {
      var j :| j in s.store.jtis && s.famOf[j] == fam;
      assert s.store.fams[fam].members == {j};
    }
  }

  // ---------- dead families and used tokens ----------

  lemma DeadStaysDead(ttl: nat, hash: Digest, s: State, ev: Event, fam: string)
    requires Coherent(s) && Proper(s, ev) && fam in s.used && LiveOf(s, fam) == {}
    ensures LiveOf(Next(ttl, hash, s, ev), fam) == {} && fam in Next(ttl, hash, s, ev).used
    ensures ev.Present? && ev.t.fam == fam ==> !Accepted(ttl, hash, s, ev)
  {
    hide Accepted;
    if ev.Present? {
      PresentEffect(ttl, hash, s, ev);
      if ev.t.fam == fam && ev.t.jti in s.store.jtis {
        assert ev.t.jti in LiveOf(s, fam);
      }
    }
    forall j | j in LiveOf(Next(ttl, hash, s, ev), fam) ensures j in LiveOf(s, fam) {
    }
  }

  /** Once a family in use has no live id, no token of it is accepted again, in any serialized run and at any time. */
  lemma {:induction false} DeadFamilyNeverAccepted(ttl: nat, hash: Digest, s: State, evs: seq<Event>, fam: string, ev: Event)
    requires Coherent(s) && ProperRun(ttl, hash, s, evs) && fam in s.used && LiveOf(s, fam) == {}
    requires Proper(Run(ttl, hash, s, evs), ev) && ev.Present? && ev.t.fam == fam
    ensures !Accepted(ttl, hash, Run(ttl, hash, s, evs), ev)
    decreases |evs|
  {
    hide Coherent, Next, Proper, LiveOf, Accepted;
    if evs == [] {
      DeadStaysDead(ttl, hash, s, ev, fam);
    } else {
      NextCoherent(ttl, hash, s, evs[0]);
      DeadStaysDead(ttl, hash, s, evs[0], fam);
      DeadFamilyNeverAccepted(ttl, hash, Next(ttl, hash, s, evs[0]), evs[1..], fam, ev);
    }
  }

  /** The family an event ends: logout, or a refused token (unknown, expired, reused, wrong secret, inactive account). */
  predicate Ends(ttl: nat, hash: Digest, s: State, ev: Event, fam: string) {
    (ev.Leave? && ev.fam == fam) || (ev.Present? && ev.t.fam == fam && !Accepted(ttl, hash, s, ev))
  }

  /** After a logout or a refused token of a family, no token of that family is ever accepted again. */
  lemma RevocationIsFinal(ttl: nat, hash: Digest, before: seq<Event>, end: Event, after: seq<Event>, fam: string, ev: Event)
    requires ProperRun(ttl, hash, FRESH, before)
    requires var s := Run(ttl, hash, FRESH, before);
      && Proper(s, end) && Ends(ttl, hash, s, end, fam) && fam in s.used
      && ProperRun(ttl, hash, Next(ttl, hash, s, end), after)
      && Proper(Run(ttl, hash, Next(ttl, hash, s, end), after), ev)
    requires ev.Present? && ev.t.fam == fam
    ensures !Accepted(ttl, hash, Run(ttl, hash, Next(ttl, hash, Run(ttl, hash, FRESH, before), end), after), ev)
  {
    hide ProperRun, Run, Coherent, Proper, LiveOf, Accepted;
    var s := Run(ttl, hash, FRESH, before);
    FreshCoherent();
    RunCoherent(ttl, hash, FRESH, before);
    NextCoherent(ttl, hash, s, end);
    assert fam in Next(ttl, hash, s, end).used;
    DeadFamilyNeverAccepted(ttl, hash, Next(ttl, hash, s, end), after, fam, ev);
  }

  lemma FreshCoherent()
    ensures Coherent(FRESH)
  {
  }

  lemma UsedIdStaysUsed(ttl: nat, hash: Digest, s: State, ev: Event, jti: string)
    requires Coherent(s) && Proper(s, ev) && jti in s.famOf && jti !in s.store.jtis
    ensures jti in Next(ttl, hash, s, ev).famOf && jti !in Next(ttl, hash, s, ev).store.jtis
  {
    hide Accepted;
    if ev.Present? {
      PresentEffect(ttl, hash, s, ev);
    }
  }

  /** An id that has been consumed, revoked or has expired is never accepted again. */
  lemma {:induction false} UsedIdNeverAccepted(ttl: nat, hash: Digest, s: State, evs: seq<Event>, jti: string, ev: Event)
    requires Coherent(s) && ProperRun(ttl, hash, s, evs) && jti in s.famOf && jti !in s.store.jtis
    requires Proper(Run(ttl, hash, s, evs), ev) && ev.Present? && ev.t.jti == jti
    ensures !Accepted(ttl, hash, Run(ttl, hash, s, evs), ev)
    decreases |evs|
  {
    hide Coherent, Next, Proper;
    if evs == [] {
    } else {
      NextCoherent(ttl, hash, s, evs[0]);
      UsedIdStaysUsed(ttl, hash, s, evs[0], jti);
      UsedIdNeverAccepted(ttl, hash, Next(ttl, hash, s, evs[0]), evs[1..], jti, ev);
    }
  }

  /** Single use: an accepted token is refused when presented again, however much later, and that ends its family. */
  lemma AcceptedOnlyOnce(ttl: nat, hash: Digest, before: seq<Event>, first: Event, between: seq<Event>, again: Event)
    requires ProperRun(ttl, hash, FRESH, before) && first.Present? && again.Present? && again.t.jti == first.t.jti
    requires var s := Run(ttl, hash, FRESH, before);
      && Proper(s, first) && Accepted(ttl, hash, s, first)
      && ProperRun(ttl, hash, Next(ttl, hash, s, first), between)
      && Proper(Run(ttl, hash, Next(ttl, hash, s, first), between), again)
    ensures var s' := Run(ttl, hash, Next(ttl, hash, Run(ttl, hash, FRESH, before), first), between);
      !Accepted(ttl, hash, s', again) && LiveOf(Next(ttl, hash, s', again), again.t.fam) == {}
  {
    hide ProperRun, Run, Coherent, Proper, LiveOf, Accepted;
    var s := Run(ttl, hash, FRESH, before);
    FreshCoherent();
    RunCoherent(ttl, hash, FRESH, before);
    NextCoherent(ttl, hash, s, first);
    AcceptedIsConsumed(ttl, hash, s, first);
    var s1 := Next(ttl, hash, s, first);
    UsedIdNeverAccepted(ttl, hash, s1, between, first.t.jti, again);
    RunCoherent(ttl, hash, s1, between);
    NextCoherent(ttl, hash, Run(ttl, hash, s1, between), again);
  }

  lemma AcceptedIsConsumed(ttl: nat, hash: Digest, s: State, ev: Event)
    requires Coherent(s) && ev.Present? && Proper(s, ev) && Accepted(ttl, hash, s, ev)
    ensures ev.t.jti in Next(ttl, hash, s, ev).famOf && ev.t.jti !in Next(ttl, hash, s, ev).store.jtis
  {
    hide Accepted;
    PresentEffect(ttl, hash, s, ev);
    CoherentKnown(s, ev.t.jti);
  }
}
