/** Interleavings of the store's atomic commands: a rotation is a GETDEL and, later, a write pipeline; a revocation is a
    member listing and, later, a delete pipeline. Any number of both may be under way. */
module SessionRuns {
  import opened Tokens
  import opened Sessions

  /** A rotation past its GETDEL with its sibling's fresh id, or a revocation past its member listing. */
  datatype Op =
    | Rotating(fam: string, consumedId: string, user: UserId, jti: string, secret: string)
    | Revoking(fam: string, listed: set<string>)

  /** The store, the operations under way, and, as history, the families of all ids ever made, the families in use, the
      number of tokens issued at login, and the ids consumed by rotations, in order. */
  datatype Net = Net(store: Store, inflight: map<nat, Op>, famOf: map<string, string>, used: set<string>, issues: nat,
                     consumed: seq<string>)

  const QUIET := Net(EMPTY_STORE, map[], map[], {}, 0, [])

  datatype Command =
    | IssueCmd(t: RefreshToken, user: UserId)
    | TakeCmd(r: nat, t: RefreshToken, jti': string, secret': string)
    | WriteCmd(r: nat)
    | FailCmd(r: nat)
    | ListCmd(r: nat, fam: string)
    | DropCmd(r: nat)
    | TickCmd(d: nat)

  /** Fresh ids and free operation slots; the presented token may be anything. */
  predicate Possible(n: Net, c: Command) {
    match c
    case IssueCmd(t, _) => t.jti !in n.famOf && t.fam !in n.used
    case TakeCmd(r, _, jti', _) => r !in n.inflight && jti' !in n.famOf
    case WriteCmd(r) => r in n.inflight && n.inflight[r].Rotating?
    case FailCmd(r) => r in n.inflight
    case ListCmd(r, _) => r !in n.inflight
    case DropCmd(r) => r in n.inflight && n.inflight[r].Revoking?
    case TickCmd(_) => true
  }

  /** The effect of one atomic command; an impossible one has none. */
  function Do(ttl: nat, hash: Digest, n: Net, c: Command): Net {
    if Possible(n, c) then Effect(ttl, hash, n, c) else n
  }

  function Effect(ttl: nat, hash: Digest, n: Net, c: Command): Net
    requires Possible(n, c)
  {
    match c
    case IssueCmd(t, user) =>
      n.(store := Issue(n.store, ttl, hash, t, user), famOf := n.famOf[t.jti := t.fam], used := n.used + {t.fam},
         issues := n.issues + 1)
    case TakeCmd(r, t, jti', secret') =>
      if t.jti !in n.store.jtis then n
      else if n.store.jtis[t.jti].digest != hash(t.secret) then n.(store := TakeSession(n.store, t.jti))
      else n.(store := TakeSession(n.store, t.jti),
              inflight := n.inflight[r := Rotating(t.fam, t.jti, n.store.jtis[t.jti].user, jti', secret')],
              famOf := n.famOf[jti' := t.fam], used := n.used + {t.fam}, consumed := n.consumed + [t.jti])
    case WriteCmd(r) =>
      var op := n.inflight[r];
      n.(store := PutSession(n.store, ttl, op.fam, {op.consumedId}, op.jti, op.user, hash(op.secret)),
         inflight := n.inflight - {r})
    case FailCmd(r) => n.(inflight := n.inflight - {r})
    case ListCmd(r, fam) => n.(inflight := n.inflight[r := Revoking(fam, Members(n.store, fam))])
    case DropCmd(r) =>
      n.(store := DropFamily(n.store, n.inflight[r].fam, n.inflight[r].listed), inflight := n.inflight - {r})
    case TickCmd(d) => n.(store := Tick(n.store, d))
  }

  function DoAll(ttl: nat, hash: Digest, n: Net, cs: seq<Command>): Net
    decreases |cs|
  {
    if cs == [] then n else DoAll(ttl, hash, Do(ttl, hash, n, cs[0]), cs[1..])
  }

  // ---------- serialized operations are command sequences ----------

  /** A successful rotation is its GETDEL followed by its pipeline. */
  lemma RotateIsTakeThenWrite(ttl: nat, hash: Digest, n: Net, r: nat, t: RefreshToken, jti': string, secret': string)
    requires Possible(n, TakeCmd(r, t, jti', secret'))
    requires t.jti in n.store.jtis && n.store.jtis[t.jti].digest == hash(t.secret)
    ensures var n1 := Do(ttl, hash, n, TakeCmd(r, t, jti', secret'));
      && Possible(n1, WriteCmd(r))
      && Do(ttl, hash, n1, WriteCmd(r)).store == Rotate(n.store, ttl, hash, t, jti', secret').0
  {
  }

  /** A revocation is its listing followed by its pipeline. */
  lemma RevokeIsListThenDrop(ttl: nat, hash: Digest, n: Net, r: nat, fam: string)
    requires Possible(n, ListCmd(r, fam))
    ensures var n1 := Do(ttl, hash, n, ListCmd(r, fam));
      Possible(n1, DropCmd(r)) && Do(ttl, hash, n1, DropCmd(r)).store == RevokeFamily(n.store, fam)
  {
  }

  /** A rotation with a wrong secret is its GETDEL followed by a revocation. */
  lemma MismatchIsTakeThenRevoke(ttl: nat, hash: Digest, n: Net, r: nat, t: RefreshToken, jti': string, secret': string)
    requires Possible(n, TakeCmd(r, t, jti', secret'))
    requires t.jti in n.store.jtis && n.store.jtis[t.jti].digest != hash(t.secret)
    ensures var n1 := Do(ttl, hash, n, TakeCmd(r, t, jti', secret'));
      var n2 := Do(ttl, hash, n1, ListCmd(r, t.fam));
      Do(ttl, hash, n2, DropCmd(r)).store == Rotate(n.store, ttl, hash, t, jti', secret').0
  {
  }

  // ---------- single use and conservation, for any tokens ----------

  function Rotations(n: Net): set<nat> {
    set r | r in n.inflight && n.inflight[r].Rotating?
  }

  /** Ids are told apart: consumed ones are gone for good and distinct, reserved ones are not yet live and distinct. */
  predicate SingleUse(n: Net) {
    && (forall j :: j in n.store.jtis ==> j in n.famOf)
    && (forall i :: 0 <= i < |n.consumed| ==> n.consumed[i] in n.famOf && n.consumed[i] !in n.store.jtis)
    && (forall i, k :: 0 <= i < k < |n.consumed| ==> n.consumed[i] != n.consumed[k])
    && (forall r :: r in Rotations(n) ==> n.inflight[r].jti in n.famOf && n.inflight[r].jti !in n.store.jtis)
    && (forall r :: r in Rotations(n) ==> n.inflight[r].jti !in n.consumed)
    && (forall r, q :: r in Rotations(n) && q in Rotations(n) && r != q ==> n.inflight[r].jti != n.inflight[q].jti)
  }

  /** Live ids and rotations between their GETDEL and their pipeline never outnumber the logins. */
  predicate Conserved(n: Net) {
    |n.store.jtis| + |Rotations(n)| <= n.issues
  }

  lemma TakeKeepsSingleUse(ttl: nat, hash: Digest, n: Net, c: Command)
    requires SingleUse(n) && Possible(n, c) && c.TakeCmd?
    ensures SingleUse(Do(ttl, hash, n, c))
  {
  }

  lemma WriteKeepsSingleUse(ttl: nat, hash: Digest, n: Net, c: Command)
    requires SingleUse(n) && Possible(n, c) && c.WriteCmd?
    ensures SingleUse(Do(ttl, hash, n, c))
  {
  }

  lemma OtherKeepsSingleUse(ttl: nat, hash: Digest, n: Net, c: Command)
    requires SingleUse(n) && Possible(n, c) && !c.TakeCmd? && !c.WriteCmd?
    ensures SingleUse(Do(ttl, hash, n, c))
  {
  }

  lemma DoKeepsSingleUse(ttl: nat, hash: Digest, n: Net, c: Command)
    requires SingleUse(n)
    ensures SingleUse(Do(ttl, hash, n, c))
  {
    hide SingleUse, Effect, Possible;
    if !Possible(n, c) {
    } else if c.TakeCmd? {
      TakeKeepsSingleUse(ttl, hash, n, c);
    } else if c.WriteCmd? {
      WriteKeepsSingleUse(ttl, hash, n, c);
    } else {
      OtherKeepsSingleUse(ttl, hash, n, c);
    }
  }

  lemma NewIdsNotLive(n: Net, c: Command)
    requires SingleUse(n) && Possible(n, c)
    ensures c.IssueCmd? ==> c.t.jti !in n.store.jtis
    ensures c.WriteCmd? ==> n.inflight[c.r].jti !in n.store.jtis
  {
    if c.WriteCmd? {
      assert c.r in Rotations(n);
    }
  }

  lemma FewerKeys<V>(m: map<string, V>, m': map<string, V>)
    requires m'.Keys <= m.Keys
    ensures |m'| <= |m|
  {
    assert |m| == |m.Keys| && |m'| == |m'.Keys|;
    assert |m.Keys| == |m'.Keys| + |m.Keys - m'.Keys|;
  }

  lemma AddKey<V>(m: map<string, V>, k: string, v: V)
    requires k !in m
    ensures |m[k := v]| == |m| + 1
  {
    assert m[k := v].Keys == m.Keys + {k};
  }

  lemma RemoveKey<V>(m: map<string, V>, k: string)
    requires k in m
    ensures |m - {k}| == |m| - 1
  {
    assert (m - {k}).Keys == m.Keys - {k};
    assert |m.Keys - {k}| == |m.Keys| - 1;
  }

  /** Commands that neither issue nor write keep or lower the number of live ids. */
  lemma OtherConserves(ttl: nat, hash: Digest, n: Net, c: Command)
    requires Conserved(n) && Possible(n, c) && (c.ListCmd? || c.DropCmd? || c.TickCmd? || c.FailCmd?)
    ensures Conserved(Do(ttl, hash, n, c))
  {
    var n' := Do(ttl, hash, n, c);
    FewerKeys(n.store.jtis, n'.store.jtis);
    assert Rotations(n') <= Rotations(n);
    assert |Rotations(n)| == |Rotations(n')| + |Rotations(n) - Rotations(n')|;
  }

  lemma TakeConserves(ttl: nat, hash: Digest, n: Net, c: Command)
    requires Conserved(n) && Possible(n, c) && c.TakeCmd?
    ensures Conserved(Do(ttl, hash, n, c))
  {
    var n' := Do(ttl, hash, n, c);
    if c.t.jti in n.store.jtis {
      RemoveKey(n.store.jtis, c.t.jti);
      if n.store.jtis[c.t.jti].digest == hash(c.t.secret) {
        assert Rotations(n') == Rotations(n) + {c.r};
      }
    }
  }

  lemma DoConserves(ttl: nat, hash: Digest, n: Net, c: Command)
    requires SingleUse(n) && Conserved(n)
    ensures Conserved(Do(ttl, hash, n, c))
  {
    hide SingleUse;
    if !Possible(n, c) {
      return;
    }
    NewIdsNotLive(n, c);
    match c
    case IssueCmd(t, user) =>
      AddKey(n.store.jtis, t.jti, Session(user, hash(t.secret), n.store.now + ttl));
      assert Rotations(Do(ttl, hash, n, c)) == Rotations(n);
    case TakeCmd(_, _, _, _) => TakeConserves(ttl, hash, n, c);
    case WriteCmd(r) =>
      var op := n.inflight[r];
      AddKey(n.store.jtis, op.jti, Session(op.user, hash(op.secret), n.store.now + ttl));
      assert Rotations(Do(ttl, hash, n, c)) == Rotations(n) - {r};
    case _ => OtherConserves(ttl, hash, n, c);
  }

  lemma {:induction false} RunConserves(ttl: nat, hash: Digest, n: Net, cs: seq<Command>)
    requires SingleUse(n) && Conserved(n)
    ensures SingleUse(DoAll(ttl, hash, n, cs)) && Conserved(DoAll(ttl, hash, n, cs))
    decreases |cs|
  {
    hide SingleUse, Conserved, Do;
    if cs != [] {
      DoKeepsSingleUse(ttl, hash, n, cs[0]);
      DoConserves(ttl, hash, n, cs[0]);
      RunConserves(ttl, hash, Do(ttl, hash, n, cs[0]), cs[1..]);
    }
  }

  /** Under every interleaving and for any presented tokens: no id is consumed by two rotations, a consumed id is never
      live again, and live ids plus rotations under way never exceed the logins. */
  lemma EachIdRotatesOnce(ttl: nat, hash: Digest, cs: seq<Command>)
    ensures var n := DoAll(ttl, hash, QUIET, cs);
      && (forall i, k :: 0 <= i < k < |n.consumed| ==> n.consumed[i] != n.consumed[k])
      && (forall i :: 0 <= i < |n.consumed| ==> n.consumed[i] !in n.store.jtis)
      && |n.store.jtis| + |Rotations(n)| <= n.issues
  {
    hide DoAll;
    RunConserves(ttl, hash, QUIET, cs);
  }

  // ---------- one holder per family, for tokens presented within their own family ----------

  /** A known id is presented with the family it was issued in. */
  predicate Verbatim(n: Net, c: Command) {
    c.TakeCmd? && c.t.jti in n.famOf ==> n.famOf[c.t.jti] == c.t.fam
  }

  predicate VerbatimRun(ttl: nat, hash: Digest, n: Net, cs: seq<Command>)
    decreases |cs|
  {
    cs == [] || (Verbatim(n, cs[0]) && VerbatimRun(ttl, hash, Do(ttl, hash, n, cs[0]), cs[1..]))
  }

  /** The live ids of a family. */
  function LiveIds(n: Net, fam: string): set<string> {
    set j | j in n.store.jtis && j in n.famOf && n.famOf[j] == fam
  }

  /** The rotations under way in a family. */
  function RotatingIn(n: Net, fam: string): set<nat> {
    set r | r in n.inflight && n.inflight[r].Rotating? && n.inflight[r].fam == fam
  }

  /** The families of live ids and of rotations under way are all different. */
  predicate HoldersApart(n: Net) {
    && (forall j :: j in n.store.jtis ==> j in n.famOf)
    && (forall i, j :: i in n.store.jtis && j in n.store.jtis && i != j ==> n.famOf[i] != n.famOf[j])
    && (forall j, r :: j in n.store.jtis && r in Rotations(n) ==> n.famOf[j] != n.inflight[r].fam)
    && (forall r, q :: r in Rotations(n) && q in Rotations(n) && r != q ==> n.inflight[r].fam != n.inflight[q].fam)
  }

  predicate FamiliesKnown(n: Net) {
    && (forall j :: j in n.famOf ==> n.famOf[j] in n.used)
    && (forall r :: r in Rotations(n) ==> n.inflight[r].jti in n.famOf && n.famOf[n.inflight[r].jti] == n.inflight[r].fam)
  }

  predicate OneHolder(n: Net) {
    SingleUse(n) && FamiliesKnown(n) && HoldersApart(n)
  }

  lemma TakeKeepsHoldersApart(ttl: nat, hash: Digest, n: Net, c: Command)
    requires HoldersApart(n) && FamiliesKnown(n) && Possible(n, c) && Verbatim(n, c) && c.TakeCmd?
    ensures HoldersApart(Do(ttl, hash, n, c))
  {
  }

  lemma WriteKeepsHoldersApart(ttl: nat, hash: Digest, n: Net, c: Command)
    requires HoldersApart(n) && FamiliesKnown(n) && Possible(n, c) && c.WriteCmd?
    ensures HoldersApart(Do(ttl, hash, n, c))
  {
    assert c.r in Rotations(n);
  }

  lemma OtherKeepsHoldersApart(ttl: nat, hash: Digest, n: Net, c: Command)
    requires HoldersApart(n) && FamiliesKnown(n) && Possible(n, c) && !c.TakeCmd? && !c.WriteCmd?
    ensures HoldersApart(Do(ttl, hash, n, c))
  {
  }

  lemma DoKeepsFamiliesKnown(ttl: nat, hash: Digest, n: Net, c: Command)
    requires FamiliesKnown(n)
    ensures FamiliesKnown(Do(ttl, hash, n, c))
  {
  }

  lemma DoKeepsOneHolder(ttl: nat, hash: Digest, n: Net, c: Command)
    requires OneHolder(n) && Verbatim(n, c)
    ensures OneHolder(Do(ttl, hash, n, c))
  {
    hide SingleUse, HoldersApart, FamiliesKnown, Effect, Possible, Verbatim;
    if Possible(n, c) {
      DoKeepsSingleUse(ttl, hash, n, c);
      DoKeepsFamiliesKnown(ttl, hash, n, c);
      if c.TakeCmd? {
        TakeKeepsHoldersApart(ttl, hash, n, c);
      } else if c.WriteCmd? {
        WriteKeepsHoldersApart(ttl, hash, n, c);
      } else {
        OtherKeepsHoldersApart(ttl, hash, n, c);
      }
    }
  }

  lemma {:induction false} RunKeepsOneHolder(ttl: nat, hash: Digest, n: Net, cs: seq<Command>)
    requires OneHolder(n) && VerbatimRun(ttl, hash, n, cs)
    ensures OneHolder(DoAll(ttl, hash, n, cs))
    decreases |cs|
  {
    hide OneHolder, Do, Verbatim;
    if cs != [] {
      DoKeepsOneHolder(ttl, hash, n, cs[0]);
      RunKeepsOneHolder(ttl, hash, Do(ttl, hash, n, cs[0]), cs[1..]);
    }
  }

  /** Under every interleaving of verbatim tokens a family has at most one live id or rotation under way. */
  lemma OneHolderPerFamily(ttl: nat, hash: Digest, cs: seq<Command>, fam: string)
    requires VerbatimRun(ttl, hash, QUIET, cs)
    ensures |LiveIds(DoAll(ttl, hash, QUIET, cs), fam)| + |RotatingIn(DoAll(ttl, hash, QUIET, cs), fam)| <= 1
  {
    hide VerbatimRun, DoAll, SingleUse;
    QuietOneHolder();
    RunKeepsOneHolder(ttl, hash, QUIET, cs);
    HoldersCount(DoAll(ttl, hash, QUIET, cs), fam);
  }

  lemma QuietOneHolder()
    ensures OneHolder(QUIET)
  {
  }

  lemma AtMostOne<T>(xs: set<T>)
    requires forall x, y :: x in xs && y in xs ==> x == y
    ensures |xs| <= 1
  {
    if xs != {} {
      var x :| x in xs;
      assert xs == {x};
    }
  }

  lemma HoldersCount(n: Net, fam: string)
    requires HoldersApart(n)
    ensures |LiveIds(n, fam)| + |RotatingIn(n, fam)| <= 1
  {
    var live, rotating := LiveIds(n, fam), RotatingIn(n, fam);
    assert forall r :: r in rotating ==> r in Rotations(n);
    AtMostOne(live);
    AtMostOne(rotating);
  }

  // ---------- revocation against rotations under way ----------

  /** No token of the family is live or about to be. */
  predicate Dead(n: Net, fam: string) {
    fam in n.used && LiveIds(n, fam) == {} && RotatingIn(n, fam) == {}
  }

  lemma DeadStaysDead(ttl: nat, hash: Digest, n: Net, c: Command, fam: string)
    requires OneHolder(n) && Dead(n, fam) && Verbatim(n, c)
    ensures Dead(Do(ttl, hash, n, c), fam)
  {
    hide SingleUse, HoldersApart;
    if Possible(n, c) {
      var n' := Do(ttl, hash, n, c);
      assert HoldersKnown(n) by { ApartIsKnown(n); }
      if c.WriteCmd? {
        assert c.r in Rotations(n) && c.r !in RotatingIn(n, fam);
      }
      if c.TakeCmd? && c.t.jti in n.store.jtis {
        assert c.t.jti !in LiveIds(n, fam);
      }
      assert LiveIds(n', fam) <= LiveIds(n, fam);
      assert RotatingIn(n', fam) <= RotatingIn(n, fam);
    }
  }

  predicate HoldersKnown(n: Net) {
    forall j :: j in n.store.jtis ==> j in n.famOf
  }

  lemma ApartIsKnown(n: Net)
    requires OneHolder(n)
    ensures HoldersKnown(n)
  {
  }

  lemma {:induction false} DeadForAll(ttl: nat, hash: Digest, n: Net, cs: seq<Command>, fam: string)
    requires OneHolder(n) && Dead(n, fam) && VerbatimRun(ttl, hash, n, cs)
    ensures Dead(DoAll(ttl, hash, n, cs), fam)
    decreases |cs|
  {
    hide OneHolder, Dead, Do, Verbatim;
    if cs != [] {
      DeadStaysDead(ttl, hash, n, cs[0], fam);
      DoKeepsOneHolder(ttl, hash, n, cs[0]);
      DeadForAll(ttl, hash, Do(ttl, hash, n, cs[0]), cs[1..], fam);
    }
  }

  /** No continuation ever makes a token of the family live. */
  ghost predicate NeverLive(ttl: nat, hash: Digest, n: Net, fam: string) {
    forall cs :: VerbatimRun(ttl, hash, n, cs) ==> LiveIds(DoAll(ttl, hash, n, cs), fam) == {}
  }

  lemma PendingWriteRevives(ttl: nat, hash: Digest, n: Net, fam: string, r: nat)
    requires OneHolder(n) && r in RotatingIn(n, fam) && ttl > 0
    ensures VerbatimRun(ttl, hash, n, [WriteCmd(r)])
    ensures LiveIds(DoAll(ttl, hash, n, [WriteCmd(r)]), fam) != {}
  {
    assert r in Rotations(n);
    var n' := Do(ttl, hash, n, WriteCmd(r));
    assert [WriteCmd(r)][1..] == [];
    assert n.inflight[r].jti in LiveIds(n', fam);
  }

  /** A completed revocation ends its family for good if and only if, at its delete pipeline, no rotation of the family
      was between its GETDEL and its write, and the listing was still complete. */
  lemma RevocationFinalIff(ttl: nat, hash: Digest, n: Net, r: nat)
    requires OneHolder(n) && ttl > 0 && Possible(n, DropCmd(r)) && n.inflight[r].fam in n.used
    ensures var (fam, n') := (n.inflight[r].fam, Do(ttl, hash, n, DropCmd(r)));
      NeverLive(ttl, hash, n', fam) <==> RotatingIn(n, fam) == {} && LiveIds(n, fam) <= n.inflight[r].listed
  {
    hide OneHolder, VerbatimRun, DoAll;
    var fam, listed := n.inflight[r].fam, n.inflight[r].listed;
    var n' := Do(ttl, hash, n, DropCmd(r));
    DoKeepsOneHolder(ttl, hash, n, DropCmd(r));
    assert RotatingIn(n', fam) == RotatingIn(n, fam);
    assert LiveIds(n', fam) == LiveIds(n, fam) - listed;
    if RotatingIn(n, fam) == {} && LiveIds(n, fam) <= listed {
      forall cs | VerbatimRun(ttl, hash, n', cs) ensures LiveIds(DoAll(ttl, hash, n', cs), fam) == {} {
        DeadForAll(ttl, hash, n', cs, fam);
      }
    } else if RotatingIn(n, fam) != {} {
      var q :| q in RotatingIn(n', fam);
      PendingWriteRevives(ttl, hash, n', fam, q);
    } else {
      EmptyRun(ttl, hash, n');
      var j :| j in LiveIds(n, fam) && j !in listed;
      assert j in LiveIds(n', fam);
      assert LiveIds(DoAll(ttl, hash, n', []), fam) != {};
    }
  }

  lemma EmptyRun(ttl: nat, hash: Digest, n: Net)
    ensures VerbatimRun(ttl, hash, n, []) && DoAll(ttl, hash, n, []) == n
  {
  }

  /** A logout whose whole revocation falls between a refresh's GETDEL and its write. */
  function Overtaken(): seq<Command> {
    [IssueCmd(RefreshToken("f", "a", "s"), 1)] + ([TakeCmd(0, RefreshToken("f", "a", "s"), "b", "t")]
      + ([ListCmd(1, "f")] + ([DropCmd(1)] + ([WriteCmd(0)] + []))))
  }

  /** Then the family is alive again after its revocation. */
  lemma OvertakenRevocation(ttl: nat, hash: Digest)
    requires ttl > 0
    ensures VerbatimRun(ttl, hash, QUIET, Overtaken()) && LiveIds(DoAll(ttl, hash, QUIET, Overtaken()), "f") == {"b"}
  {
  }
}
