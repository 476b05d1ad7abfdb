/** Racing refreshes of one token: when the winner's new token survives the family revocation that the loser sets off, and
    when a family's index still covers its live ids. */
module SessionRaces {
  import opened Tokens
  import opened Sessions
  import opened SessionRuns

  // ---------- who survives a revocation ----------

  /** The id is live, or a rotation under way will make it so. */
  predicate Held(n: Net, jti: string) {
    jti in n.store.jtis || jti in Pending(n)
  }

  /** The ids that rotations under way will write. */
  function Pending(n: Net): set<string> {
    set r | r in Rotations(n) :: n.inflight[r].jti
  }

  lemma PendingIs(n: Net, jti: string)
    ensures jti in Pending(n) <==> exists r :: r in Rotations(n) && n.inflight[r].jti == jti
  {
  }

  /** An id of the family is still held after a revocation's delete pipeline if and only if it was live and not listed, or
      a rotation under way is still to write it. */
  lemma SurvivesDropIff(ttl: nat, hash: Digest, n: Net, r: nat, jti: string)
    requires Possible(n, DropCmd(r)) && jti in n.famOf && n.famOf[jti] == n.inflight[r].fam
    ensures Held(Do(ttl, hash, n, DropCmd(r)), jti)
       <==> (jti in n.store.jtis && jti !in n.inflight[r].listed) || jti in Pending(n)
  {
    var n' := Do(ttl, hash, n, DropCmd(r));
    assert Rotations(n') == Rotations(n);
    assert Pending(n') == Pending(n);
  }

  // ---------- what an index lists ----------

  /** An index lists ids that were made in its family and have been written. */
  predicate IndexKnown(n: Net) {
    forall f, j :: f in n.store.fams && j in n.store.fams[f].members ==>
      j in n.famOf && n.famOf[j] == f && j !in Pending(n)
  }

  predicate Apart(n: Net) {
    OneHolder(n) && IndexKnown(n)
  }

  lemma NewPending(ttl: nat, hash: Digest, n: Net, c: Command, jti: string)
    requires jti in Pending(Do(ttl, hash, n, c))
    ensures jti in Pending(n) || (c.TakeCmd? && jti == c.jti' && Possible(n, c))
  {
    var n' := Do(ttl, hash, n, c);
    PendingIs(n', jti);
    var r :| r in Rotations(n') && n'.inflight[r].jti == jti;
    if r in Rotations(n) && n.inflight[r] == n'.inflight[r] {
      PendingIs(n, jti);
    }
  }

  lemma DoKeepsIndexKnown(ttl: nat, hash: Digest, n: Net, c: Command)
    requires OneHolder(n) && IndexKnown(n) && Verbatim(n, c)
    ensures IndexKnown(Do(ttl, hash, n, c))
  {
    hide HoldersApart;
    var n' := Do(ttl, hash, n, c);
    if Possible(n, c) {
      forall f, j | f in n'.store.fams && j in n'.store.fams[f].members
        ensures j in n'.famOf && n'.famOf[j] == f && j !in Pending(n')
      {
        if j in Pending(n') {
          NewPending(ttl, hash, n, c, j);
        }
        if c.WriteCmd? {
          WrittenIsNotPending(ttl, hash, n, c);
        }
      }
    }
  }

  lemma WrittenIsNotPending(ttl: nat, hash: Digest, n: Net, c: Command)
    requires OneHolder(n) && c.WriteCmd? && Possible(n, c)
    ensures n.inflight[c.r].jti !in Pending(Do(ttl, hash, n, c))
    ensures n.inflight[c.r].jti in n.famOf && n.famOf[n.inflight[c.r].jti] == n.inflight[c.r].fam
  {
    hide HoldersApart;
    var n' := Do(ttl, hash, n, c);
    assert c.r in Rotations(n);
    assert forall q :: q in Rotations(n') ==> q in Rotations(n) && q != c.r;
  }

  lemma {:induction false} RunKeepsApart(ttl: nat, hash: Digest, n: Net, cs: seq<Command>)
    requires Apart(n) && VerbatimRun(ttl, hash, n, cs)
    ensures Apart(DoAll(ttl, hash, n, cs))
    decreases |cs|
  {
    hide OneHolder, IndexKnown, Do, Verbatim;
    if cs != [] {
      DoKeepsOneHolder(ttl, hash, n, cs[0]);
      DoKeepsIndexKnown(ttl, hash, n, cs[0]);
      RunKeepsApart(ttl, hash, Do(ttl, hash, n, cs[0]), cs[1..]);
    }
  }

  /** What a known id can no longer do: be live again once it is not held, or be pending again once it is not pending. */
  lemma DoKeepsSpent(ttl: nat, hash: Digest, n: Net, c: Command, jti: string)
    requires OneHolder(n) && jti in n.famOf
    ensures jti in Do(ttl, hash, n, c).famOf && Do(ttl, hash, n, c).famOf[jti] == n.famOf[jti]
    ensures jti !in Pending(n) ==> jti !in Pending(Do(ttl, hash, n, c))
    ensures !Held(n, jti) ==> !Held(Do(ttl, hash, n, c), jti)
  {
    hide HoldersApart;
    var n' := Do(ttl, hash, n, c);
    if jti in Pending(n') {
      NewPending(ttl, hash, n, c, jti);
    }
    if c.WriteCmd? && Possible(n, c) {
      assert c.r in Rotations(n);
      PendingIs(n, n.inflight[c.r].jti);
    }
  }

  lemma {:induction false} RunKeepsSpent(ttl: nat, hash: Digest, n: Net, cs: seq<Command>, jti: string)
    requires OneHolder(n) && jti in n.famOf && VerbatimRun(ttl, hash, n, cs)
    ensures jti in DoAll(ttl, hash, n, cs).famOf && DoAll(ttl, hash, n, cs).famOf[jti] == n.famOf[jti]
    ensures jti !in Pending(n) ==> jti !in Pending(DoAll(ttl, hash, n, cs))
    ensures !Held(n, jti) ==> !Held(DoAll(ttl, hash, n, cs), jti)
    decreases |cs|
  {
    hide OneHolder, Pending, Held, Do, Verbatim;
    if cs != [] {
      DoKeepsOneHolder(ttl, hash, n, cs[0]);
      DoKeepsSpent(ttl, hash, n, cs[0], jti);
      RunKeepsSpent(ttl, hash, Do(ttl, hash, n, cs[0]), cs[1..], jti);
    }
  }

  lemma LiveIsNotPending(n: Net, jti: string)
    requires OneHolder(n) && jti in n.store.jtis
    ensures jti in n.famOf && jti !in Pending(n)
  {
    hide HoldersApart;
    if jti in Pending(n) {
      PendingIs(n, jti);
    }
  }

  // ---------- when an index covers its family ----------

  /** The family's index lists each of its live ids and outlives it. */
  predicate Covered(n: Net, fam: string) {
    forall j :: j in LiveIds(n, fam) ==>
      && fam in n.store.fams && j in n.store.fams[fam].members
      && n.store.jtis[j].expires <= n.store.fams[fam].expires
  }

  /** A delete pipeline whose listing has gone stale: an id was written since. */
  predicate StaleDrop(n: Net, c: Command, fam: string) {
    c.DropCmd? && Possible(n, c) && n.inflight[c.r].fam == fam && !(LiveIds(n, fam) <= n.inflight[c.r].listed)
  }

  lemma DropCoversIff(ttl: nat, hash: Digest, n: Net, c: Command, fam: string)
    requires OneHolder(n) && Covered(n, fam) && c.DropCmd? && Possible(n, c)
    ensures Covered(Do(ttl, hash, n, c), fam) <==> !StaleDrop(n, c, fam)
  {
    hide SingleUse, HoldersApart;
    var n' := Do(ttl, hash, n, c);
    ApartIsKnown(n);
    assert LiveIds(n', fam) == LiveIds(n, fam) - n.inflight[c.r].listed;
    if StaleDrop(n, c, fam) {
      var j :| j in LiveIds(n, fam) && j !in n.inflight[c.r].listed;
      assert j in LiveIds(n', fam) && fam !in n'.store.fams;
    }
  }

  lemma OthersCover(ttl: nat, hash: Digest, n: Net, c: Command, fam: string)
    requires OneHolder(n) && Covered(n, fam) && !c.DropCmd?
    ensures Covered(Do(ttl, hash, n, c), fam)
  {
    hide SingleUse;
    var n' := Do(ttl, hash, n, c);
    if Possible(n, c) {
      if c.WriteCmd? {
        assert c.r in Rotations(n);
      }
      forall j | j in LiveIds(n', fam)
        ensures fam in n'.store.fams && j in n'.store.fams[fam].members
        ensures n'.store.jtis[j].expires <= n'.store.fams[fam].expires
      {
        if j in LiveIds(n, fam) {
        }
      }
    }
  }

  /** A covered family stays covered through every command but a delete pipeline whose listing has gone stale. */
  lemma DoKeepsCoverIff(ttl: nat, hash: Digest, n: Net, c: Command, fam: string)
    requires OneHolder(n) && Covered(n, fam)
    ensures Covered(Do(ttl, hash, n, c), fam) <==> !StaleDrop(n, c, fam)
  {
    hide OneHolder, Covered;
    if c.DropCmd? && Possible(n, c) {
      DropCoversIff(ttl, hash, n, c, fam);
    } else if !c.DropCmd? {
      OthersCover(ttl, hash, n, c, fam);
    }
  }

  predicate CoveredThroughout(ttl: nat, hash: Digest, n: Net, cs: seq<Command>, fam: string)
    decreases |cs|
  {
    Covered(n, fam) && (cs == [] || CoveredThroughout(ttl, hash, Do(ttl, hash, n, cs[0]), cs[1..], fam))
  }

  predicate NoStaleDrop(ttl: nat, hash: Digest, n: Net, cs: seq<Command>, fam: string)
    decreases |cs|
  {
    cs == [] || (!StaleDrop(n, cs[0], fam) && NoStaleDrop(ttl, hash, Do(ttl, hash, n, cs[0]), cs[1..], fam))
  }

  lemma {:induction false} CoverThroughoutIff(ttl: nat, hash: Digest, n: Net, cs: seq<Command>, fam: string)
    requires OneHolder(n) && VerbatimRun(ttl, hash, n, cs) && Covered(n, fam)
    ensures CoveredThroughout(ttl, hash, n, cs, fam) <==> NoStaleDrop(ttl, hash, n, cs, fam)
    decreases |cs|
  {
    hide OneHolder, Covered, Do, Verbatim, StaleDrop;
    if cs != [] {
      DoKeepsOneHolder(ttl, hash, n, cs[0]);
      DoKeepsCoverIff(ttl, hash, n, cs[0], fam);
      if !StaleDrop(n, cs[0], fam) {
        CoverThroughoutIff(ttl, hash, Do(ttl, hash, n, cs[0]), cs[1..], fam);
      } else {
        assert !Covered(Do(ttl, hash, n, cs[0]), fam);
      }
    }
  }

  /** In every interleaving of verbatim tokens from the empty store, a family's index covers its live ids in every state if
      and only if no delete pipeline of the family runs with a stale listing. */
  lemma IndexCoversIff(ttl: nat, hash: Digest, cs: seq<Command>, fam: string)
    requires VerbatimRun(ttl, hash, QUIET, cs)
    ensures CoveredThroughout(ttl, hash, QUIET, cs, fam) <==> NoStaleDrop(ttl, hash, QUIET, cs, fam)
  {
    hide VerbatimRun, CoveredThroughout, NoStaleDrop;
    QuietOneHolder();
    CoverThroughoutIff(ttl, hash, QUIET, cs, fam);
  }

  /** A logout that nothing disturbs leaves exactly the live ids that the index does not list. */
  lemma UndisturbedLogoutLeaves(ttl: nat, hash: Digest, n: Net, r: nat, fam: string)
    requires r !in n.inflight
    ensures LiveIds(Do(ttl, hash, Do(ttl, hash, n, ListCmd(r, fam)), DropCmd(r)), fam)
         == LiveIds(n, fam) - Members(n.store, fam)
  {
    var n1 := Do(ttl, hash, n, ListCmd(r, fam));
    assert LiveIds(n1, fam) == LiveIds(n, fam);
  }

  // ---------- a refresh racing a revocation ----------

  /** The rest of a revocation: whatever happens between its listing and its delete pipeline. */
  function Revocation(r: nat, fam: string, between: seq<Command>): seq<Command> {
    [ListCmd(r, fam)] + (between + [DropCmd(r)])
  }

  lemma {:induction false} DoAllAppend(ttl: nat, hash: Digest, n: Net, a: seq<Command>, b: seq<Command>)
    ensures DoAll(ttl, hash, n, a + b) == DoAll(ttl, hash, DoAll(ttl, hash, n, a), b)
    ensures VerbatimRun(ttl, hash, n, a + b)
       <==> VerbatimRun(ttl, hash, n, a) && VerbatimRun(ttl, hash, DoAll(ttl, hash, n, a), b)
    decreases |a|
  {
    hide Do, Verbatim;
    if a == [] {
      assert a + b == b;
    } else {
      assert (a + b)[1..] == a[1..] + b;
      DoAllAppend(ttl, hash, Do(ttl, hash, n, a[0]), a[1..], b);
    }
  }

  /** In any interleaving an id of the family that is still held when a revocation deletes survives it if and only if the
      index did not list it at that revocation's listing; where the index covered its family, if and only if it was not
      yet live then. */
  lemma SurvivesRevocationIff(ttl: nat, hash: Digest, n: Net, r: nat, fam: string, between: seq<Command>, jti: string)
    requires Apart(n) && r !in n.inflight && VerbatimRun(ttl, hash, n, [ListCmd(r, fam)] + between)
    requires var n2 := DoAll(ttl, hash, n, [ListCmd(r, fam)] + between);
      && r in n2.inflight && n2.inflight[r] == Revoking(fam, Members(n.store, fam))
      && jti in n2.famOf && n2.famOf[jti] == fam && Held(n2, jti)
    ensures Held(DoAll(ttl, hash, n, Revocation(r, fam, between)), jti) <==> jti !in Members(n.store, fam)
    ensures Covered(n, fam) ==>
      (Held(DoAll(ttl, hash, n, Revocation(r, fam, between)), jti) <==> jti !in n.store.jtis)
  {
    hide OneHolder, IndexKnown, DoAll, VerbatimRun, Held, Pending, Covered, Members;
    var n2 := DoAll(ttl, hash, n, [ListCmd(r, fam)] + between);
    assert Revocation(r, fam, between) == [ListCmd(r, fam)] + between + [DropCmd(r)];
    DoAllAppend(ttl, hash, n, [ListCmd(r, fam)] + between, [DropCmd(r)]);
    OneMore(ttl, hash, n2, DropCmd(r));
    SurvivesDropIff(ttl, hash, n2, r, jti);
    HeldMeans(n2, jti);
    if jti in Members(n.store, fam) {
      ListedIsWritten(n, fam, jti);
      RunKeepsSpent(ttl, hash, n, [ListCmd(r, fam)] + between, jti);
      HeldMeans(n, jti);
    } else if jti in n.store.jtis {
      LiveIsNotPending(n, jti);
      RunKeepsSpent(ttl, hash, n, [ListCmd(r, fam)] + between, jti);
      if Covered(n, fam) {
        LiveIsListed(n, fam, jti);
      }
    }
  }

  lemma HeldMeans(n: Net, jti: string)
    ensures Held(n, jti) <==> jti in n.store.jtis || jti in Pending(n)
  {
    hide Pending;
  }

  lemma OneMore(ttl: nat, hash: Digest, n: Net, c: Command)
    ensures DoAll(ttl, hash, n, [c]) == Do(ttl, hash, n, c)
  {
    hide Do;
    assert [c][1..] == [];
  }

  lemma LiveIsListed(n: Net, fam: string, jti: string)
    requires Covered(n, fam) && jti in n.store.jtis && jti in n.famOf && n.famOf[jti] == fam
    ensures jti in Members(n.store, fam)
  {
  }

  lemma ListedIsWritten(n: Net, fam: string, jti: string)
    requires IndexKnown(n) && jti in Members(n.store, fam)
    ensures jti in n.famOf && jti !in Pending(n)
  {
    hide Pending;
  }

  // ---------- two refreshes of one token ----------

  /** A login, the winner's GETDEL, and the loser's, which finds nothing. */
  function Race(): seq<Command> {
    [IssueCmd(RefreshToken("f", "a", "s"), 1), TakeCmd(0, RefreshToken("f", "a", "s"), "b", "t"),
     TakeCmd(1, RefreshToken("f", "a", "s"), "c", "u")]
  }

  /** The winner's rotation is under way; the index still lists the consumed id. */
  function Raced(ttl: nat): Net {
    Net(Store(0, map[], map["f" := Family({"a"}, ttl)]), map[0 := Rotating("f", "a", 1, "b", "t")],
        map["a" := "f", "b" := "f"], {"f"}, 1, ["a"])
  }

  lemma RaceReached(ttl: nat, hash: Digest)
    ensures DoAll(ttl, hash, QUIET, Race()) == Raced(ttl) && VerbatimRun(ttl, hash, QUIET, Race())
  {
    var n1 := LoggedIn(ttl, hash);
    LoginReached(ttl, hash);
    DoThree(ttl, hash, QUIET, Race()[0], Race()[1], Race()[2]);
    assert n1.store.jtis - {"a"} == map[];
    assert Do(ttl, hash, n1, Race()[1]).used == {"f"} + {"f"} == {"f"};
    assert Do(ttl, hash, n1, Race()[1]) == Raced(ttl);
  }

  function LoggedIn(ttl: nat, hash: Digest): Net {
    Net(Store(0, map["a" := Session(1, hash("s"), ttl)], map["f" := Family({"a"}, ttl)]), map[], map["a" := "f"], {"f"}, 1, [])
  }

  lemma LoginReached(ttl: nat, hash: Digest)
    ensures Do(ttl, hash, QUIET, Race()[0]) == LoggedIn(ttl, hash) && Verbatim(QUIET, Race()[0])
  {
    assert {} - {} + {"a"} == {"a"};
    assert Do(ttl, hash, QUIET, Race()[0]).used == {} + {"f"} == {"f"};
  }

  lemma DoThree(ttl: nat, hash: Digest, n: Net, a: Command, b: Command, c: Command)
    ensures DoAll(ttl, hash, n, [a, b, c]) == Do(ttl, hash, Do(ttl, hash, Do(ttl, hash, n, a), b), c)
    ensures VerbatimRun(ttl, hash, n, [a, b, c])
       <==> Verbatim(n, a) && Verbatim(Do(ttl, hash, n, a), b) && Verbatim(Do(ttl, hash, Do(ttl, hash, n, a), b), c)
  {
    hide Do, Verbatim;
    var n1 := Do(ttl, hash, n, a);
    var n2 := Do(ttl, hash, n1, b);
    assert [a, b, c][1..] == [b, c] && [b, c][1..] == [c];
    OneMore(ttl, hash, n2, c);
    assert VerbatimRun(ttl, hash, n2, [c]) <==> Verbatim(n2, c);
  }

  /** What the family holds after the race, for an order of the loser's revocation and the winner's write. */
  function Outcome(ttl: nat, hash: Digest, a: Command, b: Command, c: Command): Net {
    DoAll(ttl, hash, QUIET, Race() + [a, b, c])
  }

  lemma OutcomeIs(ttl: nat, hash: Digest, a: Command, b: Command, c: Command)
    ensures Outcome(ttl, hash, a, b, c) == Do(ttl, hash, Do(ttl, hash, Do(ttl, hash, Raced(ttl), a), b), c)
  {
    hide Do, Raced, Race;
    RaceReached(ttl, hash);
    DoAllAppend(ttl, hash, QUIET, Race(), [a, b, c]);
    DoThree(ttl, hash, Raced(ttl), a, b, c);
  }

  lemma LateWriteSurvives(ttl: nat, hash: Digest)
    ensures LiveIds(Outcome(ttl, hash, ListCmd(2, "f"), DropCmd(2), WriteCmd(0)), "f") == {"b"}
  {
    hide Outcome;
    OutcomeIs(ttl, hash, ListCmd(2, "f"), DropCmd(2), WriteCmd(0));
  }

  lemma UnlistedWriteSurvives(ttl: nat, hash: Digest)
    ensures var n := Outcome(ttl, hash, ListCmd(2, "f"), WriteCmd(0), DropCmd(2));
      LiveIds(n, "f") == {"b"} && n.store.fams == map[] && n.inflight == map[]
  {
    hide Outcome;
    OutcomeIs(ttl, hash, ListCmd(2, "f"), WriteCmd(0), DropCmd(2));
  }

  lemma EarlyWriteDies(ttl: nat, hash: Digest)
    ensures LiveIds(Outcome(ttl, hash, WriteCmd(0), ListCmd(2, "f"), DropCmd(2)), "f") == {}
  {
    hide Outcome;
    OutcomeIs(ttl, hash, WriteCmd(0), ListCmd(2, "f"), DropCmd(2));
  }

  /** The winner writes after the loser's revocation, or between its listing and its delete pipeline: the new token
      survives. The winner writes before the loser lists: it does not. */
  lemma RacingRefreshes(ttl: nat, hash: Digest)
    ensures LiveIds(Outcome(ttl, hash, ListCmd(2, "f"), DropCmd(2), WriteCmd(0)), "f") == {"b"}
    ensures LiveIds(Outcome(ttl, hash, ListCmd(2, "f"), WriteCmd(0), DropCmd(2)), "f") == {"b"}
    ensures LiveIds(Outcome(ttl, hash, WriteCmd(0), ListCmd(2, "f"), DropCmd(2)), "f") == {}
  {
    hide Outcome, LiveIds;
    LateWriteSurvives(ttl, hash);
    UnlistedWriteSurvives(ttl, hash);
    EarlyWriteDies(ttl, hash);
  }

  /** In the second order the new token is in no index: a later logout that nothing disturbs deletes nothing. */
  lemma UnlistedTokenOutlivesLogout(ttl: nat, hash: Digest)
    ensures var n := Outcome(ttl, hash, ListCmd(2, "f"), WriteCmd(0), DropCmd(2));
      && !Covered(n, "f")
      && LiveIds(Do(ttl, hash, Do(ttl, hash, n, ListCmd(3, "f")), DropCmd(3)), "f") == {"b"}
  {
    hide Outcome, Do;
    UnlistedWriteSurvives(ttl, hash);
    var n := Outcome(ttl, hash, ListCmd(2, "f"), WriteCmd(0), DropCmd(2));
    assert "b" in LiveIds(n, "f");
    UndisturbedLogoutLeaves(ttl, hash, n, 3, "f");
  }
}
