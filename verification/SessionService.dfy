/** The session store as it runs: keys set, deleted and expired in place. */
module SessionService {
  import opened Wrappers
  import opened Tokens
  import opened Sessions

  class SessionStore {
    const ttl: nat
    const hash: Digest
    var now: int
    var jtis: map<string, Session>
    var fams: map<string, Family>

    function Keys(): Store
      reads this
    {
      Store(now, jtis, fams)
    }

    constructor (ttl: nat, hash: Digest)
      ensures Keys() == EMPTY_STORE && this.ttl == ttl && this.hash == hash
    {
      this.ttl, this.hash := ttl, hash;
      now, jtis, fams := 0, map[], map[];
    }

    /** A fresh family for a login. */
    method IssueToken(fam: string, jti: string, secret: string, user: UserId) returns (tok: string)
      modifies this
      ensures Keys() == Issue(old(Keys()), ttl, hash, RefreshToken(fam, jti, secret), user)
      ensures tok == TokenText(RefreshToken(fam, jti, secret))
    {
      jtis := jtis[jti := Session(user, hash(secret), now + ttl)];
      var members := if fam in fams then fams[fam].members else {};
      assert members - {} + {jti} == members + {jti};
      fams := fams[fam := Family(members + {jti}, now + ttl)];
      tok := fam + "." + jti + "." + secret;
    }

    /** Deletes every listed session key, one by one, and then the index. */
    method Revoke(fam: string)
      modifies this`jtis, this`fams
      ensures Keys() == RevokeFamily(old(Keys()), fam)
    {
      var listed := if fam in fams then fams[fam].members else {};
      var todo := listed;
      while todo != {}
        invariant todo <= listed
        invariant jtis == old(jtis) - (listed - todo)
        invariant fams == old(fams)
      {
        var j :| j in todo;
        assert old(jtis) - (listed - todo) - {j} == old(jtis) - (listed - (todo - {j}));
        jtis := jtis - {j};
        todo := todo - {j};
      }
      assert listed - {} == listed;
      fams := fams - {fam};
    }

    /** Consumes one session key; on success stores its sibling and relists the family. */
    method RotateToken(t: RefreshToken, jti': string, secret': string) returns (rotated: Option<(RefreshToken, UserId)>)
      modifies this`jtis, this`fams
      ensures (Keys(), rotated) == Rotate(old(Keys()), ttl, hash, t, jti', secret')
    {
      if t.jti !in jtis {
        return None;
      }
      var entry := jtis[t.jti];
      jtis := jtis - {t.jti};
      if entry.digest != hash(t.secret) {
        Revoke(t.fam);
        return None;
      }
      jtis := jtis[jti' := Session(entry.user, hash(secret'), now + ttl)];
      var members := if t.fam in fams then fams[t.fam].members else {};
      members := members - {t.jti};
      members := members + {jti'};
      fams := fams[t.fam := Family(members, now + ttl)];
      rotated := Some((RefreshToken(t.fam, jti', secret'), entry.user));
    }

    method Refreshed(tok: string, active: UserId -> bool, jti': string, secret': string) returns (out: Option<RefreshToken>)
      modifies this`jtis, this`fams
      ensures (Keys(), out) == RefreshText(old(Keys()), ttl, hash, active, tok, jti', secret')
    {
      hide Parts, Rotate, RevokeFamily;
      var parts := Split(tok);
      if |parts| != 3 || parts[0] == "" || parts[1] == "" || parts[2] == "" {
        return None;
      }
      var t := RefreshToken(parts[0], parts[1], parts[2]);
      var rotated := RotateToken(t, jti', secret');
      match rotated {
        case None =>
          Revoke(t.fam);
          return None;
        case Some((t', user)) =>
          if !active(user) {
            Revoke(t.fam);
            return None;
          }
          return Some(t');
      }
    }

    method LoggedOut(tok: string)
      modifies this`jtis, this`fams
      ensures Keys() == Logout(old(Keys()), tok)
    {
      hide Parts, RevokeFamily;
      var parts := Split(tok);
      if |parts| == 3 {
        Revoke(parts[0]);
      }
    }
  }
}
