/** What per-appliance serialisation buys: the safety arguments of the handlers' comments, over whole runs. */
module Guarantees {
  import opened Wrappers
  import opened Tokens
  import opened Persistence
  import opened Protocol
  import opened Runs
  import opened Lifecycle
  import opened Credentials
  import opened Serial
  import opened Freshness
  import Login
  import opened Outcomes

  function Last(s: seq<string>): string
    requires s != []
  {
    s[|s| - 1]
  }

  // ---------- the live secret ----------

  /** While an appliance is active, and no claim of it is between activation and response, exactly one
      secret authenticates: the one in the most recent successful response. */
  lemma LastIssuedIsLive(ys: seq<System>, es: seq<Event>, id: int, j: nat)
    requires Run(ys, es) && Serialised(ys) && j < |ys|
    requires StatusIs(ys[j], id, Active) && !SomeFinishing(ys[j], id)
    ensures Issued(ys[j].h, id) != []
    ensures forall x :: SecretIs(ys[j], id, Sha256(x)) <==> x == Last(Issued(ys[j].h, id))
  {
    AlwaysSound(ys, es, j);
    assert SoundAt(ys[j], id);
  }

  /** In that window the live secret is the one the claim is about to return. */
  lemma FinishingSecretIsLive(ys: seq<System>, es: seq<Event>, c: nat, j: nat)
    requires Run(ys, es) && Serialised(ys) && j < |ys| && c in ys[j].calls && Finishing(ys[j].calls[c])
    ensures var id := Subject(ys[j].calls[c].q);
            && StatusIs(ys[j], id, Active)
            && forall x :: SecretIs(ys[j], id, Sha256(x)) <==> x == ys[j].calls[c].pc.secret
  {
    AlwaysSound(ys, es, j);
    assert SeesOwn(ys[j], c);
  }

  /** At every instant an active appliance has a cluster secret. */
  lemma ActiveHasSecret(ys: seq<System>, es: seq<Event>, id: int, j: nat)
    requires Run(ys, es) && Serialised(ys) && j < |ys| && StatusIs(ys[j], id, Active)
    ensures id in ys[j].t.secrets
  {
    AlwaysSound(ys, es, j);
    assert SoundAt(ys[j], id);
  }

  lemma ListingIsExact(t: Tables)
    requires forall id :: id in t.rows ==> 0 < id < t.nextId
    ensures forall id :: (id in t.rows && t.rows[id].status == Active) <==>
              exists k :: 0 <= k < |Listing(t)| && Listing(t)[k].id == id
    ensures forall k :: 0 <= k < |Listing(t)| ==>
              var p := Listing(t)[k]; p.id in t.rows && p == Param(p.id, t.rows[p.id].hostLabel, t.rows[p.id].name)
    ensures forall a, b :: 0 <= a < b < |Listing(t)| ==> Listing(t)[a].id < Listing(t)[b].id
  {
    hide Listing;
    ListingListsActive(t);
    forall id | id in t.rows && t.rows[id].status == Active
      ensures exists k :: 0 <= k < |Listing(t)| && Listing(t)[k].id == id
    {
      assert HasRow(t, id, Active);
    }
  }

  /** Nothing is listed before its secret exists: the plugin's list names exactly the active appliances,
      and each has its cluster secret at that instant. */
  lemma ListedHaveSecrets(ys: seq<System>, es: seq<Event>, c: nat, j: nat)
    requires Run(ys, es) && Serialised(ys) && j < |es| && es[j].Turn? && es[j].c == c
    requires c in ys[j].calls && ys[j].calls[c].pc.List? && !es[j].e.fail
    ensures c in ys[j + 1].calls && ys[j + 1].calls[c].pc == End(Params(Listing(ys[j].t)))
    ensures forall id :: StatusIs(ys[j], id, Active) <==>
              exists k :: 0 <= k < |Listing(ys[j].t)| && Listing(ys[j].t)[k].id == id
    ensures forall k :: 0 <= k < |Listing(ys[j].t)| ==> Listing(ys[j].t)[k].id in ys[j].t.secrets
  {
    hide Act, Apply, Record, Do, Listing;
    assert StepAt(ys, es, j);
    CallStep(ys[j], es[j], c);
    AlwaysRegistry(ys, es, j);
    ListingIsExact(ys[j].t);
    forall k | 0 <= k < |Listing(ys[j].t)| ensures Listing(ys[j].t)[k].id in ys[j].t.secrets {
      var id := Listing(ys[j].t)[k].id;
      assert StatusIs(ys[j], id, Active);
      ActiveHasSecret(ys, es, id, j);
    }
  }

  // ---------- the two stores ----------

  predicate StoresAgree(y: System, id: int) {
    id in y.t.secrets && SecretIs(y, id, Sha256(y.t.secrets[id]))
  }

  /** A rotation's write of the new hash, the second of its two writes. */
  predicate HashWrite(y: System, v: Event, id: int) {
    v.Turn? && v.c in y.calls && Rotating(y.calls[v.c]) && Subject(y.calls[v.c].q) == id
  }

  /** The last hash write by a rotation before j, if any, failed. */
  ghost predicate LastWriteFailed(ys: seq<System>, es: seq<Event>, id: int, j: nat)
    requires Path(ys, es) && j < |ys|
  {
    exists i :: 0 <= i < j && HashWrite(ys[i], es[i], id) && es[i].e.fail
                && forall k :: i < k < j ==> !HashWrite(ys[k], es[k], id)
  }

  lemma HashWriteFails(ys: seq<System>, es: seq<Event>, id: int, j: nat)
    requires Run(ys, es) && Serialised(ys) && j < |es| && HashWrite(ys[j], es[j], id)
    ensures id in ys[j + 1].h.stale <==> es[j].e.fail
  {
    hide Goto, Apply;
    assert StepAt(ys, es, j);
    AlwaysSound(ys, es, j);
    assert SeesOwn(ys[j], es[j].c);
  }

  lemma OthersKeepStale(ys: seq<System>, es: seq<Event>, id: int, j: nat)
    requires Run(ys, es) && j < |es| && !HashWrite(ys[j], es[j], id)
    ensures id in ys[j + 1].h.stale <==> id in ys[j].h.stale
  {
    hide Goto, Act, Apply;
    assert StepAt(ys, es, j);
  }

  lemma {:induction false} StaleMeansLastWriteFailed(ys: seq<System>, es: seq<Event>, id: int, j: nat)
    requires Run(ys, es) && Serialised(ys) && j < |ys|
    ensures id in ys[j].h.stale <==> LastWriteFailed(ys, es, id, j)
    decreases j
  {
    hide StepAt, Rotating;
    if j > 0 {
      StaleMeansLastWriteFailed(ys, es, id, j - 1);
      if HashWrite(ys[j - 1], es[j - 1], id) {
        HashWriteFails(ys, es, id, j - 1);
      } else {
        OthersKeepStale(ys, es, id, j - 1);
        if LastWriteFailed(ys, es, id, j - 1) {
          var i :| 0 <= i < j - 1 && HashWrite(ys[i], es[i], id) && es[i].e.fail
                   && forall k :: i < k < j - 1 ==> !HashWrite(ys[k], es[k], id);
          assert forall k :: i < k < j ==> !HashWrite(ys[k], es[k], id);
        }
      }
    }
  }

  /** Exact divergence: whenever no rotation is between its two writes, the cluster secret of an active
      appliance hashes to its stored hash if and only if the last rotation to reach its hash write
      did not fail there. */
  lemma StoresDivergeExactly(ys: seq<System>, es: seq<Event>, id: int, j: nat)
    requires Run(ys, es) && Serialised(ys) && j < |ys|
    requires StatusIs(ys[j], id, Active) && !SomeRotating(ys[j], id)
    ensures StoresAgree(ys[j], id) <==> !LastWriteFailed(ys, es, id, j)
  {
    AlwaysSound(ys, es, j);
    assert SoundAt(ys[j], id);
    StaleMeansLastWriteFailed(ys, es, id, j);
  }

  /** A rotation that responds with a secret has just restored agreement. */
  lemma RotationRestoresAgreement(ys: seq<System>, es: seq<Event>, id: int, j: nat)
    requires Run(ys, es) && Serialised(ys) && j < |es| && HashWrite(ys[j], es[j], id) && !es[j].e.fail
    ensures StatusIs(ys[j + 1], id, Active) && StoresAgree(ys[j + 1], id)
    ensures es[j].c in ys[j + 1].calls && ys[j + 1].calls[es[j].c].pc.End?
    ensures ys[j + 1].calls[es[j].c].pc.response.Secret?
    ensures ys[j + 1].t.secrets[id] == ys[j + 1].calls[es[j].c].pc.response.secret
  {
    hide Record;
    assert StepAt(ys, es, j);
    AlwaysSound(ys, es, j);
    AlwaysSound(ys, es, j + 1);
    var c := es[j].c;
    assert SeesOwn(ys[j], c);
    CallStep(ys[j], es[j], c);
  }

  // ---------- one claim, one direction ----------

  predicate Won(k: Call, id: int) {
    Door(k.q) && Subject(k.q) == id && k.pc.End? && k.pc.response.Secret?
  }

  function Winners(y: System, id: int): set<nat> {
    set c | c in y.calls && Won(y.calls[c], id)
  }

  lemma {:induction false} WinnersAreCounted(ys: seq<System>, es: seq<Event>, id: int, j: nat)
    requires Run(ys, es) && j < |ys|
    ensures |Winners(ys[j], id)| == ys[j].h.claimed[id]
    decreases j
  {
    hide Goto, Act, Apply, Record, Do, Won;
    if j > 0 {
      WinnersAreCounted(ys, es, id, j - 1);
      assert StepAt(ys, es, j - 1);
      WinnersStep(ys[j - 1], es[j - 1], id);
    } else {
      assert Winners(INIT, id) == {};
    }
  }

  lemma WinnersStep(y: System, v: Event, id: int)
    requires Can(y, v)
    ensures |Winners(Do(y, v), id)| - |Winners(y, id)| == Do(y, v).h.claimed[id] - y.h.claimed[id]
  {
    hide Goto, Act, Apply, Record, Won, Do;
    match v
    case Open(c, q) => WinnersOpen(y, c, q, id);
    case Turn(c, e) => WinnersTurn(y, c, e, id);
  }

  lemma WinnersOpen(y: System, c: nat, q: Request, id: int)
    requires Can(y, Open(c, q))
    ensures Winners(Do(y, Open(c, q)), id) == Winners(y, id) && Do(y, Open(c, q)).h == y.h
  {
    hide BearerToken;
  }

  lemma WinnersTurn(y: System, c: nat, e: Env, id: int)
    requires Can(y, Turn(c, e))
    ensures |Winners(Do(y, Turn(c, e)), id)| - |Winners(y, id)| == Do(y, Turn(c, e)).h.claimed[id] - y.h.claimed[id]
  {
    hide Goto, Act, Apply, Publishes, Issued, Rotating;
    var z := Do(y, Turn(c, e));
    assert z.calls == y.calls[c := z.calls[c]];
    if Won(z.calls[c], id) {
      assert Winners(z, id) == Winners(y, id) + {c};
    } else {
      assert Winners(z, id) == Winners(y, id);
    }
  }

  /** Claim and EnrollRedeem together succeed at most once per appliance. */
  lemma ClaimedAtMostOnce(ys: seq<System>, es: seq<Event>, id: int, j: nat, c: nat, d: nat)
    requires Run(ys, es) && Serialised(ys) && j < |ys| && c in ys[j].calls && d in ys[j].calls
    requires Won(ys[j].calls[c], id) && Won(ys[j].calls[d], id)
    ensures c == d
  {
    AlwaysSound(ys, es, j);
    assert SoundAt(ys[j], id);
    WinnersAreCounted(ys, es, id, j);
    var w := Winners(ys[j], id);
    assert c in w && d in w;
    if c != d {
      SmallerSet({c, d}, w);
    }
  }

  /** The secrets returned by responses for an appliance, in the order of the responses. */
  function Returned(ys: seq<System>, es: seq<Event>, id: int, j: nat): seq<string>
    requires |ys| == |es| + 1 && j < |ys|
  {
    if j == 0 then []
    else
      var before, v := Returned(ys, es, id, j - 1), es[j - 1];
      if v.Turn? && v.c in ys[j].calls && Subject(ys[j].calls[v.c].q) == id
         && ys[j].calls[v.c].pc.End? && ys[j].calls[v.c].pc.response.Secret?
      then before + [ys[j].calls[v.c].pc.response.secret] else before
  }

  lemma {:induction false} IssuedIsReturned(ys: seq<System>, es: seq<Event>, id: int, j: nat)
    requires Run(ys, es) && j < |ys|
    ensures Issued(ys[j].h, id) == Returned(ys, es, id, j)
    decreases j
  {
    hide Goto, Act, Apply, Begin, Publishes, Rotating, Subject;
    if j > 0 {
      IssuedIsReturned(ys, es, id, j - 1);
      assert StepAt(ys, es, j - 1);
      CallStep(ys[j - 1], es[j - 1], es[j - 1].c);
    }
  }

  function Level(s: Status): nat {
    match s case Pending => 0 case Active => 1 case Revoked => 2
  }

  /** Status only moves forward: pending, then active, then revoked, possibly skipping active. */
  lemma {:induction false} StatusMovesForward(ys: seq<System>, es: seq<Event>, id: int, i: nat, j: nat)
    requires Run(ys, es) && Serialised(ys) && i <= j < |ys| && id in ys[i].t.rows
    ensures id in ys[j].t.rows && Level(ys[i].t.rows[id].status) <= Level(ys[j].t.rows[id].status)
    decreases j
  {
    hide Goto, Act, Apply, Record, Do, Begin;
    if i < j {
      StatusMovesForward(ys, es, id, i, j - 1);
      var y, v := ys[j - 1], es[j - 1];
      AlwaysRegistry(ys, es, j - 1);
      AlwaysSound(ys, es, j - 1);
      assert StepAt(ys, es, j - 1);
      RowStep(y, v, id);
      if v.Turn? {
        assert SeesOwn(y, v.c);
      }
    }
  }

  // ---------- authentication by two separate reads ----------

  predicate PastAuth(p: Pc) {
    || p.PutSecret? || p.PutHash? || p.Consume? || p.ConsumeCheck? || p.AskMember?
    || (p.End? && !p.response.Fail?)
  }

  lemma ReachPastAuth(k: Call, t: Tables, e: Env)
    requires Authenticating(k.q) && Fits(k.q, k.pc) && !k.pc.End? && PastAuth(Goto(k.q, k.pc, t, e))
    ensures PastAuth(k.pc) || (k.pc.AuthLoad? && Subject(k.q) in t.rows && t.rows[Subject(k.q)].status == Active)
  {}

  lemma ReachAuthLoad(k: Call, t: Tables, e: Env)
    requires Goto(k.q, k.pc, t, e).AuthLoad?
    ensures k.pc == AuthHash(Goto(k.q, k.pc, t, e).secret)
    ensures Subject(k.q) in t.rows && t.rows[Subject(k.q)].secretHash == Some(Sha256(k.pc.secret))
  {}

  lemma {:induction false} LoadedActive(ys: seq<System>, es: seq<Event>, c: nat, j: nat) returns (m: nat)
    requires Run(ys, es) && j < |ys| && c in ys[j].calls && Authenticating(ys[j].calls[c].q)
        && PastAuth(ys[j].calls[c].pc)
    ensures m < j && es[m].Turn? && es[m].c == c && c in ys[m].calls && ys[m].calls[c].q == ys[j].calls[c].q
    ensures ys[m].calls[c].pc.AuthLoad? && StatusIs(ys[m], Subject(ys[j].calls[c].q), Active)
    decreases j
  {
    hide Goto, Act, Apply, Record, Do;
    var i := Arrival(ys, es, c, j);
    CallsFit(ys, es, i);
    assert FitCall(ys[i].calls[c]);
    ReachPastAuth(ys[i].calls[c], ys[i].t, es[i].e);
    if ys[i].calls[c].pc.AuthLoad? {
      m := i;
    } else {
      m := LoadedActive(ys, es, c, i);
    }
  }

  /** The secret a call compares is the one its request bears. */
  lemma PresentedIsBearer(ys: seq<System>, es: seq<Event>, c: nat, j: nat)
    requires Run(ys, es) && j < |ys| && c in ys[j].calls && ys[j].calls[c].pc.AuthHash?
        && Authenticating(ys[j].calls[c].q)
    ensures BearerToken(ys[j].calls[c].q.auth) == Some(ys[j].calls[c].pc.secret)
  {
    hide Goto, Act, Apply, Do, BearerToken;
    if ys[j].calls[c].pc != Begin(ys[j].calls[c].q) {
      var i := Arrival(ys, es, c, j);
      NoneReachesAuthHash(ys[i].calls[c], ys[i].t, es[i].e);
    }
  }

  lemma NoneReachesAuthHash(k: Call, t: Tables, e: Env)
    requires !k.pc.End?
    ensures !Goto(k.q, k.pc, t, e).AuthHash?
  {}

  /** Linearisation: when authentication accepts the secret its request bears, then at the read of the hash that
      secret matched, and if a response had returned it before, the appliance was active at that very read. */
  lemma AcceptedWasLive(ys: seq<System>, es: seq<Event>, c: nat, j: nat) returns (i: nat, x: string)
    requires Run(ys, es) && Serialised(ys) && j < |ys| && c in ys[j].calls
    requires Authenticating(ys[j].calls[c].q) && PastAuth(ys[j].calls[c].pc)
    ensures i < j && es[i].Turn? && es[i].c == c && c in ys[i].calls
    ensures ys[i].calls[c] == Call(ys[j].calls[c].q, AuthHash(x)) && BearerToken(ys[j].calls[c].q.auth) == Some(x)
    ensures SecretIs(ys[i], Subject(ys[j].calls[c].q), Sha256(x))
    ensures x in Issued(ys[i].h, Subject(ys[j].calls[c].q)) ==> StatusIs(ys[i], Subject(ys[j].calls[c].q), Active)
  {
    hide Goto, Act, Apply, Record, Do, BearerToken, PastAuth, Sees;
    var m := LoadedActive(ys, es, c, j);
    i := Arrival(ys, es, c, m);
    ReachAuthLoad(ys[i].calls[c], ys[i].t, es[i].e);
    x := ys[i].calls[c].pc.secret;
    PresentedIsBearer(ys, es, c, i);
    var id := Subject(ys[j].calls[c].q);
    StatusMovesForward(ys, es, id, i, m);
    AlwaysSound(ys, es, i);
    assert SoundAt(ys[i], id);
  }

  // ---------- after a revoke ----------

  /** Where a call of a revoked appliance can stand: before its check, or refused. */
  predicate Shut(p: Pc) {
    || p.ClaimRead? || p.ClaimCheck? || p.ClaimDrop? || p.CodeRead? || p.CodeCheck? || p.CodeDrop? || p.CodePin?
    || p.LoadPending? || p.RevokeLoad? || p.RevokeStatus? || p.RotateLoad? || p.AuthHash? || p.AuthLoad? || p.LoginLoad?
    || (p.End? && p.response.Fail?)
  }

  lemma ShutStep(k: Call, t: Tables, e: Env)
    requires Shut(k.pc) && Subject(k.q) in t.rows && t.rows[Subject(k.q)].status == Revoked
    ensures Shut(Goto(k.q, k.pc, t, e)) && !Touches(Act(k.q, k.pc, t, e)) && !Rotating(k)
  {}

  lemma ReadyMeansPending(y: System, c: nat, id: int)
    requires AllSound(y) && c in Ready(y, id)
    ensures StatusIs(y, id, Pending)
  {
    assert SeesOwn(y, c);
  }

  /** With no overlap no claim of a revoked appliance is past its check. */
  lemma SerialRevokeIsDrained(ys: seq<System>, es: seq<Event>, id: int, i: nat)
    requires Run(ys, es) && Serialised(ys) && i < |ys| && StatusIs(ys[i], id, Revoked)
    ensures Ready(ys[i], id) == {}
  {
    hide Goto, Act, Apply, Record, Do, AllSound, IsReady;
    AlwaysSound(ys, es, i);
    if c :| c in Ready(ys[i], id) {
      ReadyMeansPending(ys[i], c, id);
    }
  }

  /** The revoke is final at state i: nothing overlaps, or at least no claim is past its check. */
  ghost predicate FinallyRevoked(ys: seq<System>, id: int, i: nat)
    requires i < |ys|
  {
    StatusIs(ys[i], id, Revoked) && (Serialised(ys) || Ready(ys[i], id) == {})
  }

  lemma StaysRevoked(ys: seq<System>, es: seq<Event>, id: int, i: nat, j: nat)
    requires Run(ys, es) && i <= j < |ys| && FinallyRevoked(ys, id, i)
    ensures StatusIs(ys[j], id, Revoked)
  {
    hide Serialised, Ready, RevokedForGood;
    if Serialised(ys) {
      SerialRevokeIsDrained(ys, es, id, i);
    }
    RevokeFinalIffDrained(ys, es, i, id);
    PathBetween(ys, es, i, j);
    StaysForGood(ys[i..j + 1], es[i..j], id, j - i);
  }

  lemma StaysForGood(ys: seq<System>, es: seq<Event>, id: int, j: nat)
    requires Path(ys, es) && RevokedForGood(ys[0], id) && j < |ys|
    ensures StatusIs(ys[j], id, Revoked)
  {}

  /** A call on the appliance other than the re-issue of its claim token. */
  predicate Concerns(q: Request, id: int) {
    HasSubject(q) && !q.Reissue? && q.id == id
  }

  /** Once revoked, whatever rows and codes are left behind, no call on that appliance opened later, nor one open
      by then and still before its check, succeeds: it is never claimed, redeemed, rotated, authenticated, revoked
      again or given a login code. */
  lemma {:induction false} RevokedRefusesAll(ys: seq<System>, es: seq<Event>, id: int, i: nat, c: nat, j: nat)
    requires Run(ys, es) && i <= j < |ys| && FinallyRevoked(ys, id, i)
    requires c in ys[j].calls && Concerns(ys[j].calls[c].q, id)
    requires c in ys[i].calls ==> Shut(ys[i].calls[c].pc)
    ensures Shut(ys[j].calls[c].pc)
    decreases j
  {
    hide Goto, Act, Apply, Record, Do, FinallyRevoked;
    if i < j {
      assert StepAt(ys, es, j - 1);
      CallStep(ys[j - 1], es[j - 1], c);
      if c in ys[j - 1].calls {
        RevokedRefusesAll(ys, es, id, i, c, j - 1);
        StaysRevoked(ys, es, id, i, j - 1);
        if es[j - 1].c == c {
          ShutStep(ys[j - 1].calls[c], ys[j - 1].t, es[j - 1].e);
        }
      }
    }
  }

  /** A CreateLoginCode past its check when the revoke lands still stores and returns its code. */
  lemma LateCodeIsIssued(ys: seq<System>, es: seq<Event>, id: int, i: nat, c: nat) returns (v: Event)
    requires Run(ys, es) && i < |ys| && StatusIs(ys[i], id, Revoked)
    requires c in ys[i].calls && ys[i].calls[c].q.CreateLoginCode? && ys[i].calls[c].q.id == id
    requires ys[i].calls[c].pc.LoginInsert?
    ensures Can(ys[i], v) && StatusIs(Do(ys[i], v), id, Revoked)
    ensures var z, p := Do(ys[i], v), ys[i].calls[c].pc;
            && c in z.calls && z.calls[c].pc == End(LoginCode(p.raw, p.expiresAt, p.hostLabel))
            && Sha256(p.raw) in z.t.logins
  {
    hide Do, Can, Begin, Fresh;
    v := NextTurn(ys[i], c);
    HeldCodeIsNew(ys, es, i, c);
    InsertStep(ys[i], c, v);
  }

  lemma HeldCodeIsNew(ys: seq<System>, es: seq<Event>, i: nat, c: nat)
    requires Run(ys, es) && i < |ys| && c in ys[i].calls && ys[i].calls[c].pc.LoginInsert?
    ensures Sha256(ys[i].calls[c].pc.raw) !in ys[i].t.logins
  {
    hide Do, Can, Begin, AllFit;
    var h := Sha256(ys[i].calls[c].pc.raw);
    AlwaysFresh(ys, es, i);
    assert HeldFresh(ys[i], c) && h in Held(ys[i].calls[c].pc);
    Login.AlwaysAgrees(ys, es, i);
    assert Login.CodeFits(ys[i], h);
  }

  lemma InsertStep(y: System, c: nat, v: Event)
    requires Can(y, v) && v.Turn? && v.c == c && !v.e.fail
    requires c in y.calls && y.calls[c].q.CreateLoginCode? && y.calls[c].pc.LoginInsert?
    requires StatusIs(y, y.calls[c].q.id, Revoked) && Sha256(y.calls[c].pc.raw) !in y.t.logins
    ensures StatusIs(Do(y, v), y.calls[c].q.id, Revoked)
    ensures var z, p := Do(y, v), y.calls[c].pc;
            && c in z.calls && z.calls[c].pc == End(LoginCode(p.raw, p.expiresAt, p.hostLabel))
            && Sha256(p.raw) in z.t.logins
  {
    hide Goto, Act, Record;
    InsertCompletes(y.calls[c], y.t, v.e);
  }

  /** The insert looks at the code's key and at the row's presence only. */
  lemma InsertCompletes(k: Call, t: Tables, e: Env)
    requires k.q.CreateLoginCode? && k.pc.LoginInsert? && k.q.id in t.rows && !e.fail && Sha256(k.pc.raw) !in t.logins
    ensures Goto(k.q, k.pc, t, e) == End(LoginCode(k.pc.raw, k.pc.expiresAt, k.pc.hostLabel))
    ensures Act(k.q, k.pc, t, e) == AddLogin(Sha256(k.pc.raw), LoginRow(k.q.id, k.q.user, k.pc.expiresAt))
  {}

  /** But a code first stored after the revoke logs nobody in, unless through a redemption that had by then been
      authenticated and had yet to consume its code. */
  lemma LateCodeNeedsEarlyRedeemer(ys: seq<System>, es: seq<Event>, id: int, i: nat, c: nat, j: nat)
    requires Run(ys, es) && i <= j < |ys| && FinallyRevoked(ys, id, i)
    requires c in ys[j].calls && Login.LoggedIn(ys[j].calls[c]) && ys[j].calls[c].q.id == id
    requires Sha256(ys[j].calls[c].q.code) !in ys[i].h.grants
    ensures c in ys[i].calls && ys[i].calls[c].q == ys[j].calls[c].q && ys[i].calls[c].pc.Consume?
  {
    hide Goto, Act, Apply, Record, Do, FinallyRevoked;
    if c !in ys[i].calls || Shut(ys[i].calls[c].pc) {
      RevokedRefusesAll(ys, es, id, i, c, j);
    }
    CallsRemain(ys, es, c, i, j);
    CallsFit(ys, es, i);
    assert FitCall(ys[i].calls[c]);
    Login.AlwaysAgrees(ys, es, i);
    assert Login.RedeemerFits(ys[i], c, ys[i].calls[c]);
  }

  /** Nor is it ever listed again. */
  lemma RevokedIsUnlisted(ys: seq<System>, es: seq<Event>, id: int, i: nat, c: nat, j: nat)
    requires Run(ys, es) && i <= j < |es| && FinallyRevoked(ys, id, i)
    requires es[j].Turn? && es[j].c == c && c in ys[j].calls && ys[j].calls[c].pc.List? && !es[j].e.fail
    ensures c in ys[j + 1].calls && ys[j + 1].calls[c].pc.End? && ys[j + 1].calls[c].pc.response.Params?
    ensures var ps := ys[j + 1].calls[c].pc.response.params; forall k :: 0 <= k < |ps| ==> ps[k].id != id
  {
    hide Act, Apply, Record, Do, Listing, FinallyRevoked;
    assert Run(ys, es) && StepAt(ys, es, j);
    CallStep(ys[j], es[j], c);
    StaysRevoked(ys, es, id, i, j);
    AlwaysRegistry(ys, es, j);
    ListingIsExact(ys[j].t);
    assert ys[j + 1].calls[c].pc.response.params == Listing(ys[j].t);
  }

  /** No call at work on the appliance is past its check. */
  ghost predicate AllShut(y: System, id: int) {
    forall c :: c in y.calls && On(y.calls[c], id) ==> Shut(y.calls[c].pc)
  }

  /** A Revoke that stopped half-way cannot be completed by another: once no call on a revoked
      appliance is past its check, its row and its cluster secret, if one was left, stay as they are for ever. */
  lemma {:induction false} HalfRevokeIsPermanent(ys: seq<System>, es: seq<Event>, id: int, i: nat, j: nat)
    requires Run(ys, es) && Serialised(ys) && i <= j < |ys|
    requires StatusIs(ys[i], id, Revoked) && AllShut(ys[i], id)
    ensures AllShut(ys[j], id) && ViewOf(ys[j], id) == ViewOf(ys[i], id)
    decreases j
  {
    hide Goto, Act, Apply, Record, Do;
    if i < j {
      HalfRevokeIsPermanent(ys, es, id, i, j - 1);
      SameViewSameStatus(ys[i], ys[j - 1], id);
      CallsFit(ys, es, j - 1);
      AlwaysRegistry(ys, es, j - 1);
      AlwaysSound(ys, es, j - 1);
      assert StepAt(ys, es, j - 1);
      ShutMove(ys[j - 1], es[j - 1], id);
    }
  }

  lemma SameViewSameStatus(y: System, z: System, id: int)
    requires ViewOf(z, id) == ViewOf(y, id) && StatusIs(y, id, Revoked)
    ensures StatusIs(z, id, Revoked)
  {
    assert ViewOf(z, id).row == ViewOf(y, id).row;
  }

  lemma ShutMove(y: System, v: Event, id: int)
    requires Can(y, v) && AllFit(y) && Registry(y) && AllSound(y) && StatusIs(y, id, Revoked) && AllShut(y, id)
    ensures AllShut(Do(y, v), id) && ViewOf(Do(y, v), id) == ViewOf(y, id)
  {
    var z := Do(y, v);
    CallStep(y, v, v.c);
    assert forall d :: d in y.calls && d != v.c ==> z.calls[d] == y.calls[d];
    match v
    case Open(c, q) => assert Shut(Begin(q)) || !Writer(q);
    case Turn(c, e) =>
      var k := y.calls[c];
      assert FitCall(k);
      if On(k, id) {
        ShutStep(k, y.t, e);
        OnlyBusyMatters(k, y.t, e);
        ViewStaysShut(y, c, Goto(k.q, k.pc, y.t, e), Act(k.q, k.pc, y.t, e), e, id);
      } else {
        assert SoundAt(y, id);
        SoundElsewhere(y, c, e, id);
      }
  }

  lemma ViewStaysShut(y: System, c: nat, p: Pc, f: Effect, e: Env, id: int)
    requires c in y.calls && !Touches(f) && !f.AddRow? && Shut(p) && !Rotating(y.calls[c])
    ensures ViewOf(Moved(y, c, p, f, e), id) == ViewOf(y, id)
  {}
}
