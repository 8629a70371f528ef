/** A run in which a revoked appliance can come back: a Claim past its check when the Revoke writes its status. */
module Revival {
  import opened Tokens
  import opened Persistence
  import opened Protocol
  import opened Runs
  import opened Lifecycle
  import opened Expiry
  import opened Reaching

  const REGISTRATION := Request.Register("", 0)
  const CLAIM := Request.Claim(1, "Bearer " + Drawn(3))
  const REVOKE := Request.Revoke(1, 0)
  const TABLES := Stored(map[1 := TOKEN], map[])

  function Registering(p: Pc): map<nat, Call> {
    Creating(REGISTRATION, p)
  }

  function Claiming(p: Pc): map<nat, Call> {
    map[0 := Call(REGISTRATION, End(Registered(1, "", Drawn(3), 10))), 1 := Call(CLAIM, p)]
  }

  /** The Claim has read "pending" and is about to publish its secret. */
  function Revoking(p: Pc): map<nat, Call> {
    Claiming(PutSecret(ApplianceSecret(1, Drawn(7)), ""))[2 := Call(REVOKE, p)]
  }

  function RevokedTables(): Tables {
    TABLES.(rows := map[1 := NEW_ROW.(status := Revoked)])
  }

  lemma Registers()
    ensures ReachesAlike(TABLES, Registering(End(Registered(1, "", Drawn(3), 10))), 0, 4)
  {
    hide Reaches, Takes, Goto, Act, Begin, KeepDo, Drawn;
    DrawsToken(REGISTRATION);
    var t, calls := Stored(map[], map[]), Registering(SaveClaim(1, Drawn(3), 10, ""));
    TakesSaveClaim(REGISTRATION, 1, Drawn(3), 10, "", t, Step(0, 4));
    ReachBoth(t, calls, 0, 3, 0, 0, End(Registered(1, "", Drawn(3), 10)), TABLES);
    assert calls[0 := Call(REGISTRATION, End(Registered(1, "", Drawn(3), 10)))]
           == Registering(End(Registered(1, "", Drawn(3), 10)));
  }

  lemma OpensClaim()
    ensures ReachesAlike(TABLES, Claiming(ClaimRead(Drawn(3))), 0, 4)
  {
    hide Reaches;
    Registers();
    BearerRoundTrip(Drawn(3));
    var calls := Registering(End(Registered(1, "", Drawn(3), 10)));
    ReachOpen(TABLES, calls, 0, 4, Keeper(TABLES, calls), 1, CLAIM);
    assert calls[1 := Call(CLAIM, ClaimRead(Drawn(3)))] == Claiming(ClaimRead(Drawn(3)));
  }

  lemma ReadsToken()
    ensures ReachesAlike(TABLES, Claiming(ClaimCheck(Drawn(3), TOKEN)), 0, 5)
  {
    hide Reaches, Takes, Goto, Act, Begin, KeepDo, Drawn;
    OpensClaim();
    TakesClaimRead(CLAIM, Drawn(3), TABLES, Step(0, 5));
    ReachBoth(TABLES, Claiming(ClaimRead(Drawn(3))), 0, 4, 1, 0, ClaimCheck(Drawn(3), TOKEN), TABLES);
    assert Claiming(ClaimRead(Drawn(3)))[1 := Call(CLAIM, ClaimCheck(Drawn(3), TOKEN))]
           == Claiming(ClaimCheck(Drawn(3), TOKEN));
  }

  lemma ChecksToken()
    ensures ReachesAlike(TABLES, Claiming(LoadPending), 0, 6)
  {
    hide Reaches, Takes, Goto, Act, Begin, KeepDo, Drawn;
    ReadsToken();
    TakesClaimCheck(CLAIM, Drawn(3), TOKEN, TABLES, Step(0, 6));
    ReachBoth(TABLES, Claiming(ClaimCheck(Drawn(3), TOKEN)), 0, 5, 1, 0, LoadPending, TABLES);
    assert Claiming(ClaimCheck(Drawn(3), TOKEN))[1 := Call(CLAIM, LoadPending)] == Claiming(LoadPending);
  }

  lemma ReadsPending()
    ensures ReachesAlike(TABLES, Claiming(PutSecret(ApplianceSecret(1, Drawn(7)), "")), 0, 7)
  {
    hide Reaches, Takes, Goto, Act, Begin, KeepDo, Drawn;
    ChecksToken();
    var p := PutSecret(ApplianceSecret(1, Drawn(7)), "");
    TakesLoadPending(CLAIM, TABLES, Step(0, 7));
    ReachBoth(TABLES, Claiming(LoadPending), 0, 6, 1, 0, p, TABLES);
    assert Claiming(LoadPending)[1 := Call(CLAIM, p)] == Claiming(p);
  }

  lemma OpensRevoke()
    ensures ReachesAlike(TABLES, Revoking(RevokeLoad), 0, 7)
  {
    hide Reaches, ApplianceSecret, Drawn;
    ReadsPending();
    var calls := Claiming(PutSecret(ApplianceSecret(1, Drawn(7)), ""));
    ReachOpen(TABLES, calls, 0, 7, Keeper(TABLES, calls), 2, REVOKE);
  }

  lemma ReadsGroup()
    ensures ReachesAlike(TABLES, Revoking(RevokeStatus), 0, 8)
  {
    hide Reaches, Takes, Goto, Act, Begin, KeepDo, Drawn;
    OpensRevoke();
    TakesRevokeLoad(REVOKE, TABLES, Step(0, 8));
    ReachBoth(TABLES, Revoking(RevokeLoad), 0, 7, 2, 0, RevokeStatus, TABLES);
    assert Revoking(RevokeLoad)[2 := Call(REVOKE, RevokeStatus)] == Revoking(RevokeStatus);
  }

  lemma WritesStatus()
    ensures ReachesAlike(RevokedTables(), Revoking(RevokeSecret), 0, 9)
  {
    hide Reaches, Takes, Goto, Act, Begin, KeepDo, Drawn;
    ReadsGroup();
    TakesRevokeStatus(REVOKE, TABLES, Step(0, 9));
    assert TABLES.rows[1 := NEW_ROW.(status := Revoked)] == RevokedTables().rows;
    ReachBoth(TABLES, Revoking(RevokeStatus), 0, 8, 2, 0, RevokeSecret, RevokedTables());
    assert Revoking(RevokeStatus)[2 := Call(REVOKE, RevokeSecret)] == Revoking(RevokeSecret);
  }

  /** Revoke is not final of itself: some run reaches a revoked appliance with a claim still past its check,
      and from there the appliance can become active again. */
  lemma RevokedCanRevive()
    ensures exists ys, es, i, id ::
        Run(ys, es) && 0 <= i < |ys| && StatusIs(ys[i], id, Revoked) && Ready(ys[i], id) != {}
        && !RevokedForGood(ys[i], id)
  {
    hide Goto, Act, Apply, RevokedForGood, KeepAt;
    WritesStatus();
    var t, calls := RevokedTables(), Revoking(RevokeSecret);
    var ys, es :| ReachesBy(ys, es, t, calls, 0, 9, Keeper(t, calls));
    var i := |es|;
    assert StatusIs(ys[i], 1, Revoked);
    assert 1 in Ready(ys[i], 1);
    RevokeFinalIffDrained(ys, es, i, 1);
  }
}
