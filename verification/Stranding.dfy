/** A run in which a call is stranded: without the rule against overlapping calls on one appliance, deletion
    on expiry can be observed. */
module Stranding {
  import opened Tokens
  import opened Persistence
  import opened Protocol
  import opened Runs
  import opened Expiry
  import opened Divergence
  import opened Reaching

  const ENROLMENT := Request.Enroll("", 0)
  const REDEEM := Request.EnrollRedeem(1, "Bearer " + Drawn(5))
  const LATE := Request.Claim(1, "Bearer " + Drawn(3))
  const CODE := CodeRow(Sha256(Drawn(5)), Sha256(Drawn(3)), 10)

  function Enrolling(p: Pc): map<nat, Call> {
    Creating(ENROLMENT, p)
  }

  function Redeeming(p: Pc): map<nat, Call> {
    map[0 := Call(ENROLMENT, End(Enrolled(1, Drawn(5), 10))), 1 := Call(REDEEM, p)]
  }

  function Claiming(p: Pc): map<nat, Call> {
    map[0 := Call(ENROLMENT, End(Enrolled(1, Drawn(5), 10))), 1 := Call(REDEEM, CodePin(Sha256(Drawn(3)))),
      2 := Call(LATE, p)]
  }

  lemma SavesToken()
    ensures ReachesAlike(Stored(map[1 := TOKEN], map[]), Enrolling(CodeNow(1, TOKEN.tokenHash, 10)), 0, 4)
  {
    hide Reaches, Takes, Goto, Act, Begin, KeepDo, Drawn;
    DrawsToken(ENROLMENT);
    var t, calls := Stored(map[], map[]), Enrolling(SaveClaim(1, Drawn(3), 10, ""));
    TakesSaveClaim(ENROLMENT, 1, Drawn(3), 10, "", t, Step(0, 4));
    ReachBoth(t, calls, 0, 3, 0, 0, CodeNow(1, TOKEN.tokenHash, 10), Stored(map[1 := TOKEN], map[]));
    assert calls[0 := Call(ENROLMENT, CodeNow(1, TOKEN.tokenHash, 10))] == Enrolling(CodeNow(1, TOKEN.tokenHash, 10));
  }

  lemma DrawsCode()
    ensures ReachesAlike(Stored(map[1 := TOKEN], map[]), Enrolling(SaveCode(1, TOKEN.tokenHash, 10, Drawn(5), 10)),
        0, 5)
  {
    hide Reaches, Takes, Goto, Act, Begin, KeepDo, Drawn;
    SavesToken();
    var t, h := Stored(map[1 := TOKEN], map[]), TOKEN.tokenHash;
    TakesCodeNow(ENROLMENT, 1, h, 10, t, Step(0, 5));
    ReachBoth(t, Enrolling(CodeNow(1, h, 10)), 0, 4, 0, 0, SaveCode(1, h, 10, Drawn(5), 10), t);
    assert Enrolling(CodeNow(1, h, 10))[0 := Call(ENROLMENT, SaveCode(1, h, 10, Drawn(5), 10))]
           == Enrolling(SaveCode(1, h, 10, Drawn(5), 10));
  }

  lemma SavesCode()
    ensures ReachesAlike(Stored(map[1 := TOKEN], map[1 := CODE]), Enrolling(End(Enrolled(1, Drawn(5), 10))), 0, 6)
  {
    hide Reaches, Takes, Goto, Act, Begin, KeepDo, Drawn;
    DrawsCode();
    var t, calls := Stored(map[1 := TOKEN], map[]), Enrolling(SaveCode(1, TOKEN.tokenHash, 10, Drawn(5), 10));
    TakesSaveCode(ENROLMENT, 1, TOKEN.tokenHash, 10, Drawn(5), 10, t, Step(0, 6));
    ReachBoth(t, calls, 0, 5, 0, 0, End(Enrolled(1, Drawn(5), 10)), Stored(map[1 := TOKEN], map[1 := CODE]));
    assert calls[0 := Call(ENROLMENT, End(Enrolled(1, Drawn(5), 10)))] == Enrolling(End(Enrolled(1, Drawn(5), 10)));
  }

  lemma OpensRedeem()
    ensures ReachesAlike(Stored(map[1 := TOKEN], map[1 := CODE]), Redeeming(CodeRead(Drawn(5))), 0, 6)
  {
    hide Reaches;
    SavesCode();
    BearerRoundTrip(Drawn(5));
    var t, calls := Stored(map[1 := TOKEN], map[1 := CODE]), Enrolling(End(Enrolled(1, Drawn(5), 10)));
    ReachOpen(t, calls, 0, 6, Keeper(t, calls), 1, REDEEM);
    assert calls[1 := Call(REDEEM, CodeRead(Drawn(5)))] == Redeeming(CodeRead(Drawn(5)));
  }

  lemma ReadsCode()
    ensures ReachesAlike(Stored(map[1 := TOKEN], map[1 := CODE]), Redeeming(CodeCheck(Drawn(5), CODE)), 10, 7)
  {
    hide Reaches, Takes, Goto, Act, Begin, KeepDo, Drawn;
    OpensRedeem();
    var t := Stored(map[1 := TOKEN], map[1 := CODE]);
    TakesCodeRead(REDEEM, Drawn(5), t, Step(10, 7));
    ReachBoth(t, Redeeming(CodeRead(Drawn(5))), 0, 6, 1, 10, CodeCheck(Drawn(5), CODE), t);
    assert Redeeming(CodeRead(Drawn(5)))[1 := Call(REDEEM, CodeCheck(Drawn(5), CODE))]
           == Redeeming(CodeCheck(Drawn(5), CODE));
  }

  /** The code is checked in its last instant. */
  lemma ChecksCode()
    ensures ReachesAlike(Stored(map[1 := TOKEN], map[1 := CODE]), Redeeming(CodePin(TOKEN.tokenHash)), 10, 8)
  {
    hide Reaches, Takes, Goto, Act, Begin, KeepDo, Drawn;
    ReadsCode();
    var t := Stored(map[1 := TOKEN], map[1 := CODE]);
    TakesCodeCheck(REDEEM, Drawn(5), CODE, t, Step(10, 8));
    ReachBoth(t, Redeeming(CodeCheck(Drawn(5), CODE)), 10, 7, 1, 10, CodePin(TOKEN.tokenHash), t);
    assert Redeeming(CodeCheck(Drawn(5), CODE))[1 := Call(REDEEM, CodePin(TOKEN.tokenHash))]
           == Redeeming(CodePin(TOKEN.tokenHash));
  }

  lemma OpensClaim()
    ensures ReachesAlike(Stored(map[1 := TOKEN], map[1 := CODE]), Claiming(ClaimRead(Drawn(3))), 10, 8)
  {
    hide Reaches;
    ChecksCode();
    BearerRoundTrip(Drawn(3));
    var t, calls := Stored(map[1 := TOKEN], map[1 := CODE]), Redeeming(CodePin(TOKEN.tokenHash));
    ReachOpen(t, calls, 10, 8, Keeper(t, calls), 2, LATE);
    assert calls[2 := Call(LATE, ClaimRead(Drawn(3)))] == Claiming(ClaimRead(Drawn(3)));
  }

  lemma ReadsToken()
    ensures ReachesAlike(Stored(map[1 := TOKEN], map[1 := CODE]), Claiming(ClaimCheck(Drawn(3), TOKEN)), 11, 9)
  {
    hide Reaches, Takes, Goto, Act, Begin, KeepDo, Drawn;
    OpensClaim();
    var t := Stored(map[1 := TOKEN], map[1 := CODE]);
    TakesClaimRead(LATE, Drawn(3), t, Step(11, 9));
    ReachBoth(t, Claiming(ClaimRead(Drawn(3))), 10, 8, 2, 11, ClaimCheck(Drawn(3), TOKEN), t);
    assert Claiming(ClaimRead(Drawn(3)))[2 := Call(LATE, ClaimCheck(Drawn(3), TOKEN))]
           == Claiming(ClaimCheck(Drawn(3), TOKEN));
  }

  /** An instant later a Claim finds the token expired; the keeper refuses it without deleting. */
  lemma FindsExpired()
    ensures var t := Stored(map[1 := TOKEN], map[1 := CODE]);
            Reaches(t, Claiming(ClaimDrop), 11, 10, Keeper(t, Claiming(End(Fail(401)))))
  {
    hide Reaches, Listing, Redeemable, BearerToken, ApplianceSecret, Begin, Drawn;
    ReadsToken();
    var t, calls := Stored(map[1 := TOKEN], map[1 := CODE]), Claiming(ClaimCheck(Drawn(3), TOKEN));
    ReachTurn(t, calls, 11, 9, Keeper(t, calls), 2, 11);
    assert calls[2 := Call(LATE, ClaimDrop)] == Claiming(ClaimDrop);
    assert calls[2 := Call(LATE, End(Fail(401)))] == Claiming(End(Fail(401)));
  }

  lemma DropsToken()
    ensures var t := Stored(map[1 := TOKEN], map[1 := CODE]);
            Reaches(Stored(map[], map[1 := CODE]), Claiming(End(Fail(401))), 11, 11,
              Keeper(t, Claiming(End(Fail(401)))))
  {
    hide Reaches, Listing, Redeemable, BearerToken, ApplianceSecret, Begin, Drawn;
    FindsExpired();
    var t := Stored(map[1 := TOKEN], map[1 := CODE]);
    ReachTurn(t, Claiming(ClaimDrop), 11, 10, Keeper(t, Claiming(End(Fail(401)))), 2, 11);
    assert Claiming(ClaimDrop)[2 := Call(LATE, End(Fail(401)))] == Claiming(End(Fail(401)));
    assert t.claims - {1} == map[];
  }

  lemma StrandedNext(ys: seq<System>, es: seq<Event>, v: Event)
    requires Ordinary(ys, es) && Can(ys[|es|], v) && v.Turn? && PinsOutlive(Do(ys[|es|], v))
    requires StrandedTurn(ys[|es|], KeepAt(ys, es, |es|), v)
    ensures exists zs, vs, j, c :: Ordinary(zs, vs) && 0 <= j < |zs| && Contradicted(zs, vs, j, c)
  {
    hide Do, StrandedTurn, PinsOutlive, Contradicted, StrandedAt, Shadows, Tracked;
    var z := Do(ys[|es|], v);
    RunExtends(ys, es, v);
    KeepAtPrefix(ys, es, z, v, |es|);
    var zs, vs := ys + [z], es + [v];
    ExpiryDeletionUnobservableIff(zs, vs);
    if forall i :: 0 <= i < |es| ==> !StrandedAt(zs, vs, i) {
      KeeperShadows(zs, vs, |es|);
      StrandedMeans(zs, vs, |es|);
      assert StrandedAt(zs, vs, |es|);
    }
  }

  /** The EnrollRedeem can take its step now, and it is stranded. */
  lemma RedeemIsStranded(y: System, n: Keeper)
    requires y.t == Stored(map[], map[1 := CODE]) && y.calls == Claiming(End(Fail(401))) && y.clock == 11
        && DrawnUpTo(y.h, 11)
    requires n.t == Stored(map[1 := TOKEN], map[1 := CODE])
    ensures var v := Turn(1, Step(11, 12)); Can(y, v) && StrandedTurn(y, n, v) && PinsOutlive(Do(y, v))
  {
    hide Act, Apply, Record;
    var e := Step(11, 12);
    assert e.nonce[0] == 'a' && IsNonce(e.nonce);
  }

  /** With overlapping calls deletion on expiry can be observed: in some ordinary run a call has been given a
      response that the keeper would never give it. */
  lemma OverlapObservesDeletion()
    ensures exists ys, es, j, c :: Ordinary(ys, es) && 0 <= j < |ys| && Contradicted(ys, es, j, c)
  {
    hide Contradicted, KeepAt, Can, StrandedTurn, PinsOutlive, Do, Step, Claiming, Stored, DrawnUpTo;
    DropsToken();
    var t, calls := Stored(map[1 := TOKEN], map[1 := CODE]), Claiming(End(Fail(401)));
    var ys, es :| ReachesBy(ys, es, Stored(map[], map[1 := CODE]), calls, 11, 11, Keeper(t, calls));
    RedeemIsStranded(ys[|es|], KeepAt(ys, es, |es|));
    StrandedNext(ys, es, Turn(1, Step(11, 12)));
  }
}
