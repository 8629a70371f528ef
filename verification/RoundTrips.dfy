/** Calls chained through the values they hand out: what was issued can be redeemed, once, by its bearer. */
module RoundTrips {
  import opened Wrappers
  import opened Tokens
  import opened Persistence
  import opened Protocol
  import opened Solo
  import opened Outcomes

  // ---------- Register and Enroll ----------

  /** No appliance, whatever its status, holds the label. */
  predicate Free(t: Tables, hostLabel: string) {
    forall id :: id in t.rows ==> t.rows[id].hostLabel != hostLabel
  }

  lemma FreeMeansNotTaken(t: Tables, hostLabel: string)
    ensures Free(t, hostLabel) <==> !LabelTaken(t.rows, hostLabel)
  {}

  /** The first of five labels generated that is free is the b-th. */
  ghost predicate Lands(t: Tables, e: seq<Env>, b: nat)
    requires 5 <= |e|
  {
    b < 5 && Free(t, e[b].hostLabel) && forall i :: 0 <= i < b ==> !Free(t, e[i].hostLabel)
  }

  /** Up to the first free label, each attempt leads to the next, and a fault ends the call. */
  lemma {:induction false} Attempts(q: Request, t: Tables, e: seq<Env>, b: nat)
    requires |e| == MAX_STEPS && (q.Register? || q.Enroll?) && b < 5
    requires forall i :: 0 <= i < b ==> !Free(t, e[i].hostLabel)
    ensures if Quiet(e, 0, b) then Pos(q, t, e, b) == (Insert(b), t) else Alone(q, t, e) == (End(Fail(500)), t)
  {
    hide Pos, Alone, LabelTaken, Free;
    if b == 0 {
      Start(q, t, e);
    } else {
      Attempts(q, t, e, b - 1);
      if Quiet(e, 0, b - 1) {
        FreeMeansNotTaken(t, e[b - 1].hostLabel);
        GoInsert(q, t, e, b - 1, t);
      }
    }
  }

  lemma NeverLands(q: Request, t: Tables, e: seq<Env>)
    requires |e| == MAX_STEPS && (q.Register? || q.Enroll?)
    requires AllTaken(t, e)
    ensures Alone(q, t, e) == (End(Fail(500)), t)
  {
    hide Pos, Alone, LabelTaken, Free;
    Attempts(q, t, e, 4);
    if Quiet(e, 0, 4) {
      FreeMeansNotTaken(t, e[4].hostLabel);
      GoInsert(q, t, e, 4, t);
    }
  }

  lemma {:induction false} FirstFree(t: Tables, e: seq<Env>, n: nat) returns (b: Option<nat>)
    requires |e| == MAX_STEPS && n <= 5
    ensures b.None? ==> forall i :: 0 <= i < n ==> !Free(t, e[i].hostLabel)
    ensures b.Some? ==> b.value < n && Lands(t, e, b.value)
  {
    if n == 0 {
      b := None;
    } else {
      b := FirstFree(t, e, n - 1);
      if b.None? && Free(t, e[n - 1].hostLabel) {
        b := Some(n - 1);
      }
    }
  }

  /** No store call up to the claim token's fails; step b + 2 only reads the clock. */
  predicate Issues(e: seq<Env>, b: nat)
    requires b + 3 < |e|
  {
    Quiet(e, 0, b + 2) && !e[b + 3].fail
  }

  /** The state with a new pending appliance. */
  function Listed(t: Tables, name: string, hostLabel: string, group: int): Tables {
    t.(rows := t.rows[t.nextId := Row(name, hostLabel, group, Pending, None, None)], nextId := t.nextId + 1)
  }

  /** The state with a new pending appliance and its claim token. */
  function Enlisted(t: Tables, name: string, hostLabel: string, group: int, claim: ClaimRow): Tables {
    Listed(t, name, hostLabel, group).(claims := t.claims[t.nextId := claim])
  }

  /** What an attempt that failed before its claim token was stored leaves: at most one pending row. */
  function Begun(t: Tables, e: seq<Env>, b: nat, name: string, group: int): Tables
    requires b + 1 < |e|
  {
    if Quiet(e, 0, b + 1) then Listed(t, name, e[b].hostLabel, group) else t
  }

  lemma AddLists(t: Tables, name: string, hostLabel: string, group: int)
    ensures Apply(t, AddRow(name, hostLabel, group)) == Listed(t, name, hostLabel, group)
  {}

  lemma InsertOutcome(q: Request, t: Tables, e: seq<Env>, b: nat)
    requires |e| == MAX_STEPS && (q.Register? || q.Enroll?) && b < 5 && Lands(t, e, b)
    ensures if Quiet(e, 0, b + 2)
            then Pos(q, t, e, b + 2) == (IssueNow(t.nextId, e[b].hostLabel), Listed(t, q.name, e[b].hostLabel, q.group))
            else Alone(q, t, e) == (End(Fail(500)), Begun(t, e, b, q.name, q.group))
  {
    hide Pos, Alone, Goto, Act, Apply, LabelTaken, Free;
    Attempts(q, t, e, b);
    if Quiet(e, 0, b) {
      var l := e[b].hostLabel;
      FreeMeansNotTaken(t, l);
      AddLists(t, q.name, l, q.group);
      GoInsert(q, t, e, b, t);
      if !e[b].fail {
        GoInserted(q, t, e, b + 1, t.nextId, Listed(t, q.name, l, q.group));
      }
    }
  }

  lemma TokenOutcome(q: Request, t: Tables, e: seq<Env>, b: nat)
    requires |e| == MAX_STEPS && (q.Register? || q.Enroll?) && b < 5 && Lands(t, e, b)
    ensures var c, l := TokenDrawn(e[b + 2]), e[b].hostLabel;
            var u := Enlisted(t, q.name, l, q.group, c);
            if !Issues(e, b) then Alone(q, t, e) == (End(Fail(500)), Begun(t, e, b, q.name, q.group))
            else if q.Enroll? then Pos(q, t, e, b + 4) == (CodeNow(t.nextId, c.tokenHash, c.expiresAt), u)
            else Alone(q, t, e) == (End(Registered(t.nextId, l, e[b + 2].nonce, c.expiresAt)), u)
  {
    hide Pos, Alone, LabelTaken, Goto, Act, Lands;
    InsertOutcome(q, t, e, b);
    if Quiet(e, 0, b + 2) {
      GoIssue(q, t, e, b + 2, t.nextId, e[b].hostLabel, Listed(t, q.name, e[b].hostLabel, q.group));
    }
  }

  /** All five labels generated are taken. */
  ghost predicate AllTaken(t: Tables, e: seq<Env>)
    requires 5 <= |e|
  {
    forall i :: 0 <= i < 5 ==> !Free(t, e[i].hostLabel)
  }

  /** The outcome of Register under label b. */
  predicate RegisteredAt(name: string, group: int, t: Tables, e: seq<Env>, b: nat, r: Response, u: Tables)
    requires |e| == MAX_STEPS && b < 5
  {
    var c := TokenDrawn(e[b + 2]);
    if Issues(e, b)
    then && r == Registered(t.nextId, e[b].hostLabel, e[b + 2].nonce, c.expiresAt)
         && u == Enlisted(t, name, e[b].hostLabel, group, c)
    else r == Fail(500) && u == Begun(t, e, b, name, group)
  }

  /** Register succeeds exactly when one of its five labels is free and no call up to the claim token fails; it
      then adds one pending row under the first free label, and the claim token it returns. Otherwise it answers
      500 and leaves at most that row. */
  ghost predicate RegisterContract(name: string, group: int, t: Tables, e: seq<Env>, r: Response, u: Tables)
    requires |e| == MAX_STEPS
  {
    && (AllTaken(t, e) ==> r == Fail(500) && u == t)
    && forall b: nat :: b < 5 && Lands(t, e, b) ==> RegisteredAt(name, group, t, e, b, r, u)
  }

  lemma RegisterSucceedsIff(name: string, group: int, t: Tables, e: seq<Env>)
    requires |e| == MAX_STEPS
    ensures var (p, u) := Alone(Register(name, group), t, e);
            p.End? && RegisterContract(name, group, t, e, p.response, u)
  {
    hide Alone, Pos, Issues, Lands, Free, Enlisted, Begun;
    var q := Register(name, group);
    AloneResponds(q, t, e);
    var (p, u) := Alone(q, t, e);
    if AllTaken(t, e) {
      NeverLands(q, t, e);
    }
    forall b: nat | b < 5 && Lands(t, e, b) ensures RegisteredAt(name, group, t, e, b, p.response, u) {
      TokenOutcome(q, t, e, b);
    }
  }

  /** No store call up to the exchange code's fails. */
  predicate IssuesCode(e: seq<Env>, b: nat)
    requires b + 5 < |e|
  {
    Issues(e, b) && !e[b + 5].fail
  }

  /** The state with an exchange code, drawn in step b + 4, beside the new appliance and its claim token. */
  function Enrolling(t: Tables, name: string, group: int, e: seq<Env>, b: nat): Tables
    requires b + 5 < |e|
  {
    var c, d := TokenDrawn(e[b + 2]), e[b + 4];
    var u := Enlisted(t, name, e[b].hostLabel, group, c);
    u.(codes := u.codes[t.nextId := CodeRow(Sha256(d.nonce), c.tokenHash, d.now + d.ttl)])
  }

  lemma CodeOutcome(name: string, group: int, t: Tables, e: seq<Env>, b: nat)
    requires |e| == MAX_STEPS && b < 5 && Lands(t, e, b)
    ensures var r, d := Alone(Enroll(name, group), t, e), e[b + 4];
            if IssuesCode(e, b) then
              r == (End(Enrolled(t.nextId, d.nonce, d.now + d.ttl)), Enrolling(t, name, group, e, b))
            else if Issues(e, b) then
              r == (End(Fail(500)), Enlisted(t, name, e[b].hostLabel, group, TokenDrawn(e[b + 2])))
            else r == (End(Fail(500)), Begun(t, e, b, name, group))
  {
    hide Pos, Alone, Goto, Act, LabelTaken, Begun, Lands;
    var q, c, d := Enroll(name, group), TokenDrawn(e[b + 2]), e[b + 4];
    TokenOutcome(q, t, e, b);
    if Issues(e, b) {
      var u := Enlisted(t, name, e[b].hostLabel, group, c);
      GoIssueCode(q, t, e, b + 4, t.nextId, c.tokenHash, c.expiresAt, u);
    }
  }

  /** The outcome of Enroll under label b. */
  predicate EnrolledAt(name: string, group: int, t: Tables, e: seq<Env>, b: nat, r: Response, u: Tables)
    requires |e| == MAX_STEPS && b < 5
  {
    if IssuesCode(e, b)
    then && r == Enrolled(t.nextId, e[b + 4].nonce, e[b + 4].now + e[b + 4].ttl)
         && u == Enrolling(t, name, group, e, b)
    else && r == Fail(500)
         && u == if Issues(e, b) then Enlisted(t, name, e[b].hostLabel, group, TokenDrawn(e[b + 2]))
                 else Begun(t, e, b, name, group)
  }

  /** Enroll, likewise, succeeds exactly when no call up to the exchange code fails; the code it returns is stored
      by its hash, pinned to the claim token it has stored but keeps to itself. */
  ghost predicate EnrollContract(name: string, group: int, t: Tables, e: seq<Env>, r: Response, u: Tables)
    requires |e| == MAX_STEPS
  {
    && (AllTaken(t, e) ==> r == Fail(500) && u == t)
    && forall b: nat :: b < 5 && Lands(t, e, b) ==> EnrolledAt(name, group, t, e, b, r, u)
  }

  lemma EnrollSucceedsIff(name: string, group: int, t: Tables, e: seq<Env>)
    requires |e| == MAX_STEPS
    ensures var (p, u) := Alone(Enroll(name, group), t, e);
            p.End? && EnrollContract(name, group, t, e, p.response, u)
  {
    hide Alone, Pos, Issues, IssuesCode, Lands, Free, Enlisted, Begun, Enrolling;
    var q := Enroll(name, group);
    AloneResponds(q, t, e);
    var (p, u) := Alone(q, t, e);
    if AllTaken(t, e) {
      NeverLands(q, t, e);
    }
    forall b: nat | b < 5 && Lands(t, e, b) ensures EnrolledAt(name, group, t, e, b, p.response, u) {
      CodeOutcome(name, group, t, e, b);
    }
  }

  /** The two cases of both contracts are all there are. */
  lemma LandsOrNot(t: Tables, e: seq<Env>)
    requires |e| == MAX_STEPS
    ensures AllTaken(t, e) <==> !exists b: nat :: b < 5 && Lands(t, e, b)
    ensures forall a: nat, b: nat :: a < 5 && b < 5 && Lands(t, e, a) && Lands(t, e, b) ==> a == b
  {
    hide Free;
    var b := FirstFree(t, e, 5);
  }

  // ---------- the round trips ----------

  lemma NonceIsTight(nonce: string)
    requires IsNonce(nonce)
    ensures BearerToken("Bearer " + nonce) == Some(nonce)
  {
    assert nonce[0] in nonce && nonce[|nonce| - 1] in nonce;
    BearerRoundTrip(nonce);
  }

  /** The appliance as its claim leaves it: active, and its new secret in both stores. */
  predicate Claimed(t: Tables, id: int, name: string, hostLabel: string, group: int, secret: string) {
    && id in t.rows && t.rows[id].name == name && t.rows[id].hostLabel == hostLabel && t.rows[id].group == group
    && t.rows[id].status == Active && t.rows[id].secretHash == Some(Sha256(secret))
    && id in t.secrets && t.secrets[id] == secret
  }

  /** The claim token of a Register, borne to Claim before it expires, claims the new appliance. */
  lemma RegisterThenClaim(name: string, group: int, t: Tables, e: seq<Env>, b: nat, d: seq<Env>)
    requires |e| == MAX_STEPS && b < 5 && Lands(t, e, b) && Issues(e, b) && IsNonce(e[b + 2].nonce)
    requires |d| == MAX_STEPS && Quiet(d, 0, 6) && d[1].now <= e[b + 2].now + e[b + 2].ttl
    ensures var (p, u) := Alone(Register(name, group), t, e);
            && p.End? && p.response.Registered?
            && var (p', u') := Alone(Request.Claim(p.response.id, "Bearer " + p.response.token), u, d);
               && p' == End(Secret(ApplianceSecret(p.response.id, d[2].nonce), p.response.hostLabel))
               && Claimed(u', p.response.id, name, p.response.hostLabel, group, p'.response.secret)
  {
    hide Pos, Alone, Free, ApplianceSecret, BearerToken;
    RegisterSucceedsIff(name, group, t, e);
    var u, id := Alone(Register(name, group), t, e).1, t.nextId;
    assert RegisteredAt(name, group, t, e, b, Alone(Register(name, group), t, e).0.response, u);
    NonceIsTight(e[b + 2].nonce);
    ClaimSucceedsIff(id, "Bearer " + e[b + 2].nonce, u, d);
  }

  /** So does the exchange code of an Enroll, borne to EnrollRedeem. */
  lemma EnrollThenRedeem(name: string, group: int, t: Tables, e: seq<Env>, b: nat, d: seq<Env>)
    requires |e| == MAX_STEPS && b < 5 && Lands(t, e, b) && IssuesCode(e, b) && IsNonce(e[b + 4].nonce)
    requires |d| == MAX_STEPS && Quiet(d, 0, 7) && d[1].now <= e[b + 4].now + e[b + 4].ttl
    ensures var (p, u) := Alone(Enroll(name, group), t, e);
            && p.End? && p.response.Enrolled?
            && var (p', u') := Alone(Request.EnrollRedeem(p.response.id, "Bearer " + p.response.code), u, d);
               && p' == End(Secret(ApplianceSecret(p.response.id, d[3].nonce), e[b].hostLabel))
               && Claimed(u', p.response.id, name, e[b].hostLabel, group, p'.response.secret)
  {
    hide Pos, Alone, Free, ApplianceSecret, BearerToken;
    EnrollSucceedsIff(name, group, t, e);
    var (p, u) := Alone(Enroll(name, group), t, e);
    assert EnrolledAt(name, group, t, e, b, p.response, u);
    NonceIsTight(e[b + 4].nonce);
    RedeemSucceedsIff(t.nextId, "Bearer " + e[b + 4].nonce, Alone(Enroll(name, group), t, e).1, d);
  }

  /** A claimed or revoked appliance is never claimed again, with whatever token or code. */
  lemma ClaimedOnce(t: Tables, id: int, auth: string, e: seq<Env>)
    requires |e| == MAX_STEPS && !HasRow(t, id, Pending)
    ensures Refused(Alone(Request.Claim(id, auth), t, e).0) && Refused(Alone(Request.EnrollRedeem(id, auth), t, e).0)
  {
    hide Pos, Alone, ApplianceSecret, BearerToken;
    ClaimSucceedsIff(id, auth, t, e);
    RedeemSucceedsIff(id, auth, t, e);
  }

  /** A secret handed out by a claim or a rotation opens the appliance's doors. */
  lemma ClaimedAdmits(t: Tables, id: int, name: string, hostLabel: string, group: int, nonce: string)
    requires Claimed(t, id, name, hostLabel, group, ApplianceSecret(id, nonce)) && IsNonce(nonce)
    ensures Admits(t, id, "Bearer " + ApplianceSecret(id, nonce))
  {
    SecretSurvivesHeader(id, nonce);
  }

  /** After a rotation the old secret is refused and the new one admitted. */
  lemma RotationReplaces(t: Tables, id: int, before: string, e: seq<Env>, user: int, d: seq<Env>)
    requires |e| == MAX_STEPS && Admits(t, id, "Bearer " + ApplianceSecret(id, before)) && Quiet(e, 0, 4)
    requires IsNonce(before) && IsNonce(e[1].nonce) && before != e[1].nonce
    requires |d| == MAX_STEPS && Quiet(d, 0, 2) && id in t.rows && d[2].registry(t.rows[id].group, user).Answer?
    ensures var (p, u) := Alone(RotateOwnSecret(id, "Bearer " + ApplianceSecret(id, before)), t, e);
            && p.End? && p.response.Secret?
            && Alone(CheckAccess(id, "Bearer " + p.response.secret, user), u, d)
                == (End(Allowed(d[2].registry(t.rows[id].group, user).isMember)), u)
            && Refused(Alone(CheckAccess(id, "Bearer " + ApplianceSecret(id, before), user), u, d).0)
  {
    hide Pos, Alone, ApplianceSecret, BearerToken;
    var x, y := ApplianceSecret(id, before), ApplianceSecret(id, e[1].nonce);
    SecretSurvivesHeader(id, before);
    SecretSurvivesHeader(id, e[1].nonce);
    if x == y {
      ApplianceSecretInjective(id, before, id, e[1].nonce);
    }
    RotateOwnSucceedsIff(id, "Bearer " + x, t, e);
    var u := Published(t, id, y);
    CheckAccessAnswers(id, "Bearer " + y, user, u, d);
    CheckAccessAnswers(id, "Bearer " + x, user, u, d);
  }

  /** A login code, borne in time to its appliance's RedeemLoginCode, yields the identity the registry gives for
      its user; a second redemption is refused whoever bears it and whatever the registry says. */
  lemma LoginRoundTrip(t: Tables, id: int, user: int, group: int, e: seq<Env>, auth: string, d: seq<Env>,
                       auth': string, d': seq<Env>)
    requires |e| == MAX_STEPS && Owned(t, id, group) && HasRow(t, id, Active) && Quiet(e, 0, 5)
    requires Sha256(e[1].nonce) !in t.logins
    requires |d| == MAX_STEPS && Admits(t, id, auth) && Quiet(d, 0, 3) && d[3].now <= e[1].now + e[1].ttl
    requires |d'| == MAX_STEPS
    ensures var (p, u) := Alone(CreateLoginCode(id, user, group), t, e);
            && p.End? && p.response.LoginCode?
            && var (p', u') := Alone(RedeemLoginCode(id, auth, p.response.code), u, d);
               && p' == End(Verdict(d[4].registry(group, user)))
               && Refused(Alone(RedeemLoginCode(id, auth', p.response.code), u', d').0)
  {
    hide Pos, Alone, BearerToken;
    CreateLoginSucceedsIff(id, user, group, t, e);
    var u := Alone(CreateLoginCode(id, user, group), t, e).1;
    RedeemLoginSucceedsIff(id, auth, e[1].nonce, u, d);
    RedeemLoginSucceedsIff(id, auth', e[1].nonce, Alone(RedeemLoginCode(id, auth, e[1].nonce), u, d).1, d');
  }
}
