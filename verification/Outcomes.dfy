/** What a call run alone achieves, whatever faults it meets: exactly when it succeeds, and the state it leaves. */
module Outcomes {
  import opened Wrappers
  import opened Tokens
  import opened Persistence
  import opened Protocol
  import opened Solo

  /** No store call from step i up to, not including, step j fails. */
  predicate Quiet(e: seq<Env>, i: nat, j: nat)
    requires j <= |e|
  {
    forall k :: i <= k < j ==> !e[k].fail
  }

  predicate Refused(p: Pc) {
    p.End? && p.response.Fail?
  }

  predicate HasRow(t: Tables, id: int, s: Status) {
    id in t.rows && t.rows[id].status == s
  }

  predicate Owned(t: Tables, id: int, group: int) {
    id in t.rows && t.rows[id].group == group
  }

  // ---------- secrets ----------

  /** The state with a secret written to the cluster only. */
  function Written(t: Tables, id: int, secret: string): Tables {
    t.(secrets := t.secrets[id := secret])
  }

  /** The state with a secret published: in the cluster, and by its hash. */
  function Published(t: Tables, id: int, secret: string): Tables
    requires id in t.rows
  {
    t.(rows := t.rows[id := t.rows[id].(secretHash := Some(Sha256(secret)))], secrets := t.secrets[id := secret])
  }

  lemma PublishOutcome(q: Request, t: Tables, e: seq<Env>, k: nat, x: string, l: string, u: Tables)
    requires |e| == MAX_STEPS && k + 2 < MAX_STEPS && HasSubject(q) && q.id in u.rows
        && Pos(q, t, e, k) == (PutSecret(x, l), u)
    ensures Quiet(e, k, k + 2) && Door(q) ==> Pos(q, t, e, k + 2) == (PutActive(x, l), Published(u, q.id, x))
    ensures Quiet(e, k, k + 2) && !Door(q) ==> Alone(q, t, e) == (End(Secret(x, l)), Published(u, q.id, x))
    ensures !Quiet(e, k, k + 2) ==> Alone(q, t, e) == (End(Fail(500)), if e[k].fail then u else Written(u, q.id, x))
  {
    hide Pos, Alone, Door;
    GoPutSecret(q, t, e, k, x, l, u);
    if !e[k].fail {
      GoPutHash(q, t, e, k + 1, x, l, Written(u, q.id, x));
    }
  }

  /** The state with a secret published and the appliance activated. */
  function Activated(t: Tables, id: int, secret: string, now: int): Tables
    requires id in t.rows
  {
    var u := Published(t, id, secret);
    u.(rows := u.rows[id := u.rows[id].(status := Active, claimedAt := Some(now))])
  }

  lemma ActiveOutcome(q: Request, t: Tables, e: seq<Env>, k: nat, x: string, l: string, u: Tables)
    requires |e| == MAX_STEPS && k + 1 < MAX_STEPS && Door(q) && HasRow(u, q.id, Pending)
    requires Pos(q, t, e, k) == (PutActive(x, l), Published(u, q.id, x))
    ensures e[k].fail ==> Alone(q, t, e) == (End(Fail(500)), Published(u, q.id, x))
    ensures !e[k].fail ==> Pos(q, t, e, k + 1) == (DropClaim(x, l), Activated(u, q.id, x, e[k].now))
  {
    hide Pos, Alone;
    hide Goto, Act;
    GoPutActive(q, t, e, k, x, l, Published(u, q.id, x));
  }

  predicate Activates(t: Tables, e: seq<Env>, k: nat, id: int)
    requires k + 4 <= |e|
  {
    HasRow(t, id, Pending) && Quiet(e, k, k + 4)
  }

  /** What an activation that is refused or fails leaves behind: the appliance as it was, but for its secret. */
  function Abandoned(t: Tables, e: seq<Env>, k: nat, id: int): Tables
    requires k + 4 <= |e|
  {
    var x := ApplianceSecret(id, e[k].nonce);
    if !HasRow(t, id, Pending) || !Quiet(e, k, k + 2) then t
    else if e[k + 2].fail then Written(t, id, x)
    else Published(t, id, x)
  }

  /** The status of an activation that is refused or fails. */
  function ActivationRefusal(t: Tables, e: seq<Env>, k: nat, id: int): int
    requires k < |e|
  {
    if e[k].fail then 500
    else if id !in t.rows then 404
    else if t.rows[id].status != Pending then 409
    else 500
  }

  lemma ActivateOutcome(q: Request, t: Tables, e: seq<Env>, k: nat, u: Tables)
    requires |e| == MAX_STEPS && k + 4 < MAX_STEPS && Door(q) && Pos(q, t, e, k) == (LoadPending, u)
    ensures Activates(u, e, k, q.id) ==>
              var x := ApplianceSecret(q.id, e[k].nonce);
              Pos(q, t, e, k + 4) == (DropClaim(x, u.rows[q.id].hostLabel), Activated(u, q.id, x, e[k + 3].now))
    ensures !Activates(u, e, k, q.id) ==>
              Alone(q, t, e) == (End(Fail(ActivationRefusal(u, e, k, q.id))), Abandoned(u, e, k, q.id))
  {
    hide Pos, Alone, ApplianceSecret, Activated;
    GoLoadPending(q, t, e, k, u);
    if HasRow(u, q.id, Pending) && !e[k].fail {
      var x, l := ApplianceSecret(q.id, e[k].nonce), u.rows[q.id].hostLabel;
      PublishOutcome(q, t, e, k + 1, x, l, u);
      if Quiet(e, k + 1, k + 3) {
        ActiveOutcome(q, t, e, k + 3, x, l, u);
      }
    }
  }

  // ---------- Claim and EnrollRedeem ----------

  predicate ClaimAccepted(t: Tables, id: int, auth: string, now: int) {
    && BearerToken(auth).Some? && id in t.claims
    && t.claims[id].tokenHash == Sha256(BearerToken(auth).value) && now <= t.claims[id].expiresAt
  }

  /** An expired claim token is deleted on sight, if the deletion does not fail. */
  function ClaimUnread(t: Tables, id: int, auth: string, e: seq<Env>): Tables
    requires |e| == MAX_STEPS
  {
    if BearerToken(auth).Some? && !e[0].fail && id in t.claims && e[1].now > t.claims[id].expiresAt && !e[2].fail
    then t.(claims := t.claims - {id}) else t
  }

  /** The status of a claim that does not succeed: 401 for the header and for a token that is missing, expired or
      another one, 404 for a missing appliance, 409 for one no longer pending, 500 for a fault. */
  function ClaimRefusal(t: Tables, id: int, auth: string, e: seq<Env>): int
    requires |e| == MAX_STEPS
  {
    if BearerToken(auth).Some? && e[0].fail then 500
    else if !ClaimAccepted(t, id, auth, e[1].now) then 401
    else ActivationRefusal(t, e, 2, id)
  }

  lemma ClaimChecks(id: int, auth: string, t: Tables, e: seq<Env>)
    requires |e| == MAX_STEPS
    ensures var q := Request.Claim(id, auth);
            if ClaimAccepted(t, id, auth, e[1].now) && !e[0].fail then Pos(q, t, e, 2) == (LoadPending, t)
            else Alone(q, t, e) == (End(Fail(ClaimRefusal(t, id, auth, e))), ClaimUnread(t, id, auth, e))
  {
    hide Pos, Alone, BearerToken;
    var q := Request.Claim(id, auth);
    Start(q, t, e);
    var raw := BearerToken(auth);
    if raw.Some? {
      Go(q, t, e, 0, ClaimRead(raw.value), t);
      if !e[0].fail && id in t.claims {
        Go(q, t, e, 1, ClaimCheck(raw.value, t.claims[id]), t);
        if e[1].now > t.claims[id].expiresAt {
          Go(q, t, e, 2, ClaimDrop, t);
        }
      }
    }
  }

  /** Claim succeeds exactly when it bears the unexpired claim token of a pending appliance and none of its
      store calls but the last fails. It then hands out the secret now live in both stores. */
  ghost predicate ClaimContract(id: int, auth: string, t: Tables, e: seq<Env>, r: Response, u: Tables)
    requires |e| == MAX_STEPS
  {
    var x := ApplianceSecret(id, e[2].nonce);
    if ClaimAccepted(t, id, auth, e[1].now) && HasRow(t, id, Pending) && !e[0].fail && Quiet(e, 2, 6)
    then && r == Secret(x, t.rows[id].hostLabel)
         && u == Activated(t, id, x, e[5].now).(claims := if e[6].fail then t.claims else t.claims - {id})
    else && r == Fail(ClaimRefusal(t, id, auth, e))
         && u == if ClaimAccepted(t, id, auth, e[1].now) && !e[0].fail then Abandoned(t, e, 2, id)
                 else ClaimUnread(t, id, auth, e)
  }

  lemma ClaimSucceedsIff(id: int, auth: string, t: Tables, e: seq<Env>)
    requires |e| == MAX_STEPS
    ensures var (p, u) := Alone(Request.Claim(id, auth), t, e); p.End? && ClaimContract(id, auth, t, e, p.response, u)
  {
    hide Pos, Alone, ApplianceSecret, BearerToken;
    var q := Request.Claim(id, auth);
    ClaimChecks(id, auth, t, e);
    if ClaimAccepted(t, id, auth, e[1].now) && !e[0].fail {
      ActivateOutcome(q, t, e, 2, t);
      if Activates(t, e, 2, id) {
        var x := ApplianceSecret(id, e[2].nonce);
        Go(q, t, e, 6, DropClaim(x, t.rows[id].hostLabel), Activated(t, id, x, e[5].now));
      }
    }
  }

  /** The stored, unexpired code. */
  predicate CodeStands(t: Tables, id: int, auth: string, now: int) {
    && BearerToken(auth).Some? && id in t.codes
    && t.codes[id].codeHash == Sha256(BearerToken(auth).value) && now <= t.codes[id].expiresAt
  }

  /** That code, still pinned to the claim token that stands. */
  predicate CodeAccepted(t: Tables, id: int, auth: string, now: int) {
    CodeStands(t, id, auth, now) && id in t.claims && t.codes[id].pin == t.claims[id].tokenHash
  }

  /** The status of a redemption that does not succeed. */
  function CodeRefusal(t: Tables, id: int, auth: string, e: seq<Env>): int
    requires |e| == MAX_STEPS
  {
    if BearerToken(auth).Some? && (e[0].fail || (CodeStands(t, id, auth, e[1].now) && e[2].fail)) then 500
    else if !CodeAccepted(t, id, auth, e[1].now) then 401
    else ActivationRefusal(t, e, 3, id)
  }

  /** So is an expired exchange code. */
  function CodeUnread(t: Tables, id: int, auth: string, e: seq<Env>): Tables
    requires |e| == MAX_STEPS
  {
    if BearerToken(auth).Some? && !e[0].fail && id in t.codes && e[1].now > t.codes[id].expiresAt && !e[2].fail
    then t.(codes := t.codes - {id}) else t
  }

  lemma CodeChecks(id: int, auth: string, t: Tables, e: seq<Env>)
    requires |e| == MAX_STEPS
    ensures var q := Request.EnrollRedeem(id, auth);
            if CodeAccepted(t, id, auth, e[1].now) && !e[0].fail && !e[2].fail then Pos(q, t, e, 3) == (LoadPending, t)
            else Alone(q, t, e) == (End(Fail(CodeRefusal(t, id, auth, e))), CodeUnread(t, id, auth, e))
  {
    hide Pos, Alone, BearerToken;
    var q := Request.EnrollRedeem(id, auth);
    Start(q, t, e);
    var raw := BearerToken(auth);
    if raw.Some? {
      Go(q, t, e, 0, CodeRead(raw.value), t);
      if !e[0].fail && id in t.codes {
        Go(q, t, e, 1, CodeCheck(raw.value, t.codes[id]), t);
        if e[1].now > t.codes[id].expiresAt {
          Go(q, t, e, 2, CodeDrop, t);
        } else if Sha256(raw.value) == t.codes[id].codeHash {
          Go(q, t, e, 2, CodePin(t.codes[id].pin), t);
        }
      }
    }
  }

  lemma CleanUp(q: Request, t: Tables, e: seq<Env>, x: string, l: string, u: Tables)
    requires |e| == MAX_STEPS && q.EnrollRedeem? && Pos(q, t, e, 7) == (DropClaim(x, l), u)
    ensures Alone(q, t, e) == (End(Secret(x, l)), u.(claims := if e[7].fail then u.claims else u.claims - {q.id},
                                                     codes := if e[8].fail then u.codes else u.codes - {q.id}))
  {
    hide Pos, Alone;
    Go(q, t, e, 7, DropClaim(x, l), u);
    Go(q, t, e, 8, DropCode(x, l), u.(claims := if e[7].fail then u.claims else u.claims - {q.id}));
  }

  /** EnrollRedeem succeeds exactly when it bears the unexpired exchange code of a pending appliance, pinned
      to its present claim token, whether or not that token has expired itself; the last two calls may fail. */
  ghost predicate RedeemContract(id: int, auth: string, t: Tables, e: seq<Env>, r: Response, u: Tables)
    requires |e| == MAX_STEPS
  {
    var x := ApplianceSecret(id, e[3].nonce);
    if CodeAccepted(t, id, auth, e[1].now) && HasRow(t, id, Pending) && !e[0].fail && Quiet(e, 2, 7)
    then && r == Secret(x, t.rows[id].hostLabel)
         && u == Activated(t, id, x, e[6].now).(claims := if e[7].fail then t.claims else t.claims - {id},
                                                codes := if e[8].fail then t.codes else t.codes - {id})
    else && r == Fail(CodeRefusal(t, id, auth, e))
         && u == if CodeAccepted(t, id, auth, e[1].now) && !e[0].fail && !e[2].fail then Abandoned(t, e, 3, id)
                 else CodeUnread(t, id, auth, e)
  }

  lemma RedeemSucceedsIff(id: int, auth: string, t: Tables, e: seq<Env>)
    requires |e| == MAX_STEPS
    ensures var (p, u) := Alone(Request.EnrollRedeem(id, auth), t, e);
      p.End? && RedeemContract(id, auth, t, e, p.response, u)
  {
    hide Goto, Act, Pos, Alone, ApplianceSecret, BearerToken;
    var q := Request.EnrollRedeem(id, auth);
    CodeChecks(id, auth, t, e);
    if CodeAccepted(t, id, auth, e[1].now) && !e[0].fail && !e[2].fail {
      ActivateOutcome(q, t, e, 3, t);
      if Activates(t, e, 3, id) {
        var x, l := ApplianceSecret(id, e[3].nonce), t.rows[id].hostLabel;
        var u := Activated(t, id, x, e[6].now);
        CleanUp(q, t, e, x, l, u);
      }
    }
  }

  // ---------- rotation ----------

  /** The status for a caller who may not act on an active appliance: 404 whether it is missing or another
      group's, 409 if it is not active; and 500 for a fault, then or later. */
  function OwnerRefusal(t: Tables, id: int, group: int, e: seq<Env>): int
    requires |e| == MAX_STEPS
  {
    if e[0].fail then 500
    else if !Owned(t, id, group) then 404
    else if t.rows[id].status != Active then 409
    else 500
  }

  /** RotateSecret succeeds exactly for the owning group of an active appliance, if none of its calls fails. */
  ghost predicate RotateContract(id: int, group: int, t: Tables, e: seq<Env>, r: Response, u: Tables)
    requires |e| == MAX_STEPS
  {
    var x := ApplianceSecret(id, e[0].nonce);
    if Owned(t, id, group) && HasRow(t, id, Active) && Quiet(e, 0, 3)
    then r == Secret(x, t.rows[id].hostLabel) && u == Published(t, id, x)
    else && r == Fail(OwnerRefusal(t, id, group, e))
         && u == if Owned(t, id, group) && HasRow(t, id, Active) && Quiet(e, 0, 2) then Written(t, id, x) else t
  }

  lemma RotateSucceedsIff(id: int, group: int, t: Tables, e: seq<Env>)
    requires |e| == MAX_STEPS
    ensures var (p, u) := Alone(Request.RotateSecret(id, group), t, e);
      p.End? && RotateContract(id, group, t, e, p.response, u)
  {
    hide Pos, Alone, ApplianceSecret;
    var q := Request.RotateSecret(id, group);
    Start(q, t, e);
    Go(q, t, e, 0, RotateLoad, t);
    if Owned(t, id, group) && HasRow(t, id, Active) && !e[0].fail {
      PublishOutcome(q, t, e, 1, ApplianceSecret(id, e[0].nonce), t.rows[id].hostLabel, t);
    }
  }

  /** The bearer of the appliance's present secret. */
  predicate HashMatches(t: Tables, id: int, auth: string) {
    && BearerToken(auth).Some? && id in t.rows
    && t.rows[id].secretHash == Some(Sha256(BearerToken(auth).value))
  }

  /** That bearer, the appliance being active. */
  predicate Admits(t: Tables, id: int, auth: string) {
    HashMatches(t, id, auth) && HasRow(t, id, Active)
  }

  /** The status for a caller who is not admitted: 401 whatever is wrong, 500 for a fault of either read. */
  function AuthRefusal(t: Tables, id: int, auth: string, e: seq<Env>): int
    requires |e| == MAX_STEPS
  {
    if BearerToken(auth).Some? && (e[0].fail || (HashMatches(t, id, auth) && e[1].fail)) then 500 else 401
  }

  lemma AuthOutcome(q: Request, t: Tables, e: seq<Env>)
    requires |e| == MAX_STEPS && (q.RotateOwnSecret? || q.RedeemLoginCode? || q.CheckAccess?)
    ensures if Admits(t, q.id, q.auth) && Quiet(e, 0, 2)
            then Pos(q, t, e, 2) == (Admitted(q, t.rows[q.id], e[1].nonce), t)
            else Alone(q, t, e) == (End(Fail(AuthRefusal(t, q.id, q.auth, e))), t)
  {
    hide Pos, Alone, Goto, Act, BearerToken, ApplianceSecret, Admitted;
    Start(q, t, e);
    var raw := BearerToken(q.auth);
    if raw.Some? {
      GoAuthHash(q, t, e, raw.value, t);
      if !e[0].fail && q.id in t.rows && t.rows[q.id].secretHash == Some(Sha256(raw.value)) {
        GoAuthLoad(q, t, e, raw.value, t);
      }
    }
  }

  /** RotateOwnSecret succeeds exactly for the bearer of an active appliance's present secret. */
  ghost predicate RotateOwnContract(id: int, auth: string, t: Tables, e: seq<Env>, r: Response, u: Tables)
    requires |e| == MAX_STEPS
  {
    var x := ApplianceSecret(id, e[1].nonce);
    if Admits(t, id, auth) && Quiet(e, 0, 4)
    then r == Secret(x, t.rows[id].hostLabel) && u == Published(t, id, x)
    else && r == Fail(if Admits(t, id, auth) && Quiet(e, 0, 2) then 500 else AuthRefusal(t, id, auth, e))
         && u == if Admits(t, id, auth) && Quiet(e, 0, 3) then Written(t, id, x) else t
  }

  lemma RotateOwnSucceedsIff(id: int, auth: string, t: Tables, e: seq<Env>)
    requires |e| == MAX_STEPS
    ensures var (p, u) := Alone(Request.RotateOwnSecret(id, auth), t, e);
            p.End? && RotateOwnContract(id, auth, t, e, p.response, u)
  {
    hide Pos, Alone, ApplianceSecret, BearerToken;
    var q := Request.RotateOwnSecret(id, auth);
    AuthOutcome(q, t, e);
    if Admits(t, id, auth) && Quiet(e, 0, 2) {
      PublishOutcome(q, t, e, 2, ApplianceSecret(id, e[1].nonce), t.rows[id].hostLabel, t);
    }
  }

  /** CheckAccess passes on, to the bearer of an active appliance's present secret, the registry's answer whether
      the user in the path is a member of the appliance's owning group; 502 if there is none. */
  ghost predicate AccessContract(id: int, auth: string, user: int, t: Tables, e: seq<Env>, r: Response, u: Tables)
    requires |e| == MAX_STEPS
  {
    && u == t
    && r == if Admits(t, id, auth) && Quiet(e, 0, 2)
            then match e[2].registry(t.rows[id].group, user)
              case Unreachable => Fail(502)
              case Answer(isMember, _) => Allowed(isMember)
            else Fail(AuthRefusal(t, id, auth, e))
  }

  lemma CheckAccessAnswers(id: int, auth: string, user: int, t: Tables, e: seq<Env>)
    requires |e| == MAX_STEPS
    ensures var (p, u) := Alone(CheckAccess(id, auth, user), t, e);
      p.End? && AccessContract(id, auth, user, t, e, p.response, u)
  {
    hide Pos, Alone, BearerToken;
    var q := CheckAccess(id, auth, user);
    AuthOutcome(q, t, e);
    if Admits(t, id, auth) && Quiet(e, 0, 2) {
      Go(q, t, e, 2, AskMember(user, t.rows[id].group), t);
    }
  }

  // ---------- cloud login ----------

  lemma LoginSaved(q: Request, t: Tables, e: seq<Env>, raw: string, x: int, l: string)
    requires |e| == MAX_STEPS && q.CreateLoginCode? && q.id in t.rows
    requires Pos(q, t, e, 2) == (LoginCutoff(raw, x, l), t)
    ensures var r, kept := Alone(q, t, e), Unexpired(t.logins, e[2].now);
            if Quiet(e, 3, 5) && Sha256(raw) !in kept
            then r == (End(LoginCode(raw, x, l)), t.(logins := kept[Sha256(raw) := LoginRow(q.id, q.user, x)]))
            else r == (End(Fail(500)), if e[3].fail then t else t.(logins := kept))
  {
    hide Pos, Alone, Goto, Act, Unexpired;
    GoPrune(q, t, e, raw, x, l, t);
    if !e[3].fail {
      GoLoginInsert(q, t, e, raw, x, l, t.(logins := Unexpired(t.logins, e[2].now)));
    }
  }

  /** CreateLoginCode succeeds exactly for the owning group of an active appliance with a code not in use; it
      stores that code and drops the expired ones. */
  ghost predicate CreateLoginContract(id: int, user: int, group: int, t: Tables, e: seq<Env>, r: Response, u: Tables)
    requires |e| == MAX_STEPS
  {
    var raw, x, kept := e[1].nonce, e[1].now + e[1].ttl, Unexpired(t.logins, e[2].now);
    if Owned(t, id, group) && HasRow(t, id, Active) && !e[0].fail && Quiet(e, 3, 5) && Sha256(raw) !in kept
    then && r == LoginCode(raw, x, t.rows[id].hostLabel)
         && u == t.(logins := kept[Sha256(raw) := LoginRow(id, user, x)])
    else && r == Fail(OwnerRefusal(t, id, group, e))
         && u == if Owned(t, id, group) && HasRow(t, id, Active) && !e[0].fail && !e[3].fail
                 then t.(logins := kept) else t
  }

  lemma CreateLoginSucceedsIff(id: int, user: int, group: int, t: Tables, e: seq<Env>)
    requires |e| == MAX_STEPS
    ensures var (p, u) := Alone(CreateLoginCode(id, user, group), t, e);
            p.End? && CreateLoginContract(id, user, group, t, e, p.response, u)
  {
    hide Pos, Alone, Unexpired;
    var q := CreateLoginCode(id, user, group);
    Start(q, t, e);
    Go(q, t, e, 0, LoginLoad, t);
    if Owned(t, id, group) && HasRow(t, id, Active) && !e[0].fail {
      var raw, x, l := e[1].nonce, e[1].now + e[1].ttl, t.rows[id].hostLabel;
      Go(q, t, e, 1, LoginNow(l), t);
      LoginSaved(q, t, e, raw, x, l);
    }
  }

  /** What a redeemed code must be. */
  predicate CodeFor(t: Tables, id: int, code: string) {
    Sha256(code) in t.logins && t.logins[Sha256(code)].appliance == id
  }

  /** What the registry's answer for the code's user makes of a redemption. */
  function Verdict(access: Access): Response {
    match access
    case Unreachable => Fail(502)
    case Answer(true, Some(person)) => Identity(person)
    case Answer(_, _) => Fail(403)
  }

  /** RedeemLoginCode succeeds exactly for the bearer of an active appliance's present secret with an unexpired
      code of that appliance whose user the registry confirms as a member of its owning group. The code is gone
      even if it was then refused. */
  ghost predicate RedeemLoginContract(id: int, auth: string, code: string, t: Tables, e: seq<Env>, r: Response,
      u: Tables)
    requires |e| == MAX_STEPS
  {
    var found := Admits(t, id, auth) && Quiet(e, 0, 3) && CodeFor(t, id, code);
    && u == (if found then t.(logins := t.logins - {Sha256(code)}) else t)
    && r == (if !(Admits(t, id, auth) && Quiet(e, 0, 2)) then Fail(AuthRefusal(t, id, auth, e))
             else if e[2].fail then Fail(500)
             else if !found || e[3].now > t.logins[Sha256(code)].expiresAt then Fail(401)
             else Verdict(e[4].registry(t.rows[id].group, t.logins[Sha256(code)].user)))
  }

  lemma RedeemLoginSucceedsIff(id: int, auth: string, code: string, t: Tables, e: seq<Env>)
    requires |e| == MAX_STEPS
    ensures var (p, u) := Alone(RedeemLoginCode(id, auth, code), t, e);
            p.End? && RedeemLoginContract(id, auth, code, t, e, p.response, u)
  {
    hide Pos, Alone, Goto, Act, BearerToken;
    var q := RedeemLoginCode(id, auth, code);
    AuthOutcome(q, t, e);
    if Admits(t, id, auth) && Quiet(e, 0, 2) {
      var g := t.rows[id].group;
      GoConsume(q, t, e, g, t);
      if !e[2].fail && CodeFor(t, id, code) {
        var login, u := t.logins[Sha256(code)], t.(logins := t.logins - {Sha256(code)});
        GoIdentity(q, t, e, login, g, u);
      }
    }
  }

  // ---------- Revoke ----------

  /** The state with access withdrawn. */
  function Withdrawn(t: Tables, id: int): Tables
    requires id in t.rows
  {
    t.(rows := t.rows[id := t.rows[id].(status := Revoked, secretHash := None)], secrets := t.secrets - {id})
  }

  /** What a Revoke that stopped leaves: once its status write has landed, the appliance is revoked, with its
      hash and claim token and possibly its cluster secret still there. */
  function HalfRevoked(t: Tables, id: int, group: int, e: seq<Env>): Tables
    requires |e| == MAX_STEPS
  {
    if !Owned(t, id, group) || t.rows[id].status == Revoked || !Quiet(e, 0, 2) then t
    else
      var u := t.(rows := t.rows[id := t.rows[id].(status := Revoked)]);
      if e[2].fail then u else u.(secrets := u.secrets - {id})
  }

  /** Revoke succeeds exactly for the owning group of an appliance not revoked yet, if none of its calls but
      the last fails. So it cannot be repeated: one that stopped after its status write is never completed. */
  ghost predicate RevokeContract(id: int, group: int, t: Tables, e: seq<Env>, r: Response, u: Tables)
    requires |e| == MAX_STEPS
  {
    && (if Owned(t, id, group) && t.rows[id].status != Revoked && Quiet(e, 0, 4)
        then r == Done && u == Withdrawn(t, id).(claims := if e[4].fail then t.claims else t.claims - {id})
        else && r == Fail(if !e[0].fail && !Owned(t, id, group) then 404 else 500)
             && u == HalfRevoked(t, id, group, e))
    && (HasRow(t, id, Revoked) ==> u == t)
  }

  lemma RevokeSucceedsIff(id: int, group: int, t: Tables, e: seq<Env>)
    requires |e| == MAX_STEPS
    ensures var (p, u) := Alone(Revoke(id, group), t, e); p.End? && RevokeContract(id, group, t, e, p.response, u)
  {
    hide Pos, Alone, Withdrawn;
    var q := Revoke(id, group);
    Start(q, t, e);
    Go(q, t, e, 0, RevokeLoad, t);
    if Owned(t, id, group) && !e[0].fail {
      Go(q, t, e, 1, RevokeStatus, t);
      if t.rows[id].status != Revoked && !e[1].fail {
        RevokeTail(q, t, e);
      }
    }
  }

  lemma RevokeTail(q: Request, t: Tables, e: seq<Env>)
    requires |e| == MAX_STEPS && q.Revoke? && q.id in t.rows
    requires Pos(q, t, e, 2) == (RevokeSecret, t.(rows := t.rows[q.id := t.rows[q.id].(status := Revoked)]))
    ensures if Quiet(e, 2, 4)
            then Alone(q, t, e) == (End(Done),
              Withdrawn(t, q.id).(claims := if e[4].fail then t.claims else t.claims - {q.id}))
            else Alone(q, t, e) ==
                 var u := t.(rows := t.rows[q.id := t.rows[q.id].(status := Revoked)]);
                 (End(Fail(500)), if e[2].fail then u else u.(secrets := u.secrets - {q.id}))
  {
    hide Pos, Alone;
    var u := t.(rows := t.rows[q.id := t.rows[q.id].(status := Revoked)]);
    GoRevokeSecret(q, t, e, u);
    if !e[2].fail {
      var v := u.(secrets := u.secrets - {q.id});
      Go(q, t, e, 3, RevokeHash, v);
      assert v.rows[q.id := v.rows[q.id].(secretHash := None)] == Withdrawn(t, q.id).rows;
      if !e[3].fail {
        Go(q, t, e, 4, RevokeClaim, Withdrawn(t, q.id));
      }
    }
  }

  // ---------- PluginGetParams ----------

  /** The list names every active appliance once, in ascending order, with its own label and name, and no other. */
  ghost predicate ListsActive(t: Tables, ps: seq<Param>) {
    && (forall k :: 0 <= k < |ps| ==>
          && ps[k].id in t.rows && t.rows[ps[k].id].status == Active
          && ps[k] == Param(ps[k].id, t.rows[ps[k].id].hostLabel, t.rows[ps[k].id].name))
    && (forall a, b :: 0 <= a < b < |ps| ==> ps[a].id < ps[b].id)
    && (forall id :: 0 <= id < t.nextId && HasRow(t, id, Active) ==> exists k :: 0 <= k < |ps| && ps[k].id == id)
  }

  lemma ListingListsActive(t: Tables)
    ensures ListsActive(t, Listing(t))
  {
    var ids := WithStatus(t.rows, Active, if t.nextId < 0 then 0 else t.nextId);
    forall id | 0 <= id < t.nextId && HasRow(t, id, Active)
      ensures exists k :: 0 <= k < |Listing(t)| && Listing(t)[k].id == id
    {
      assert id in ids;
      var k :| 0 <= k < |ids| && ids[k] == id;
      assert Listing(t)[k].id == id;
    }
  }
}
