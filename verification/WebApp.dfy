/** internal/appliancewebapp: the handlers as they run, over a database and the cluster's secrets.
    e[k] supplies the fault, clock reading, random value and registry answer of the call's k-th step;
    each handler is proved to be exactly its program of single steps. */
module WebApp {
  import opened Wrappers
  import opened Tokens
  import opened Persistence
  import opened Protocol
  import opened Solo
  import opened Mariadb
  import opened Outcomes
  import opened RoundTrips
  import Hostnames
  import K8sSecrets

  class App {
    const db: Database
    const vault: K8sSecrets.SecretStore

    constructor ()
      ensures State() == EMPTY_TABLES && fresh(db) && fresh(vault)
    {
      db := new Database();
      vault := new K8sSecrets.SecretStore();
    }

    function State(): Tables
      reads db, vault
    {
      db.Tables(vault.secrets)
    }

    /** Request q, run alone from state t, ends in the present state with response r. */
    ghost predicate Ran(q: Request, t: Tables, e: seq<Env>, r: Response)
      requires |e| == MAX_STEPS
      reads db, vault
    {
      Alone(q, t, e) == (End(r), State())
    }

    /** q, started in t, stands at program point p after k steps, in the present state. */
    ghost predicate At(q: Request, t: Tables, e: seq<Env>, k: nat, p: Pc)
      requires k <= |e|
      reads db, vault
    {
      Pos(q, t, e, k) == (p, State())
    }

    method Claim(id: int, auth: string, e: seq<Env>) returns (r: Response)
      requires |e| == MAX_STEPS
      modifies db, vault
      ensures Ran(Request.Claim(id, auth), old(State()), e, r)
      ensures ClaimContract(id, auth, old(State()), e, r, State())
    {
      hide Pos, Alone, Apply, Markable, Settable, ApplianceSecret, Listing, Redeemable, ClaimContract, BearerToken;
      ghost var q, t := Request.Claim(id, auth), State();
      ClaimSucceedsIff(id, auth, t, e);
      var refusal := CheckClaimToken(q, t, id, auth, e);
      if refusal.Some? { return refusal.value; }
      var secret, hostLabel;
      refusal, secret, hostLabel := Activate(q, t, id, e, 2);
      if refusal.Some? { return refusal.value; }
      Go(q, t, e, 6, DropClaim(secret, hostLabel), State());
      var err := db.DeleteClaimToken(id, e[6].fail);  // a failure is not fatal
      return Secret(secret, hostLabel);
    }

    /** The token must be the stored one, in time; an expired one is deleted on sight. */
    method CheckClaimToken(ghost q: Request, ghost t: Tables, id: int, auth: string, e: seq<Env>)
      returns (refusal: Option<Response>)
      requires |e| == MAX_STEPS
      requires q == Request.Claim(id, auth) && t == State()
      modifies db`claims
      ensures refusal.Some? ==> Ran(q, t, e, refusal.value)
      ensures refusal.None? ==> At(q, t, e, 2, LoadPending)
    {
      hide Pos, Alone, Apply, Markable, Settable, ApplianceSecret, Listing, Redeemable, BearerToken, LabelTaken;
      Start(q, t, e);
      var raw := BearerToken(auth);
      if raw.None? { return Some(Fail(401)); }
      Go(q, t, e, 0, ClaimRead(raw.value), State());
      var err, stored := db.GetClaimToken(id, e[0].fail);
      if !err.Nil? { return Some(Fail(if err.NoRows? then 401 else 500)); }
      Go(q, t, e, 1, ClaimCheck(raw.value, stored), State());
      if e[1].now > stored.expiresAt {
        Go(q, t, e, 2, ClaimDrop, State());
        err := db.DeleteClaimToken(id, e[2].fail);
        return Some(Fail(401));
      }
      refusal := if Sha256(raw.value) != stored.tokenHash then Some(Fail(401)) else None;
    }

    method EnrollRedeem(id: int, auth: string, e: seq<Env>) returns (r: Response)
      requires |e| == MAX_STEPS
      modifies db, vault
      ensures Ran(Request.EnrollRedeem(id, auth), old(State()), e, r)
      ensures RedeemContract(id, auth, old(State()), e, r, State())
    {
      hide Pos, Alone, Apply, Markable, Settable, ApplianceSecret, Listing, Redeemable, RedeemContract;
      ghost var q, t := Request.EnrollRedeem(id, auth), State();
      RedeemSucceedsIff(id, auth, t, e);
      var refusal := CheckExchangeCode(q, t, id, auth, e);
      if refusal.Some? { return refusal.value; }
      var secret, hostLabel;
      refusal, secret, hostLabel := Activate(q, t, id, e, 3);
      if refusal.Some? { return refusal.value; }
      Go(q, t, e, 7, DropClaim(secret, hostLabel), State());
      var err := db.DeleteClaimToken(id, e[7].fail);
      Go(q, t, e, 8, DropCode(secret, hostLabel), State());
      err := db.DeleteEnrollExchangeCode(id, e[8].fail);
      return Secret(secret, hostLabel);
    }

    /** The code must be the stored one, in time, and pinned to the claim token that still stands. */
    method CheckExchangeCode(ghost q: Request, ghost t: Tables, id: int, auth: string, e: seq<Env>)
      returns (refusal: Option<Response>)
      requires |e| == MAX_STEPS
      requires q == Request.EnrollRedeem(id, auth) && t == State()
      modifies db`codes
      ensures refusal.Some? ==> Ran(q, t, e, refusal.value)
      ensures refusal.None? ==> At(q, t, e, 3, LoadPending)
    {
      hide Pos, Alone, Apply, Markable, Settable, ApplianceSecret, Listing, Redeemable, BearerToken, LabelTaken;
      Start(q, t, e);
      var raw := BearerToken(auth);
      if raw.None? { return Some(Fail(401)); }
      Go(q, t, e, 0, CodeRead(raw.value), State());
      var err, code := db.GetEnrollExchangeCode(id, e[0].fail);
      if !err.Nil? { return Some(Fail(if err.NoRows? then 401 else 500)); }
      Go(q, t, e, 1, CodeCheck(raw.value, code), State());
      if e[1].now > code.expiresAt {
        Go(q, t, e, 2, CodeDrop, State());
        err := db.DeleteEnrollExchangeCode(id, e[2].fail);
        return Some(Fail(401));
      }
      if Sha256(raw.value) != code.codeHash { return Some(Fail(401)); }
      Go(q, t, e, 2, CodePin(code.pin), State());
      var claim: ClaimRow;
      err, claim := db.GetClaimToken(id, e[2].fail);
      if !err.Nil? { return Some(Fail(if err.NoRows? then 401 else 500)); }
      refusal := if code.pin != claim.tokenHash then Some(Fail(401)) else None;
    }

    /** What Claim and EnrollRedeem do alike: check that the appliance is pending, publish a fresh secret,
        then activate. */
    method Activate(ghost q: Request, ghost t: Tables, id: int, e: seq<Env>, k: nat)
      returns (refusal: Option<Response>, secret: string, hostLabel: string)
      requires |e| == MAX_STEPS && k + 4 < MAX_STEPS
      requires Door(q) && Subject(q) == id && At(q, t, e, k, LoadPending)
      modifies db, vault
      ensures refusal.Some? ==> Ran(q, t, e, refusal.value)
      ensures refusal.None? ==> At(q, t, e, k + 4, DropClaim(secret, hostLabel))
    {
      hide Pos, Alone, Goto, Act, Apply, Markable, ApplianceSecret, Subject;
      secret, hostLabel := "", "";
      GoLoadPending(q, t, e, k, State());
      var err, row := db.GetAppliance(id, e[k].fail);
      if !err.Nil? { return Some(Fail(if err.NoRows? then 404 else 500)), secret, hostLabel; }
      if row.status != Pending { return Some(Fail(409)), secret, hostLabel; }
      secret, hostLabel := ApplianceSecret(id, e[k].nonce), row.hostLabel;
      var ok := Publish(q, t, id, secret, hostLabel, e, k + 1);
      if !ok { return Some(Fail(500)), secret, hostLabel; }
      GoPutActive(q, t, e, k + 3, secret, hostLabel, State());
      NothingChanges(State());
      err := db.MarkApplianceClaimed(id, e[k + 3].now, e[k + 3].fail);
      refusal := if err.Nil? then None else Some(Fail(500));
    }

    /** The two writes of every new secret, in this order: the cluster's copy, then the hash. */
    method Publish(ghost q: Request, ghost t: Tables, id: int, secret: string, ghost hostLabel: string, e: seq<Env>,
        k: nat)
      returns (ok: bool)
      requires |e| == MAX_STEPS && k + 2 < MAX_STEPS
      requires Subject(q) == id && At(q, t, e, k, PutSecret(secret, hostLabel))
      modifies db, vault
      ensures !ok ==> Ran(q, t, e, Fail(500))
      ensures ok && Door(q) ==> At(q, t, e, k + 2, PutActive(secret, hostLabel))
      ensures ok && !Door(q) ==> Ran(q, t, e, Secret(secret, hostLabel))
    {
      hide Pos, Alone, Apply, Markable, Settable, ApplianceSecret, Listing, Redeemable, Door, Subject;
      GoPutSecret(q, t, e, k, secret, hostLabel, State());
      ok := vault.WriteApplianceSecret(id, secret, e[k].fail);
      if !ok { return; }
      Go(q, t, e, k + 1, PutHash(secret, hostLabel), State());
      var err := db.SetApplianceSecretHash(id, Some(Sha256(secret)), e[k + 1].fail);
      ok := err.Nil?;
    }

    /** nil error and row, or the response that ends the request. */
    method RequireOwningGroup(id: int, group: int, fail: bool) returns (refusal: Option<Response>, row: Row)
      ensures refusal == if fail then Some(Fail(500))
                         else if id !in db.rows || db.rows[id].group != group then Some(Fail(404)) else None
      ensures refusal.None? ==> row == db.rows[id]
    {
      var err: Error;
      err, row := db.GetAppliance(id, fail);
      if !err.Nil? { return Some(Fail(if err.NoRows? then 404 else 500)), row; }
      refusal := if row.group != group then Some(Fail(404)) else None;
    }

    method Revoke(id: int, group: int, e: seq<Env>) returns (r: Response)
      requires |e| == MAX_STEPS
      modifies db, vault
      ensures Ran(Request.Revoke(id, group), old(State()), e, r)
      ensures RevokeContract(id, group, old(State()), e, r, State())
    {
      hide Pos, Alone, Apply, Markable, Settable, ApplianceSecret, Listing, Redeemable, RevokeContract;
      ghost var q, t := Request.Revoke(id, group), State();
      RevokeSucceedsIff(id, group, t, e);
      Start(q, t, e);
      Go(q, t, e, 0, RevokeLoad, State());
      var refusal, row := RequireOwningGroup(id, group, e[0].fail);
      if refusal.Some? { return refusal.value; }
      Go(q, t, e, 1, RevokeStatus, State());
      var err := db.SetApplianceStatus(id, Revoked, e[1].fail);
      if !err.Nil? { return Fail(500); }
      r := WithdrawCredentials(q, t, id, e);
    }

    /** The rest of Revoke, once the status write has landed. */
    method WithdrawCredentials(ghost q: Request, ghost t: Tables, id: int, e: seq<Env>) returns (r: Response)
      requires |e| == MAX_STEPS
      requires q.Revoke? && q.id == id && At(q, t, e, 2, RevokeSecret)
      modifies db, vault
      ensures Ran(q, t, e, r)
    {
      hide Pos, Alone, Apply, Markable, Settable, ApplianceSecret, Listing, Redeemable, BearerToken, LabelTaken,
           Begin, Bearing;
      GoRevokeSecret(q, t, e, State());
      var ok := vault.DeleteApplianceSecret(id, e[2].fail);
      if !ok { return Fail(500); }
      Go(q, t, e, 3, RevokeHash, State());
      var err := db.SetApplianceSecretHash(id, None, e[3].fail);
      if !err.Nil? { return Fail(500); }
      Go(q, t, e, 4, RevokeClaim, State());
      err := db.DeleteClaimToken(id, e[4].fail);  // ignored
      return Done;
    }

    /** The shared tail of both rotations. */
    method IssueNewSecret(ghost q: Request, ghost t: Tables, id: int, row: Row, e: seq<Env>, k: nat)
        returns (r: Response)
      requires |e| == MAX_STEPS && 0 < k <= 2
      requires (q.RotateSecret? || q.RotateOwnSecret?) && q.id == id
      requires At(q, t, e, k, PutSecret(ApplianceSecret(id, e[k - 1].nonce), row.hostLabel))
      modifies db, vault
      ensures Ran(q, t, e, r)
    {
      hide Pos, Alone, ApplianceSecret;
      var secret := ApplianceSecret(id, e[k - 1].nonce);
      var ok := Publish(q, t, id, secret, row.hostLabel, e, k);
      r := if ok then Secret(secret, row.hostLabel) else Fail(500);
    }

    method RotateSecret(id: int, group: int, e: seq<Env>) returns (r: Response)
      requires |e| == MAX_STEPS
      modifies db, vault
      ensures Ran(Request.RotateSecret(id, group), old(State()), e, r)
      ensures RotateContract(id, group, old(State()), e, r, State())
    {
      hide Pos, Alone, Apply, Markable, Settable, ApplianceSecret, Listing, Redeemable, RotateContract;
      ghost var q, t := Request.RotateSecret(id, group), State();
      RotateSucceedsIff(id, group, t, e);
      Start(q, t, e);
      Go(q, t, e, 0, RotateLoad, State());
      var refusal, row := RequireOwningGroup(id, group, e[0].fail);
      if refusal.Some? { return refusal.value; }
      if row.status != Active { return Fail(409); }
      r := IssueNewSecret(q, t, id, row, e, 1);
    }

    /** The presented secret must hash to the stored value. */
    method CheckStoredHash(ghost q: Request, id: int, auth: string, e: seq<Env>)
      returns (refusal: Option<Response>, ghost secret: string)
      requires |e| == MAX_STEPS
      requires q.RotateOwnSecret? || q.RedeemLoginCode? || q.CheckAccess?
      requires q.id == id && q.auth == auth
      ensures refusal.Some? ==> Ran(q, State(), e, refusal.value)
      ensures refusal.None? ==> At(q, State(), e, 1, AuthLoad(secret))
    {
      hide Pos, Alone, Goto, Act, Apply, BearerToken;
      Start(q, State(), e);
      secret := "";
      var raw := BearerToken(auth);
      if raw.None? { return Some(Fail(401)), secret; }
      secret := raw.value;
      GoAuthHash(q, State(), e, secret, State());
      var err, stored := db.GetApplianceSecretHash(id, e[0].fail);
      if !err.Nil? { return Some(Fail(if err.NoRows? then 401 else 500)), secret; }
      refusal := if stored.None? || Sha256(raw.value) != stored.value then Some(Fail(401)) else None;
    }

    /** Two reads, both of which must agree that the caller is the active appliance. */
    method AuthenticateAppliance(ghost q: Request, id: int, auth: string, e: seq<Env>)
      returns (refusal: Option<Response>, row: Row)
      requires |e| == MAX_STEPS
      requires q.RotateOwnSecret? || q.RedeemLoginCode? || q.CheckAccess?
      requires q.id == id && q.auth == auth
      ensures refusal.Some? ==> Ran(q, State(), e, refusal.value)
      ensures refusal.None? ==> id in db.rows && row == db.rows[id] && row.status == Active
      ensures refusal.None? ==> At(q, State(), e, 2, Admitted(q, row, e[1].nonce))
    {
      hide Pos, Alone, Goto, Admitted;
      row := Row("", "", 0, Pending, None, None);
      ghost var secret;
      refusal, secret := CheckStoredHash(q, id, auth, e);
      if refusal.Some? { return; }
      GoAuthLoad(q, State(), e, secret, State());
      var err;
      err, row := db.GetAppliance(id, e[1].fail);
      if !err.Nil? { return Some(Fail(if err.NoRows? then 401 else 500)), row; }
      if row.status != Active { return Some(Fail(401)), row; }
    }

    method RotateOwnSecret(id: int, auth: string, e: seq<Env>) returns (r: Response)
      requires |e| == MAX_STEPS
      modifies db, vault
      ensures Ran(Request.RotateOwnSecret(id, auth), old(State()), e, r)
      ensures RotateOwnContract(id, auth, old(State()), e, r, State())
    {
      hide Pos, Alone, ApplianceSecret, RotateOwnContract;
      ghost var q, t := Request.RotateOwnSecret(id, auth), State();
      RotateOwnSucceedsIff(id, auth, t, e);
      var refusal, row := AuthenticateAppliance(q, id, auth, e);
      if refusal.Some? { return refusal.value; }
      r := IssueNewSecret(q, t, id, row, e, 2);
    }

    method CreateLoginCode(id: int, user: int, group: int, e: seq<Env>) returns (r: Response)
      requires |e| == MAX_STEPS
      modifies db
      ensures Ran(Request.CreateLoginCode(id, user, group), old(State()), e, r)
      ensures CreateLoginContract(id, user, group, old(State()), e, r, State())
    {
      hide Pos, Alone, Apply, Markable, Settable, ApplianceSecret, Listing, Redeemable, CreateLoginContract;
      ghost var q, t := Request.CreateLoginCode(id, user, group), State();
      CreateLoginSucceedsIff(id, user, group, t, e);
      Start(q, t, e);
      Go(q, t, e, 0, LoginLoad, State());
      var refusal, row := RequireOwningGroup(id, group, e[0].fail);
      if refusal.Some? { return refusal.value; }
      if row.status != Active { return Fail(409); }
      Go(q, t, e, 1, LoginNow(row.hostLabel), State());
      var raw, expiresAt := e[1].nonce, e[1].now + e[1].ttl;
      var err := SaveLoginCode(q, t, id, user, row.hostLabel, raw, expiresAt, e);
      if !err.Nil? { return Fail(500); }
      return LoginCode(raw, expiresAt, row.hostLabel);
    }

    /** Two statements: prune what has expired by the clock, then insert. */
    method SaveLoginCode(ghost q: Request, ghost t: Tables, id: int, user: int, ghost hostLabel: string,
                         raw: string, expiresAt: int, e: seq<Env>)
      returns (err: Error)
      requires |e| == MAX_STEPS
      requires q.CreateLoginCode? && q.id == id && q.user == user
      requires At(q, t, e, 2, LoginCutoff(raw, expiresAt, hostLabel))
      modifies db
      ensures Ran(q, t, e, if err.Nil? then LoginCode(raw, expiresAt, hostLabel) else Fail(500))
    {
      hide Pos, Alone, Goto, Act, Apply;
      GoPrune(q, t, e, raw, expiresAt, hostLabel, State());
      NothingChanges(State());
      var cutoff := e[2].now;
      err := db.PruneLoginCodes(cutoff, e[3].fail);
      if !err.Nil? { return; }
      GoLoginInsert(q, t, e, raw, expiresAt, hostLabel, State());
      NothingChanges(State());
      err := db.InsertLoginCode(Sha256(raw), LoginRow(id, user, expiresAt), e[4].fail);
    }

    method RedeemLoginCode(id: int, auth: string, code: string, e: seq<Env>) returns (r: Response)
      requires |e| == MAX_STEPS
      modifies db
      ensures Ran(Request.RedeemLoginCode(id, auth, code), old(State()), e, r)
      ensures RedeemLoginContract(id, auth, code, old(State()), e, r, State())
    {
      hide Pos, Alone, Apply, Markable, Settable, ApplianceSecret, Listing, RedeemLoginContract;
      ghost var q, t := Request.RedeemLoginCode(id, auth, code), State();
      RedeemLoginSucceedsIff(id, auth, code, t, e);
      var refusal, row := AuthenticateAppliance(q, id, auth, e);
      if refusal.Some? { return refusal.value; }
      Go(q, t, e, 2, Consume(row.group), State());
      var err, login := db.ConsumeLoginCode(Sha256(code), id, e[2].fail);
      if !err.Nil? { return Fail(if err.NoRows? then 401 else 500); }
      r := ResolveIdentity(q, t, login, row.group, e);
    }

    /** The code is spent by now; what remains is its expiry and the registry's answer. */
    method ResolveIdentity(ghost q: Request, ghost t: Tables, login: LoginRow, group: int, e: seq<Env>)
        returns (r: Response)
      requires |e| == MAX_STEPS
      requires q.RedeemLoginCode? && At(q, t, e, 3, ConsumeCheck(login, group))
      ensures Ran(q, t, e, r)
    {
      hide Pos, Alone, Apply, Markable, Settable, ApplianceSecret, Listing, Redeemable;
      Go(q, t, e, 3, ConsumeCheck(login, group), State());
      if e[3].now > login.expiresAt { return Fail(401); }
      Go(q, t, e, 4, AskMember(login.user, group), State());
      var access := e[4].registry(group, login.user);
      if access.Unreachable? { return Fail(502); }
      if !access.isMember || access.user.None? { return Fail(403); }
      return Identity(access.user.value);
    }

    method CheckAccess(id: int, auth: string, user: int, e: seq<Env>) returns (r: Response)
      requires |e| == MAX_STEPS
      ensures Ran(Request.CheckAccess(id, auth, user), State(), e, r)
      ensures AccessContract(id, auth, user, State(), e, r, State())
    {
      hide Pos, Alone, Apply, Markable, Settable, ApplianceSecret, Listing, Redeemable, AccessContract;
      ghost var q, t := Request.CheckAccess(id, auth, user), State();
      CheckAccessAnswers(id, auth, user, t, e);
      var refusal, row := AuthenticateAppliance(q, id, auth, e);
      if refusal.Some? { return refusal.value; }
      Go(q, t, e, 2, AskMember(user, row.group), State());
      var access := e[2].registry(row.group, user);
      if access.Unreachable? { return Fail(502); }
      return Allowed(access.isMember);
    }

    /** A pending row under a fresh label, retrying on a label collision only: at most MAX_LABEL_ATTEMPTS
        inserts, of which at most the last adds a row, under a label no row held. */
    method CreateApplianceWithRetry(ghost q: Request, ghost t: Tables, lower: char -> char, name: string, group: int,
                                    suffixes: nat -> string, e: seq<Env>)
      returns (err: Error, id: int, row: Row, attempts: nat)
      requires |e| == MAX_STEPS
      requires (q.Register? || q.Enroll?) && q.name == name && q.group == group && t == State()
      requires forall k :: 0 <= k < |e| ==> e[k].hostLabel == Hostnames.GenerateLabel(lower, name, suffixes(k))
      modifies db
      ensures 1 <= attempts <= 5
      ensures !err.Nil? ==> Ran(q, t, e, Fail(500))
      ensures err.Nil? ==> At(q, t, e, attempts + 1, IssueNow(id, row.hostLabel))
      ensures err.Nil? ==> id == t.nextId && row == Row(name, e[attempts - 1].hostLabel, group, Pending, None, None)
      ensures State() == t || Added(t, name, e[attempts - 1].hostLabel, group)
      ensures err.Nil? ==> Added(t, name, row.hostLabel, group)
    {
      hide Pos, Alone, Goto, Act, Apply, LabelTaken, Hostnames.GenerateLabel;
      Start(q, t, e);
      BeginsWithInsert(q);
      row := Row("", "", 0, Pending, None, None);
      attempts := 0;
      while true
        invariant attempts < MAX_LABEL_ATTEMPTS && State() == t && At(q, t, e, attempts, Insert(attempts))
        decreases MAX_LABEL_ATTEMPTS - attempts
      {
        var hostLabel := Hostnames.GenerateLabel(lower, name, suffixes(attempts));
        assert e[attempts].hostLabel == hostLabel;
        err, id, row := CreateAppliance(q, t, name, hostLabel, group, e, attempts);
        attempts := attempts + 1;
        if err.Nil? { return; }
        if err.Duplicate? && attempts < MAX_LABEL_ATTEMPTS {
          continue;
        }
        return;
      }
    }

    /** One row was added to t: pending, under a label no row of t holds. */
    ghost predicate Added(t: Tables, name: string, hostLabel: string, group: int)
      reads db, vault
    {
      State() == Listed(t, name, hostLabel, group) && Free(t, hostLabel)
    }

    /** INSERT, then SELECT by the new id. */
    method CreateAppliance(ghost q: Request, ghost t: Tables, name: string, hostLabel: string, group: int,
        e: seq<Env>, k: nat)
      returns (err: Error, id: int, row: Row)
      requires |e| == MAX_STEPS && k < MAX_LABEL_ATTEMPTS && e[k].hostLabel == hostLabel
      requires (q.Register? || q.Enroll?) && q.name == name && q.group == group
      requires State() == t && At(q, t, e, k, Insert(k))
      modifies db
      ensures err.Duplicate? && k < MAX_LABEL_ATTEMPTS - 1 ==> State() == t && At(q, t, e, k + 1, Insert(k + 1))
      ensures !err.Nil? && !(err.Duplicate? && k < MAX_LABEL_ATTEMPTS - 1) ==> Ran(q, t, e, Fail(500))
      ensures err.Nil? ==> At(q, t, e, k + 2, IssueNow(id, hostLabel))
      ensures err.Nil? ==> id == t.nextId && row == Row(name, hostLabel, group, Pending, None, None)
      ensures State() == t || Added(t, name, hostLabel, group)
      ensures err.Nil? ==> Added(t, name, hostLabel, group)
    {
      hide Pos, Alone, Goto, Act, Apply, LabelTaken, Free;
      row := Row("", "", 0, Pending, None, None);
      GoInsert(q, t, e, k, State());
      NothingChanges(t);
      AddLists(t, name, hostLabel, group);
      FreeMeansNotTaken(t, hostLabel);
      err, id := db.InsertAppliance(name, hostLabel, group, e[k].fail);
      if !err.Nil? { return; }
      GoInserted(q, t, e, k + 1, id, State());
      err, row := db.GetAppliance(id, e[k + 1].fail);
    }

    /** Generates and stores a claim token, replacing any existing one. */
    method IssueClaimToken(ghost q: Request, ghost t: Tables, id: int, ghost hostLabel: string, e: seq<Env>, k: nat)
      returns (err: Error, raw: string, expiresAt: int)
      requires |e| == MAX_STEPS && k + 2 <= MAX_STEPS
      requires (q.Register? || q.Enroll?) && At(q, t, e, k, IssueNow(id, hostLabel))
      modifies db
      ensures raw == e[k].nonce && expiresAt == e[k].now + e[k].ttl
      ensures !err.Nil? ==> Ran(q, t, e, Fail(500))
      ensures err.Nil? && !q.Enroll? ==> Ran(q, t, e, Registered(id, hostLabel, raw, expiresAt))
      ensures err.Nil? && q.Enroll? ==> At(q, t, e, k + 2, CodeNow(id, Sha256(raw), expiresAt))
    {
      hide Pos, Alone, Goto, Act, Apply;
      GoIssue(q, t, e, k, id, hostLabel, State());
      raw, expiresAt := e[k].nonce, e[k].now + e[k].ttl;
      NothingChanges(State());
      err := db.SaveClaimToken(id, ClaimRow(Sha256(raw), expiresAt), e[k + 1].fail);
    }

    method Register(lower: char -> char, name: string, group: int, suffixes: nat -> string, e: seq<Env>)
        returns (r: Response)
      requires |e| == MAX_STEPS
      requires forall k :: 0 <= k < |e| ==> e[k].hostLabel == Hostnames.GenerateLabel(lower, name, suffixes(k))
      modifies db
      ensures Ran(Request.Register(name, group), old(State()), e, r)
      ensures RegisterContract(name, group, old(State()), e, r, State())
    {
      hide Pos, Alone, Goto, Act, Apply, LabelTaken, Hostnames.GenerateLabel, RegisterContract;
      ghost var q, t := Request.Register(name, group), State();
      RegisterSucceedsIff(name, group, t, e);
      var err, id, row, attempts := CreateApplianceWithRetry(q, t, lower, name, group, suffixes, e);
      if !err.Nil? { return Fail(500); }
      var raw, expiresAt;
      err, raw, expiresAt := IssueClaimToken(q, t, id, row.hostLabel, e, attempts + 1);
      if !err.Nil? { return Fail(500); }
      return Registered(id, row.hostLabel, raw, expiresAt);
    }

    method Enroll(lower: char -> char, name: string, group: int, suffixes: nat -> string, e: seq<Env>)
        returns (r: Response)
      requires |e| == MAX_STEPS
      requires forall k :: 0 <= k < |e| ==> e[k].hostLabel == Hostnames.GenerateLabel(lower, name, suffixes(k))
      modifies db
      ensures Ran(Request.Enroll(name, group), old(State()), e, r)
      ensures EnrollContract(name, group, old(State()), e, r, State())
    {
      hide Pos, Alone, Goto, Act, Apply, LabelTaken, Hostnames.GenerateLabel, EnrollContract;
      ghost var q, t := Request.Enroll(name, group), State();
      EnrollSucceedsIff(name, group, t, e);
      var err, id, row, attempts := CreateApplianceWithRetry(q, t, lower, name, group, suffixes, e);
      if !err.Nil? { return Fail(500); }
      var raw, until;
      err, raw, until := IssueClaimToken(q, t, id, row.hostLabel, e, attempts + 1);
      if !err.Nil? { return Fail(500); }
      r := IssueExchangeCode(q, t, id, Sha256(raw), until, e, attempts + 3);
    }

    /** Generates and stores an exchange code pinned to the claim token just stored. */
    method IssueExchangeCode(ghost q: Request, ghost t: Tables, id: int, pin: Hash, ghost until: int, e: seq<Env>,
        k: nat)
      returns (r: Response)
      requires |e| == MAX_STEPS && k + 2 <= MAX_STEPS
      requires q.Enroll? && At(q, t, e, k, CodeNow(id, pin, until))
      modifies db
      ensures Ran(q, t, e, r)
    {
      hide Pos, Alone, Goto, Act, Apply;
      GoIssueCode(q, t, e, k, id, pin, until, State());
      var code, expiresAt := e[k].nonce, e[k].now + e[k].ttl;
      NothingChanges(State());
      var err := db.SaveEnrollExchangeCode(id, CodeRow(Sha256(code), pin, expiresAt), e[k + 1].fail);
      if !err.Nil? { return Fail(500); }
      return Enrolled(id, code, expiresAt);
    }

    /** The list the provisioning plugin polls. */
    method PluginGetParams(e: seq<Env>) returns (r: Response)
      requires |e| == MAX_STEPS
      ensures Ran(Request.PluginGetParams, State(), e, r)
      ensures if e[0].fail then r == Fail(500) else r.Params? && ListsActive(State(), r.params)
    {
      hide Pos, Alone, Apply, Listing, WithStatus;
      ghost var q, t := Request.PluginGetParams, State();
      Start(q, t, e);
      Go(q, t, e, 0, List, State());
      var err, ids := db.ListAppliancesByStatus(Active, e[0].fail);
      if !err.Nil? { return Fail(500); }
      var params := FillParams(ids);
      ListingIs(t, ids, params);
      ListingListsActive(t);
      return Params(params);
    }

    method FillParams(ids: seq<int>) returns (params: seq<Param>)
      requires forall i :: 0 <= i < |ids| ==> ids[i] in db.rows
      ensures |params| == |ids|
      ensures forall i :: 0 <= i < |ids| ==> params[i] == Param(ids[i], db.rows[ids[i]].hostLabel, db.rows[ids[i]].name)
    {
      var out := new Param[|ids|];
      for i := 0 to |ids|
        invariant forall j :: 0 <= j < i ==> out[j] == Param(ids[j], db.rows[ids[j]].hostLabel, db.rows[ids[j]].name)
      {
        out[i] := Param(ids[i], db.rows[ids[i]].hostLabel, db.rows[ids[i]].name);
      }
      params := out[..];
    }
  }

  lemma NothingChanges(t: Tables)
    ensures Apply(t, Nothing) == t
  {}

  lemma BeginsWithInsert(q: Request)
    requires q.Register? || q.Enroll?
    ensures Begin(q) == Insert(0)
  {}

  lemma ListingIs(t: Tables, ids: seq<int>, params: seq<Param>)
    requires ids == WithStatus(t.rows, Active, if t.nextId < 0 then 0 else t.nextId)
    requires |params| == |ids| && forall i :: 0 <= i < |ids| ==>
      ids[i] in t.rows && params[i] == Param(ids[i], t.rows[ids[i]].hostLabel, t.rows[ids[i]].name)
    ensures Listing(t) == params
  {}
}
