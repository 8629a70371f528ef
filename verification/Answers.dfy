/** What each call answers, whatever else is in flight: a function of what the stores held at its own steps. */
module Answers {
  import opened Wrappers
  import opened Tokens
  import opened Persistence
  import opened Protocol
  import opened Solo
  import opened Outcomes
  import opened RoundTrips
  import opened Runs

  /** The tables, and the rest of the world, as a call finds them at its k-th step. */
  type Found = nat -> Tables
  type Met = nat -> Env

  /** Where a call stands after k steps, between which other calls may have changed anything. */
  function Chain(q: Request, at: Found, e: Met, k: nat): Pc {
    if k == 0 then Begin(q) else Goto(q, Chain(q, at, e, k - 1), at(k - 1), e(k - 1))
  }

  // ---------- the answers ----------

  /** Marking the appliance as claimed would change its row. */
  predicate Restamps(t: Tables, id: int, now: int) {
    id in t.rows && t.rows[id].(status := Active, claimedAt := Some(now)) != t.rows[id]
  }

  /** From the check of "pending" at step k: that one read decides; after it only faults matter, and a second
      activation at the same instant. */
  function ActivationAnswer(id: int, at: Found, e: Met, k: nat): Response {
    if e(k).fail then Fail(500)
    else if id !in at(k).rows then Fail(404)
    else if at(k).rows[id].status != Pending then Fail(409)
    else if e(k + 1).fail || e(k + 2).fail || id !in at(k + 2).rows then Fail(500)
    else if e(k + 3).fail || !Restamps(at(k + 3), id, e(k + 3).now) then Fail(500)
    else Secret(ApplianceSecret(id, e(k).nonce), at(k).rows[id].hostLabel)
  }

  function ClaimAnswer(id: int, auth: string, at: Found, e: Met): Response {
    var raw := BearerToken(auth);
    if raw.None? then Fail(401)
    else if e(0).fail then Fail(500)
    else if id !in at(0).claims then Fail(401)
    else
      var claim := at(0).claims[id];
      if e(1).now > claim.expiresAt || claim.tokenHash != Sha256(raw.value) then Fail(401)
      else ActivationAnswer(id, at, e, 2)
  }

  /** The pin is the code's as read at step 0, the claim token the one that stands at step 2. */
  function RedeemAnswer(id: int, auth: string, at: Found, e: Met): Response {
    var raw := BearerToken(auth);
    if raw.None? then Fail(401)
    else if e(0).fail then Fail(500)
    else if id !in at(0).codes then Fail(401)
    else
      var code := at(0).codes[id];
      if e(1).now > code.expiresAt || code.codeHash != Sha256(raw.value) then Fail(401)
      else if e(2).fail then Fail(500)
      else if id !in at(2).claims || at(2).claims[id].tokenHash != code.pin then Fail(401)
      else ActivationAnswer(id, at, e, 3)
  }

  /** The owner's check of the row at step 0; None if it passes. */
  function OwnerAnswer(id: int, group: int, at: Found, e: Met): Option<Response> {
    if e(0).fail then Some(Fail(500))
    else if id !in at(0).rows || at(0).rows[id].group != group then Some(Fail(404))
    else None
  }

  function RevokeAnswer(id: int, group: int, at: Found, e: Met): Response {
    var refusal := OwnerAnswer(id, group, at, e);
    if refusal.Some? then refusal.value
    else if e(1).fail || id !in at(1).rows || at(1).rows[id].status == Revoked then Fail(500)
    else if e(2).fail || e(3).fail || id !in at(3).rows then Fail(500)
    else Done
  }

  /** A rotation past its check, which read the row at step k - 1. */
  function IssueAnswer(id: int, at: Found, e: Met, k: nat): Response
    requires 0 < k && id in at(k - 1).rows
  {
    if e(k).fail || e(k + 1).fail || id !in at(k + 1).rows then Fail(500)
    else Secret(ApplianceSecret(id, e(k - 1).nonce), at(k - 1).rows[id].hostLabel)
  }

  function RotateAnswer(id: int, group: int, at: Found, e: Met): Response {
    var refusal := OwnerAnswer(id, group, at, e);
    if refusal.Some? then refusal.value
    else if at(0).rows[id].status != Active then Fail(409)
    else IssueAnswer(id, at, e, 1)
  }

  /** Authentication: the hash at step 0, the status at step 1; None if it passes. */
  function AuthAnswer(id: int, auth: string, at: Found, e: Met): Option<Response> {
    var raw := BearerToken(auth);
    if raw.None? then Some(Fail(401))
    else if e(0).fail then Some(Fail(500))
    else if id !in at(0).rows || at(0).rows[id].secretHash != Some(Sha256(raw.value)) then Some(Fail(401))
    else if e(1).fail then Some(Fail(500))
    else if id !in at(1).rows || at(1).rows[id].status != Active then Some(Fail(401))
    else None
  }

  function RotateOwnAnswer(id: int, auth: string, at: Found, e: Met): Response {
    var refusal := AuthAnswer(id, auth, at, e);
    if refusal.Some? then refusal.value else IssueAnswer(id, at, e, 2)
  }

  /** The registry is asked after authentication only, about the user in the path and the appliance's group. */
  function AccessAnswer(id: int, auth: string, user: int, at: Found, e: Met): Response {
    var refusal := AuthAnswer(id, auth, at, e);
    if refusal.Some? then refusal.value
    else
      match e(2).registry(at(1).rows[id].group, user)
      case Unreachable => Fail(502)
      case Answer(isMember, _) => Allowed(isMember)
  }

  function CreateLoginAnswer(id: int, group: int, at: Found, e: Met): Response {
    var refusal := OwnerAnswer(id, group, at, e);
    var raw := e(1).nonce;
    if refusal.Some? then refusal.value
    else if at(0).rows[id].status != Active then Fail(409)
    else if e(3).fail || e(4).fail || id !in at(4).rows || Sha256(raw) in at(4).logins then Fail(500)
    else LoginCode(raw, e(1).now + e(1).ttl, at(0).rows[id].hostLabel)
  }

  function RedeemLoginAnswer(id: int, auth: string, code: string, at: Found, e: Met): Response {
    var refusal := AuthAnswer(id, auth, at, e);
    if refusal.Some? then refusal.value
    else if e(2).fail then Fail(500)
    else if !CodeFor(at(2), id, code) then Fail(401)
    else
      var login := at(2).logins[Sha256(code)];
      if e(3).now > login.expiresAt then Fail(401)
      else Verdict(e(4).registry(at(1).rows[id].group, login.user))
  }

  /** Storing a claim token for the id at step k + 1, and, for Enroll, an exchange code at step k + 3. */
  function TokenAnswer(enroll: bool, id: int, hostLabel: string, at: Found, e: Met, k: nat): Response {
    if e(k + 1).fail || id !in at(k + 1).rows then Fail(500)
    else if !enroll then Registered(id, hostLabel, e(k).nonce, e(k).now + e(k).ttl)
    else if e(k + 3).fail || id !in at(k + 3).rows then Fail(500)
    else Enrolled(id, e(k + 2).nonce, e(k + 2).now + e(k + 2).ttl)
  }

  /** The attempt at step k to insert a row, and what follows: a label held at that instant leads to the next of
      five attempts, any fault ends the call. */
  function CreateAnswer(enroll: bool, at: Found, e: Met, k: nat): Response
    decreases 5 - k
  {
    if e(k).fail then Fail(500)
    else if !Free(at(k), e(k).hostLabel) then if k < 4 then CreateAnswer(enroll, at, e, k + 1) else Fail(500)
    else
      var id := at(k).nextId;
      if e(k + 1).fail || id !in at(k + 1).rows then Fail(500)
      else TokenAnswer(enroll, id, at(k + 1).rows[id].hostLabel, at, e, k + 2)
  }

  function AnswerOf(q: Request, at: Found, e: Met): Response {
    match q
    case Claim(id, auth) => ClaimAnswer(id, auth, at, e)
    case EnrollRedeem(id, auth) => RedeemAnswer(id, auth, at, e)
    case Revoke(id, group) => RevokeAnswer(id, group, at, e)
    case RotateSecret(id, group) => RotateAnswer(id, group, at, e)
    case RotateOwnSecret(id, auth) => RotateOwnAnswer(id, auth, at, e)
    case CreateLoginCode(id, _, group) => CreateLoginAnswer(id, group, at, e)
    case RedeemLoginCode(id, auth, code) => RedeemLoginAnswer(id, auth, code, at, e)
    case CheckAccess(id, auth, user) => AccessAnswer(id, auth, user, at, e)
    case Register(_, _) => CreateAnswer(false, at, e, 0)
    case Enroll(_, _) => CreateAnswer(true, at, e, 0)
    case Reissue(id) => TokenAnswer(false, id, "", at, e, 0)
    case PluginGetParams => if e(0).fail then Fail(500) else Params(Listing(at(0)))
  }

  // ---------- every chain of steps ends in its answer ----------

  predicate Ends(q: Request, at: Found, e: Met, r: Response) {
    Chain(q, at, e, MAX_STEPS) == End(r)
  }

  lemma {:induction false} ChainStops(q: Request, at: Found, e: Met, k: nat, m: nat)
    requires k <= m && Chain(q, at, e, k).End?
    ensures Chain(q, at, e, m) == Chain(q, at, e, k)
    decreases m
  {
    hide Goto, Begin;
    if k < m {
      ChainStops(q, at, e, k, m - 1);
      Stays(q, Chain(q, at, e, m - 1), at(m - 1), e(m - 1));
    }
  }

  lemma First(q: Request, at: Found, e: Met)
    ensures Chain(q, at, e, 0) == Begin(q)
    ensures Begin(q).End? ==> Ends(q, at, e, Begin(q).response)
  {
    hide Begin;
    if Begin(q).End? {
      ChainStops(q, at, e, 0, MAX_STEPS);
    }
  }

  lemma Next(q: Request, at: Found, e: Met, k: nat, p: Pc)
    requires k < MAX_STEPS && Chain(q, at, e, k) == p
    ensures Chain(q, at, e, k + 1) == Goto(q, p, at(k), e(k))
    ensures Goto(q, p, at(k), e(k)).End? ==> Ends(q, at, e, Goto(q, p, at(k), e(k)).response)
  {
    hide Goto, Begin;
    if Chain(q, at, e, k + 1).End? {
      ChainStops(q, at, e, k + 1, MAX_STEPS);
    }
  }

  lemma PublishEnds(q: Request, at: Found, e: Met, k: nat, x: string, l: string)
    requires k + 2 < MAX_STEPS && Chain(q, at, e, k) == PutSecret(x, l)
    ensures var failed := e(k).fail || e(k + 1).fail || Subject(q) !in at(k + 1).rows;
            && (failed ==> Ends(q, at, e, Fail(500)))
            && (!failed && !Door(q) ==> Ends(q, at, e, Secret(x, l)))
            && (!failed && Door(q) ==> Chain(q, at, e, k + 2) == PutActive(x, l))
  {
    hide Chain, Ends, Subject, Door;
    Next(q, at, e, k, PutSecret(x, l));
    if !e(k).fail {
      Next(q, at, e, k + 1, PutHash(x, l));
    }
  }

  lemma StampEnds(q: Request, at: Found, e: Met, k: nat, x: string, l: string)
    requires k + 3 < MAX_STEPS && Door(q) && Chain(q, at, e, k) == PutActive(x, l)
    ensures if e(k).fail || !Restamps(at(k), Subject(q), e(k).now) then Ends(q, at, e, Fail(500))
            else Ends(q, at, e, Secret(x, l))
  {
    hide Chain, Ends, Subject;
    hide ApplianceSecret, Listing, LabelTaken, Redeemable, Settable;
    Next(q, at, e, k, PutActive(x, l));
    if !e(k).fail && Restamps(at(k), Subject(q), e(k).now) {
      CleaningEnds(q, at, e, k + 1, x, l);
    }
  }

  lemma CleaningEnds(q: Request, at: Found, e: Met, k: nat, x: string, l: string)
    requires k + 2 < MAX_STEPS && Chain(q, at, e, k) == DropClaim(x, l)
    ensures Ends(q, at, e, Secret(x, l))
  {
    hide Chain, Ends, Subject;
    Next(q, at, e, k, DropClaim(x, l));
    if q.EnrollRedeem? {
      Next(q, at, e, k + 1, DropCode(x, l));
    }
  }

  lemma ActivationEnds(q: Request, at: Found, e: Met, k: nat)
    requires k + 6 < MAX_STEPS && Door(q) && Chain(q, at, e, k) == LoadPending
    ensures Ends(q, at, e, ActivationAnswer(Subject(q), at, e, k))
  {
    hide Chain, Ends, Subject, ApplianceSecret, Restamps;
    var id := Subject(q);
    Next(q, at, e, k, LoadPending);
    if !e(k).fail && id in at(k).rows && at(k).rows[id].status == Pending {
      var x, l := ApplianceSecret(id, e(k).nonce), at(k).rows[id].hostLabel;
      PublishEnds(q, at, e, k + 1, x, l);
      if !e(k + 1).fail && !e(k + 2).fail && id in at(k + 2).rows {
        StampEnds(q, at, e, k + 3, x, l);
      }
    }
  }

  lemma ClaimEnds(id: int, auth: string, at: Found, e: Met)
    ensures Ends(Request.Claim(id, auth), at, e, ClaimAnswer(id, auth, at, e))
  {
    hide Chain, Ends, BearerToken, ActivationAnswer;
    var q := Request.Claim(id, auth);
    First(q, at, e);
    var raw := BearerToken(auth);
    if raw.Some? {
      Next(q, at, e, 0, ClaimRead(raw.value));
      if !e(0).fail && id in at(0).claims {
        var claim := at(0).claims[id];
        Next(q, at, e, 1, ClaimCheck(raw.value, claim));
        if e(1).now > claim.expiresAt {
          Next(q, at, e, 2, ClaimDrop);
        } else if claim.tokenHash == Sha256(raw.value) {
          ActivationEnds(q, at, e, 2);
        }
      }
    }
  }

  lemma RedeemEnds(id: int, auth: string, at: Found, e: Met)
    ensures Ends(Request.EnrollRedeem(id, auth), at, e, RedeemAnswer(id, auth, at, e))
  {
    hide Chain, Ends, BearerToken, ActivationAnswer;
    var q := Request.EnrollRedeem(id, auth);
    First(q, at, e);
    var raw := BearerToken(auth);
    if raw.Some? {
      Next(q, at, e, 0, CodeRead(raw.value));
      if !e(0).fail && id in at(0).codes {
        CheckEnds(q, at, e, raw.value, at(0).codes[id]);
      }
    }
  }

  lemma CheckEnds(q: Request, at: Found, e: Met, raw: string, code: CodeRow)
    requires q.EnrollRedeem? && Chain(q, at, e, 1) == CodeCheck(raw, code)
    ensures Ends(q, at, e,
                 if e(1).now > code.expiresAt || code.codeHash != Sha256(raw) then Fail(401)
                 else if e(2).fail then Fail(500)
                 else if q.id !in at(2).claims || at(2).claims[q.id].tokenHash != code.pin then Fail(401)
                 else ActivationAnswer(q.id, at, e, 3))
  {
    hide Chain, Ends, ActivationAnswer, ApplianceSecret, Listing, LabelTaken, Redeemable, Markable, Settable;
    Next(q, at, e, 1, CodeCheck(raw, code));
    if e(1).now > code.expiresAt {
      Next(q, at, e, 2, CodeDrop);
    } else if code.codeHash == Sha256(raw) {
      Next(q, at, e, 2, CodePin(code.pin));
      if !e(2).fail && q.id in at(2).claims && at(2).claims[q.id].tokenHash == code.pin {
        ActivationEnds(q, at, e, 3);
      }
    }
  }

  lemma RevokeEnds(id: int, group: int, at: Found, e: Met)
    ensures Ends(Revoke(id, group), at, e, RevokeAnswer(id, group, at, e))
  {
    hide Chain, Ends, ApplianceSecret, Listing, LabelTaken, Redeemable, Markable, BearerToken;
    var q := Revoke(id, group);
    First(q, at, e);
    Next(q, at, e, 0, RevokeLoad);
    if OwnerAnswer(id, group, at, e).None? {
      StatusEnds(q, at, e);
      if !e(1).fail && id in at(1).rows && at(1).rows[id].status != Revoked {
        WithdrawEnds(q, at, e);
      }
    }
  }

  lemma StatusEnds(q: Request, at: Found, e: Met)
    requires Chain(q, at, e, 1) == RevokeStatus
    ensures var id := Subject(q);
            if e(1).fail || id !in at(1).rows || at(1).rows[id].status == Revoked then Ends(q, at, e, Fail(500))
            else Chain(q, at, e, 2) == RevokeSecret
  {
    hide Chain, Ends, Subject, ApplianceSecret, Listing, LabelTaken, Redeemable, Markable;
    Next(q, at, e, 1, RevokeStatus);
  }

  lemma WithdrawEnds(q: Request, at: Found, e: Met)
    requires Chain(q, at, e, 2) == RevokeSecret
    ensures Ends(q, at, e, if e(2).fail || e(3).fail || Subject(q) !in at(3).rows then Fail(500) else Done)
  {
    hide Chain, Ends, Goto, Subject;
    Next(q, at, e, 2, RevokeSecret);
    WithdrawGoes(q, at(2), e(2));
    if !e(2).fail {
      Next(q, at, e, 3, RevokeHash);
      WithdrawGoes(q, at(3), e(3));
      if !e(3).fail && Subject(q) in at(3).rows {
        Next(q, at, e, 4, RevokeClaim);
        WithdrawGoes(q, at(4), e(4));
      }
    }
  }

  lemma WithdrawGoes(q: Request, t: Tables, e: Env)
    ensures Goto(q, RevokeSecret, t, e) == if e.fail then End(Fail(500)) else RevokeHash
    ensures Goto(q, RevokeHash, t, e) == if e.fail || Subject(q) !in t.rows then End(Fail(500)) else RevokeClaim
    ensures Goto(q, RevokeClaim, t, e) == End(Done)
  {
    hide Subject;
  }

  lemma RotateEnds(id: int, group: int, at: Found, e: Met)
    ensures Ends(RotateSecret(id, group), at, e, RotateAnswer(id, group, at, e))
  {
    hide Chain, Ends, ApplianceSecret;
    var q := RotateSecret(id, group);
    First(q, at, e);
    Next(q, at, e, 0, RotateLoad);
    if OwnerAnswer(id, group, at, e).None? && at(0).rows[id].status == Active {
      PublishEnds(q, at, e, 1, ApplianceSecret(id, e(0).nonce), at(0).rows[id].hostLabel);
    }
  }

  lemma AuthEnds(q: Request, at: Found, e: Met)
    requires q.RotateOwnSecret? || q.RedeemLoginCode? || q.CheckAccess?
    ensures var refusal := AuthAnswer(q.id, q.auth, at, e);
            if refusal.Some? then Ends(q, at, e, refusal.value)
            else Chain(q, at, e, 2) == Admitted(q, at(1).rows[q.id], e(1).nonce)
  {
    hide Chain, Ends, Goto, BearerToken, ApplianceSecret, Admitted;
    First(q, at, e);
    var raw := BearerToken(q.auth);
    if raw.Some? {
      HashEnds(q, at, e, raw.value);
      if !e(0).fail && q.id in at(0).rows && at(0).rows[q.id].secretHash == Some(Sha256(raw.value)) {
        LoadEnds(q, at, e, raw.value);
      }
    }
  }

  lemma HashEnds(q: Request, at: Found, e: Met, x: string)
    requires HasSubject(q) && Chain(q, at, e, 0) == AuthHash(x)
    ensures if e(0).fail then Ends(q, at, e, Fail(500))
            else if q.id !in at(0).rows || at(0).rows[q.id].secretHash != Some(Sha256(x)) then Ends(q, at, e, Fail(401))
            else Chain(q, at, e, 1) == AuthLoad(x)
  {
    hide Chain, Ends;
    Next(q, at, e, 0, AuthHash(x));
  }

  lemma LoadEnds(q: Request, at: Found, e: Met, x: string)
    requires (q.RotateOwnSecret? || q.RedeemLoginCode? || q.CheckAccess?) && Chain(q, at, e, 1) == AuthLoad(x)
    ensures if e(1).fail then Ends(q, at, e, Fail(500))
            else if q.id !in at(1).rows || at(1).rows[q.id].status != Active then Ends(q, at, e, Fail(401))
            else Chain(q, at, e, 2) == Admitted(q, at(1).rows[q.id], e(1).nonce)
  {
    hide Chain, Ends, Goto, Admitted;
    Next(q, at, e, 1, AuthLoad(x));
    LoadGoes(q, at(1), e(1), x);
  }

  lemma LoadGoes(q: Request, t: Tables, e: Env, x: string)
    requires q.RotateOwnSecret? || q.RedeemLoginCode? || q.CheckAccess?
    ensures Goto(q, AuthLoad(x), t, e) ==
            if e.fail then End(Fail(500))
            else if q.id !in t.rows || t.rows[q.id].status != Active then End(Fail(401))
            else Admitted(q, t.rows[q.id], e.nonce)
  {}

  lemma RotateOwnEnds(id: int, auth: string, at: Found, e: Met)
    ensures Ends(RotateOwnSecret(id, auth), at, e, RotateOwnAnswer(id, auth, at, e))
  {
    hide Chain, Ends, Goto, ApplianceSecret, AuthAnswer;
    var q := RotateOwnSecret(id, auth);
    AuthEnds(q, at, e);
    if AuthAnswer(id, auth, at, e).None? {
      AuthReadsRow(id, auth, at, e);
      PublishEnds(q, at, e, 2, ApplianceSecret(id, e(1).nonce), at(1).rows[id].hostLabel);
    }
  }

  lemma AuthReadsRow(id: int, auth: string, at: Found, e: Met)
    requires AuthAnswer(id, auth, at, e).None?
    ensures id in at(1).rows
  {}

  lemma AccessEnds(id: int, auth: string, user: int, at: Found, e: Met)
    ensures Ends(CheckAccess(id, auth, user), at, e, AccessAnswer(id, auth, user, at, e))
  {
    hide Chain, Ends, AuthAnswer;
    var q := CheckAccess(id, auth, user);
    AuthEnds(q, at, e);
    if AuthAnswer(id, auth, at, e).None? {
      AuthReadsRow(id, auth, at, e);
      Next(q, at, e, 2, AskMember(user, at(1).rows[id].group));
    }
  }

  lemma RedeemLoginEnds(id: int, auth: string, code: string, at: Found, e: Met)
    ensures Ends(RedeemLoginCode(id, auth, code), at, e, RedeemLoginAnswer(id, auth, code, at, e))
  {
    hide Chain, Ends, AuthAnswer, Goto, Verdict;
    var q := RedeemLoginCode(id, auth, code);
    AuthEnds(q, at, e);
    if AuthAnswer(id, auth, at, e).None? {
      AuthReadsRow(id, auth, at, e);
      var g := at(1).rows[id].group;
      ConsumeEnds(q, at, e, g);
      if !e(2).fail && CodeFor(at(2), id, code) {
        IdentityEnds(q, at, e, at(2).logins[Sha256(code)], g);
      }
    }
  }

  lemma ConsumeEnds(q: Request, at: Found, e: Met, g: int)
    requires q.RedeemLoginCode? && Chain(q, at, e, 2) == Consume(g)
    ensures if e(2).fail then Ends(q, at, e, Fail(500))
            else if !CodeFor(at(2), q.id, q.code) then Ends(q, at, e, Fail(401))
            else Chain(q, at, e, 3) == ConsumeCheck(at(2).logins[Sha256(q.code)], g)
  {
    hide Chain, Ends;
    Next(q, at, e, 2, Consume(g));
  }

  lemma IdentityEnds(q: Request, at: Found, e: Met, login: LoginRow, g: int)
    requires q.RedeemLoginCode? && Chain(q, at, e, 3) == ConsumeCheck(login, g)
    ensures Ends(q, at, e, if e(3).now > login.expiresAt then Fail(401) else Verdict(e(4).registry(g, login.user)))
  {
    hide Chain, Ends;
    Next(q, at, e, 3, ConsumeCheck(login, g));
    if e(3).now <= login.expiresAt {
      Next(q, at, e, 4, AskMember(login.user, g));
    }
  }

  lemma CreateLoginEnds(id: int, user: int, group: int, at: Found, e: Met)
    ensures Ends(CreateLoginCode(id, user, group), at, e, CreateLoginAnswer(id, group, at, e))
  {
    hide Chain, Ends;
    var q := CreateLoginCode(id, user, group);
    First(q, at, e);
    Next(q, at, e, 0, LoginLoad);
    if OwnerAnswer(id, group, at, e).None? && at(0).rows[id].status == Active {
      SaveLoginEnds(q, at, e, at(0).rows[id].hostLabel);
    }
  }

  lemma SaveLoginEnds(q: Request, at: Found, e: Met, l: string)
    requires Chain(q, at, e, 1) == LoginNow(l)
    ensures var raw := e(1).nonce;
            Ends(q, at, e,
                 if e(3).fail || e(4).fail || Subject(q) !in at(4).rows || Sha256(raw) in at(4).logins then Fail(500)
                 else LoginCode(raw, e(1).now + e(1).ttl, l))
  {
    hide Chain, Ends, Subject, ApplianceSecret, Listing, LabelTaken, Redeemable, Markable, Settable;
    var raw, x := e(1).nonce, e(1).now + e(1).ttl;
    Next(q, at, e, 1, LoginNow(l));
    Next(q, at, e, 2, LoginCutoff(raw, x, l));
    StoreLoginEnds(q, at, e, e(2).now, raw, x, l);
  }

  lemma StoreLoginEnds(q: Request, at: Found, e: Met, cutoff: int, raw: string, x: int, l: string)
    requires Chain(q, at, e, 3) == LoginPrune(cutoff, raw, x, l)
    ensures Ends(q, at, e,
                 if e(3).fail || e(4).fail || Subject(q) !in at(4).rows || Sha256(raw) in at(4).logins then Fail(500)
                 else LoginCode(raw, x, l))
  {
    hide Chain, Ends, Subject, ApplianceSecret, Listing, LabelTaken, Redeemable, Markable, Settable;
    Next(q, at, e, 3, LoginPrune(cutoff, raw, x, l));
    if !e(3).fail {
      Next(q, at, e, 4, LoginInsert(raw, x, l));
    }
  }

  lemma TokenEnds(q: Request, at: Found, e: Met, k: nat, id: int, l: string)
    requires k + 4 <= MAX_STEPS && Chain(q, at, e, k) == IssueNow(id, l)
    ensures Ends(q, at, e, TokenAnswer(q.Enroll?, id, l, at, e, k))
  {
    hide Chain, Ends, Subject;
    var raw, x := e(k).nonce, e(k).now + e(k).ttl;
    Next(q, at, e, k, IssueNow(id, l));
    Next(q, at, e, k + 1, SaveClaim(id, raw, x, l));
    if !e(k + 1).fail && id in at(k + 1).rows && q.Enroll? {
      CodeEnds(q, at, e, k + 2, id, Sha256(raw), x);
    }
  }

  lemma CodeEnds(q: Request, at: Found, e: Met, k: nat, id: int, pin: Hash, until: int)
    requires k + 2 <= MAX_STEPS && Chain(q, at, e, k) == CodeNow(id, pin, until)
    ensures Ends(q, at, e, if e(k + 1).fail || id !in at(k + 1).rows then Fail(500)
                           else Enrolled(id, e(k).nonce, e(k).now + e(k).ttl))
  {
    hide Chain, Ends, Subject;
    Next(q, at, e, k, CodeNow(id, pin, until));
    Next(q, at, e, k + 1, SaveCode(id, pin, until, e(k).nonce, e(k).now + e(k).ttl));
  }

  lemma {:induction false} CreateEnds(q: Request, at: Found, e: Met, k: nat)
    requires k < 5 && (q.Register? || q.Enroll?) && Chain(q, at, e, k) == Insert(k)
    ensures Ends(q, at, e, CreateAnswer(q.Enroll?, at, e, k))
    decreases 5 - k
  {
    hide Chain, Ends, Free, LabelTaken, TokenAnswer;
    FreeMeansNotTaken(at(k), e(k).hostLabel);
    Next(q, at, e, k, Insert(k));
    if !e(k).fail && !Free(at(k), e(k).hostLabel) && k < 4 {
      CreateEnds(q, at, e, k + 1);
    } else if !e(k).fail && Free(at(k), e(k).hostLabel) {
      var id := at(k).nextId;
      Next(q, at, e, k + 1, Inserted(id));
      if !e(k + 1).fail && id in at(k + 1).rows {
        TokenEnds(q, at, e, k + 2, id, at(k + 1).rows[id].hostLabel);
      }
    }
  }

  lemma OthersEnd(q: Request, at: Found, e: Met)
    requires !HasSubject(q) || q.Reissue?
    ensures Ends(q, at, e, AnswerOf(q, at, e))
  {
    hide Chain, Ends, Goto, CreateAnswer, TokenAnswer, Listing;
    First(q, at, e);
    match q
    case Register(_, _) => CreateEnds(q, at, e, 0);
    case Enroll(_, _) => CreateEnds(q, at, e, 0);
    case Reissue(id) => TokenEnds(q, at, e, 0, id, "");
    case PluginGetParams =>
      Next(q, at, e, 0, List);
      ListGoes(q, at(0), e(0));
  }

  lemma ListGoes(q: Request, t: Tables, e: Env)
    ensures Goto(q, List, t, e) == End(if e.fail then Fail(500) else Params(Listing(t)))
  {}

  /** Whatever the stores hold at its steps, a call ends in its answer, and gives no other. */
  lemma EveryCallEnds(q: Request, at: Found, e: Met)
    ensures Ends(q, at, e, AnswerOf(q, at, e))
  {
    hide Chain, Ends, Goto, ClaimAnswer, RedeemAnswer, RevokeAnswer, RotateAnswer, RotateOwnAnswer,
         CreateLoginAnswer, RedeemLoginAnswer, AccessAnswer, CreateAnswer, TokenAnswer, Begin;
    match q
    case Claim(id, auth) => ClaimEnds(id, auth, at, e);
    case EnrollRedeem(id, auth) => RedeemEnds(id, auth, at, e);
    case Revoke(id, group) => RevokeEnds(id, group, at, e);
    case RotateSecret(id, group) => RotateEnds(id, group, at, e);
    case RotateOwnSecret(id, auth) => RotateOwnEnds(id, auth, at, e);
    case CreateLoginCode(id, user, group) => CreateLoginEnds(id, user, group, at, e);
    case RedeemLoginCode(id, auth, code) => RedeemLoginEnds(id, auth, code, at, e);
    case CheckAccess(id, auth, user) => AccessEnds(id, auth, user, at, e);
    case _ => OthersEnd(q, at, e);
  }

  // ---------- what each step writes ----------

  /** The tables after a step: at most one entry changes, found by its key, whatever else the tables hold. */
  function Leaves(q: Request, p: Pc, t: Tables, e: Env): Tables
    requires Fits(q, p)
  {
    var id := Subject(q);
    if e.fail then t
    else match p
      case ClaimDrop | DropClaim(_, _) | RevokeClaim => t.(claims := t.claims - {id})
      case CodeDrop | DropCode(_, _) => t.(codes := t.codes - {id})
      case PutSecret(x, _) => t.(secrets := t.secrets[id := x])
      case RevokeSecret => t.(secrets := t.secrets - {id})
      case PutHash(x, _) => Rewritten(t, id, (row: Row) => row.(secretHash := Some(Sha256(x))))
      case RevokeHash => Rewritten(t, id, (row: Row) => row.(secretHash := None))
      case RevokeStatus => Rewritten(t, id, (row: Row) => row.(status := Revoked))
      case PutActive(_, _) => Rewritten(t, id, (row: Row) => row.(status := Active, claimedAt := Some(e.now)))
      case Insert(_) => if !Free(t, e.hostLabel) then t else Listed(t, q.name, e.hostLabel, q.group)
      case SaveClaim(i, raw, x, _) =>
        if i in t.rows then t.(claims := t.claims[i := ClaimRow(Sha256(raw), x)]) else t
      case SaveCode(i, pin, _, raw, x) =>
        if i in t.rows then t.(codes := t.codes[i := CodeRow(Sha256(raw), pin, x)]) else t
      case LoginPrune(cutoff, _, _, _) =>
        t.(logins := map h | h in t.logins && cutoff <= t.logins[h].expiresAt :: t.logins[h])
      case LoginInsert(raw, x, _) =>
        if id !in t.rows || Sha256(raw) in t.logins then t
        else t.(logins := t.logins[Sha256(raw) := LoginRow(id, q.user, x)])
      case Consume(_) => if CodeFor(t, id, q.code) then t.(logins := t.logins - {Sha256(q.code)}) else t
      case _ => t
  }

  function Rewritten(t: Tables, id: int, change: Row -> Row): Tables {
    if id in t.rows then t.(rows := t.rows[id := change(t.rows[id])]) else t
  }

  lemma StepLeaves(q: Request, p: Pc, t: Tables, e: Env)
    requires Fits(q, p)
    ensures After(q, p, t, e) == Leaves(q, p, t, e)
  {
    hide Act, Apply, Leaves, Fits, Rank;
    if Rank(p) < 2 {
      StepLeavesLast(q, p, t, e);
    } else if Rank(p) < 4 {
      StepLeavesLate(q, p, t, e);
    } else {
      StepLeavesEarly(q, p, t, e);
    }
  }

  lemma StepLeavesLast(q: Request, p: Pc, t: Tables, e: Env)
    requires Fits(q, p) && Rank(p) < 2
    ensures After(q, p, t, e) == Leaves(q, p, t, e)
  {}

  lemma StepLeavesLate(q: Request, p: Pc, t: Tables, e: Env)
    requires Fits(q, p) && 2 <= Rank(p) < 4
    ensures After(q, p, t, e) == Leaves(q, p, t, e)
  {}

  lemma StepLeavesEarly(q: Request, p: Pc, t: Tables, e: Env)
    requires Fits(q, p) && 4 <= Rank(p)
    ensures After(q, p, t, e) == Leaves(q, p, t, e)
  {}

  // ---------- in runs ----------

  /** The turns call c has taken by state j, in order. */
  function TurnsBy(es: seq<Event>, c: nat, j: nat): (ps: seq<nat>)
    requires j <= |es|
    ensures forall i :: 0 <= i < |ps| ==> ps[i] < j && es[ps[i]].Turn?
  {
    if j == 0 then []
    else
      var before := TurnsBy(es, c, j - 1);
      if es[j - 1].Turn? && es[j - 1].c == c then before + [j - 1] else before
  }

  lemma {:induction false} TurnsAreAll(es: seq<Event>, c: nat, j: nat)
    requires j <= |es|
    ensures forall i, k :: 0 <= i < k < |TurnsBy(es, c, j)| ==> TurnsBy(es, c, j)[i] < TurnsBy(es, c, j)[k]
    ensures forall p: nat :: p in TurnsBy(es, c, j) <==> p < j && es[p].Turn? && es[p].c == c
  {
    if j > 0 {
      TurnsAreAll(es, c, j - 1);
    }
  }

  /** The tables that call c found at its k-th turn. */
  function FoundBy(ys: seq<System>, es: seq<Event>, c: nat, j: nat): Found
    requires |ys| == |es| + 1 && j < |ys|
  {
    var ps := TurnsBy(es, c, j);
    (k: nat) => if k < |ps| then ys[ps[k]].t else EMPTY_TABLES
  }

  function MetBy(es: seq<Event>, c: nat, j: nat): Met
    requires j <= |es|
  {
    var ps := TurnsBy(es, c, j);
    (k: nat) => if k < |ps| then es[ps[k]].e else Env(true, 0, "", 0, "", (group, user) => Unreachable)
  }

  lemma {:induction false} ChainAgrees(q: Request, at: Found, e: Met, at': Found, e': Met, n: nat)
    requires forall k: nat :: k < n ==> at(k) == at'(k) && e(k) == e'(k)
    ensures Chain(q, at, e, n) == Chain(q, at', e', n)
  {
    hide Goto, Begin;
    if n > 0 {
      ChainAgrees(q, at, e, at', e', n - 1);
    }
  }

  lemma NoTurnsBefore(ys: seq<System>, es: seq<Event>, c: nat, j: nat)
    requires Run(ys, es) && j < |ys| && c !in ys[j].calls
    ensures TurnsBy(es, c, j) == []
    decreases j
  {
    hide Goto, Act, Apply, Record, Begin;
    if j > 0 {
      assert StepAt(ys, es, j - 1);
      CallStep(ys[j - 1], es[j - 1], c);
      NoTurnsBefore(ys, es, c, j - 1);
    }
  }

  lemma {:induction false} ChainInRun(ys: seq<System>, es: seq<Event>, c: nat, j: nat)
    requires Run(ys, es) && j < |ys| && c in ys[j].calls
    ensures ys[j].calls[c].pc
            == Chain(ys[j].calls[c].q, FoundBy(ys, es, c, j), MetBy(es, c, j), |TurnsBy(es, c, j)|)
    decreases j
  {
    hide Goto, Act, Apply, Record, Begin;
    if j > 0 {
      var y, v := ys[j - 1], es[j - 1];
      assert StepAt(ys, es, j - 1);
      CallStep(y, v, c);
      if c in y.calls {
        ChainInRun(ys, es, c, j - 1);
        ChainGrows(ys, es, c, y.calls[c].q, j);
      } else {
        NoTurnsBefore(ys, es, c, j - 1);
      }
    }
  }

  lemma FoundBefore(ys: seq<System>, es: seq<Event>, c: nat, j: nat, k: nat)
    requires |ys| == |es| + 1 && 0 < j < |ys| && k < |TurnsBy(es, c, j - 1)|
    ensures FoundBy(ys, es, c, j)(k) == FoundBy(ys, es, c, j - 1)(k)
    ensures MetBy(es, c, j)(k) == MetBy(es, c, j - 1)(k)
  {}

  lemma FoundLast(ys: seq<System>, es: seq<Event>, c: nat, j: nat)
    requires |ys| == |es| + 1 && 0 < j < |ys| && es[j - 1].Turn? && es[j - 1].c == c
    ensures var n := |TurnsBy(es, c, j - 1)|;
            && |TurnsBy(es, c, j)| == n + 1
            && FoundBy(ys, es, c, j)(n) == ys[j - 1].t && MetBy(es, c, j)(n) == es[j - 1].e
  {}

  lemma ChainGrows(ys: seq<System>, es: seq<Event>, c: nat, q: Request, j: nat)
    requires |ys| == |es| + 1 && 0 < j < |ys|
    ensures var n := |TurnsBy(es, c, j - 1)|;
            var before := Chain(q, FoundBy(ys, es, c, j - 1), MetBy(es, c, j - 1), n);
            Chain(q, FoundBy(ys, es, c, j), MetBy(es, c, j), |TurnsBy(es, c, j)|)
            == if es[j - 1].Turn? && es[j - 1].c == c then Goto(q, before, ys[j - 1].t, es[j - 1].e) else before
  {
    hide Goto, Begin, FoundBy, MetBy;
    var at, e, at', e' := FoundBy(ys, es, c, j - 1), MetBy(es, c, j - 1), FoundBy(ys, es, c, j), MetBy(es, c, j);
    var n := |TurnsBy(es, c, j - 1)|;
    forall k: nat | k < n ensures at(k) == at'(k) && e(k) == e'(k) {
      FoundBefore(ys, es, c, j, k);
    }
    ChainAgrees(q, at, e, at', e', n);
    if es[j - 1].Turn? && es[j - 1].c == c {
      FoundLast(ys, es, c, j);
    }
  }

  /** In every run, whatever interleaves, a call's response is the answer to what it found at its own turns. */
  lemma RespondsExactly(ys: seq<System>, es: seq<Event>, c: nat, j: nat)
    requires Run(ys, es) && j < |ys| && c in ys[j].calls && ys[j].calls[c].pc.End?
    ensures ys[j].calls[c].pc.response
            == AnswerOf(ys[j].calls[c].q, FoundBy(ys, es, c, j), MetBy(es, c, j))
  {
    hide Goto, Act, Apply, Record, Begin, Chain, AnswerOf, Do;
    var q, at, e, n := ys[j].calls[c].q, FoundBy(ys, es, c, j), MetBy(es, c, j), |TurnsBy(es, c, j)|;
    ChainInRun(ys, es, c, j);
    EveryCallEnds(q, at, e);
    if n <= MAX_STEPS {
      ChainStops(q, at, e, n, MAX_STEPS);
    } else {
      ChainStops(q, at, e, MAX_STEPS, n);
    }
  }
}
