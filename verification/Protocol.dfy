/** internal/appliancewebapp: every handler as a program of single store calls and clock readings. */
module Protocol {
  import opened Wrappers
  import opened Tokens
  import opened Persistence

  const MAX_LABEL_ATTEMPTS: nat := 5

  /** A request. A verified use token appears as the user and group it carries. */
  datatype Request =
    | Claim(id: int, auth: string)
    | EnrollRedeem(id: int, auth: string)
    | Revoke(id: int, group: int)
    | RotateSecret(id: int, group: int)
    | RotateOwnSecret(id: int, auth: string)
    | CreateLoginCode(id: int, user: int, group: int)
    | RedeemLoginCode(id: int, auth: string, code: string)
    | CheckAccess(id: int, auth: string, user: int)
    | Register(name: string, group: int)
    | Enroll(name: string, group: int)
    | Reissue(id: int)  // SaveClaimToken for an existing appliance: promised, not called by any handler
    | PluginGetParams

  datatype Param = Param(id: int, hostLabel: string, name: string)

  datatype Response =
    | Fail(http: int)
    | Done
    | Secret(secret: string, hostLabel: string)
    | LoginCode(code: string, expiresAt: int, hostLabel: string)
    | Identity(person: int)
    | Allowed(allowed: bool)
    | Registered(id: int, hostLabel: string, token: string, expiresAt: int)
    | Enrolled(id: int, code: string, expiresAt: int)
    | Params(params: seq<Param>)

  /** cloud-user-registry's answer to "is this user a member of this group". */
  datatype Access = Unreachable | Answer(isMember: bool, user: Option<int>)

  /** The user registry as it stands at some instant: its answer for a group and a user. */
  type UserRegistry = (int, int) -> Access

  /** Everything a step takes from outside: a fault, the clock, fresh random bytes, a configured
      lifetime, a generated host label and the user registry. */
  datatype Env = Env(fail: bool, now: int, nonce: string, ttl: int, hostLabel: string, registry: UserRegistry)

  /** The next store call, clock reading or registry call, with the handler's local variables. */
  datatype Pc =
    // Claim and EnrollRedeem
    | ClaimRead(raw: string)
    | ClaimCheck(raw: string, claim: ClaimRow)
    | ClaimDrop
    | CodeRead(raw: string)
    | CodeCheck(raw: string, code: CodeRow)
    | CodeDrop
    | CodePin(pin: Hash)
    | LoadPending
    // publishing a secret; the last three only for Claim and EnrollRedeem
    | PutSecret(secret: string, hostLabel: string)
    | PutHash(secret: string, hostLabel: string)
    | PutActive(secret: string, hostLabel: string)
    | DropClaim(secret: string, hostLabel: string)
    | DropCode(secret: string, hostLabel: string)
    // Revoke
    | RevokeLoad
    | RevokeStatus
    | RevokeSecret
    | RevokeHash
    | RevokeClaim
    // RotateSecret
    | RotateLoad
    // authenticateAppliance
    | AuthHash(secret: string)
    | AuthLoad(secret: string)
    // CreateLoginCode
    | LoginLoad
    | LoginNow(hostLabel: string)
    | LoginCutoff(raw: string, expiresAt: int, hostLabel: string)
    | LoginPrune(cutoff: int, raw: string, expiresAt: int, hostLabel: string)
    | LoginInsert(raw: string, expiresAt: int, hostLabel: string)
    // RedeemLoginCode and CheckAccess
    | Consume(group: int)
    | ConsumeCheck(login: LoginRow, group: int)
    | AskMember(user: int, group: int)
    // Register, Enroll and Reissue
    | Insert(attempt: nat)
    | Inserted(id: int)
    | IssueNow(id: int, hostLabel: string)
    | SaveClaim(id: int, raw: string, expiresAt: int, hostLabel: string)
    | CodeNow(id: int, pin: Hash, until: int)
    | SaveCode(id: int, pin: Hash, until: int, raw: string, expiresAt: int)
    // PluginGetParams
    | List
    | End(response: Response)

  predicate HasSubject(q: Request) {
    !q.Register? && !q.Enroll? && !q.PluginGetParams?
  }

  /** The appliance named in the request's path. */
  function Subject(q: Request): int {
    if HasSubject(q) then q.id else 0
  }

  /** The two doors from pending to active. */
  predicate Door(q: Request) {
    q.Claim? || q.EnrollRedeem?
  }

  /** The calls that change an existing appliance's credentials or status. */
  predicate Writer(q: Request) {
    Door(q) || q.Revoke? || q.RotateSecret? || q.RotateOwnSecret?
  }

  function Bearing(auth: string, next: string -> Pc): Pc {
    match BearerToken(auth)
    case None => End(Fail(401))
    case Some(t) => next(t)
  }

  /** What happens before the first store call. */
  function Begin(q: Request): Pc {
    match q
    case Claim(_, auth) => Bearing(auth, t => ClaimRead(t))
    case EnrollRedeem(_, auth) => Bearing(auth, t => CodeRead(t))
    case Revoke(_, _) => RevokeLoad
    case RotateSecret(_, _) => RotateLoad
    case RotateOwnSecret(_, auth) => Bearing(auth, t => AuthHash(t))
    case CreateLoginCode(_, _, _) => LoginLoad
    case RedeemLoginCode(_, auth, _) => Bearing(auth, t => AuthHash(t))
    case CheckAccess(_, auth, _) => Bearing(auth, t => AuthHash(t))
    case Register(_, _) => Insert(0)
    case Enroll(_, _) => Insert(0)
    case Reissue(id) => IssueNow(id, "")
    case PluginGetParams => List
  }

  function Listing(t: Tables): seq<Param> {
    var ids := WithStatus(t.rows, Active, if t.nextId < 0 then 0 else t.nextId);
    seq(|ids|, i requires 0 <= i < |ids| =>
      assert ids[i] in ids; Param(ids[i], t.rows[ids[i]].hostLabel, t.rows[ids[i]].name))
  }

  /** Control: where the call stands after its next step. */
  function Goto(q: Request, p: Pc, t: Tables, e: Env): Pc {
    var id := Subject(q);
    match p
    case ClaimRead(raw) =>
      if e.fail then End(Fail(500))
      else if id !in t.claims then End(Fail(401))
      else ClaimCheck(raw, t.claims[id])
    case ClaimCheck(raw, claim) =>
      if e.now > claim.expiresAt then ClaimDrop
      else if Sha256(raw) != claim.tokenHash then End(Fail(401))
      else LoadPending
    case ClaimDrop => End(Fail(401))
    case CodeRead(raw) =>
      if e.fail then End(Fail(500))
      else if id !in t.codes then End(Fail(401))
      else CodeCheck(raw, t.codes[id])
    case CodeCheck(raw, code) =>
      if e.now > code.expiresAt then CodeDrop
      else if Sha256(raw) != code.codeHash then End(Fail(401))
      else CodePin(code.pin)
    case CodeDrop => End(Fail(401))
    case CodePin(pin) =>
      if e.fail then End(Fail(500))
      else if id !in t.claims || t.claims[id].tokenHash != pin then End(Fail(401))
      else LoadPending
    case LoadPending =>
      if e.fail then End(Fail(500))
      else if id !in t.rows then End(Fail(404))
      else if t.rows[id].status != Pending then End(Fail(409))
      else PutSecret(ApplianceSecret(id, e.nonce), t.rows[id].hostLabel)
    case PutSecret(x, l) => if e.fail then End(Fail(500)) else PutHash(x, l)
    case PutHash(x, l) =>
      if e.fail || id !in t.rows then End(Fail(500))
      else if Door(q) then PutActive(x, l)
      else End(Secret(x, l))
    case PutActive(x, l) => if e.fail || !Markable(t.rows, id, e.now) then End(Fail(500)) else DropClaim(x, l)
    case DropClaim(x, l) => if q.EnrollRedeem? then DropCode(x, l) else End(Secret(x, l))
    case DropCode(x, l) => End(Secret(x, l))
    case RevokeLoad =>
      if e.fail then End(Fail(500))
      else if id !in t.rows || !q.Revoke? || t.rows[id].group != q.group then End(Fail(404))
      else RevokeStatus
    case RevokeStatus => if e.fail || !Settable(t.rows, id, Revoked) then End(Fail(500)) else RevokeSecret
    case RevokeSecret => if e.fail then End(Fail(500)) else RevokeHash
    case RevokeHash => if e.fail || id !in t.rows then End(Fail(500)) else RevokeClaim
    case RevokeClaim => End(Done)
    case RotateLoad =>
      if e.fail then End(Fail(500))
      else if id !in t.rows || !q.RotateSecret? || t.rows[id].group != q.group then End(Fail(404))
      else if t.rows[id].status != Active then End(Fail(409))
      else PutSecret(ApplianceSecret(id, e.nonce), t.rows[id].hostLabel)
    case AuthHash(x) =>
      if e.fail then End(Fail(500))
      else if id !in t.rows || t.rows[id].secretHash != Some(Sha256(x)) then End(Fail(401))
      else AuthLoad(x)
    case AuthLoad(x) =>
      if e.fail then End(Fail(500))
      else if id !in t.rows || t.rows[id].status != Active then End(Fail(401))
      else if q.RedeemLoginCode? then Consume(t.rows[id].group)
      else if q.CheckAccess? then AskMember(q.user, t.rows[id].group)
      else PutSecret(ApplianceSecret(id, e.nonce), t.rows[id].hostLabel)
    case LoginLoad =>
      if e.fail then End(Fail(500))
      else if id !in t.rows || !q.CreateLoginCode? || t.rows[id].group != q.group then End(Fail(404))
      else if t.rows[id].status != Active then End(Fail(409))
      else LoginNow(t.rows[id].hostLabel)
    case LoginNow(l) => LoginCutoff(e.nonce, e.now + e.ttl, l)
    case LoginCutoff(raw, x, l) => LoginPrune(e.now, raw, x, l)
    case LoginPrune(_, raw, x, l) => if e.fail then End(Fail(500)) else LoginInsert(raw, x, l)
    case LoginInsert(raw, x, l) =>
      if e.fail || id !in t.rows || Sha256(raw) in t.logins then End(Fail(500)) else End(LoginCode(raw, x, l))
    case Consume(g) =>
      if e.fail then End(Fail(500))
      else if !Redeemable(q, t) then End(Fail(401))
      else ConsumeCheck(t.logins[Sha256(q.code)], g)
    case ConsumeCheck(login, g) =>
      if e.now > login.expiresAt then End(Fail(401)) else AskMember(login.user, g)
    case AskMember(user, group) =>
      var access := e.registry(group, user);
      if access.Unreachable? then End(Fail(502))
      else if q.CheckAccess? then End(Allowed(access.isMember))
      else if !access.isMember || access.user.None? then End(Fail(403))
      else End(Identity(access.user.value))
    case Insert(attempt) =>
      if e.fail then End(Fail(500))
      else if !LabelTaken(t.rows, e.hostLabel) then Inserted(t.nextId)
      else if attempt < MAX_LABEL_ATTEMPTS - 1 then Insert(attempt + 1)
      else End(Fail(500))
    case Inserted(i) => if e.fail || i !in t.rows then End(Fail(500)) else IssueNow(i, t.rows[i].hostLabel)
    case IssueNow(i, l) => SaveClaim(i, e.nonce, e.now + e.ttl, l)
    case SaveClaim(i, raw, x, l) =>
      if e.fail || i !in t.rows then End(Fail(500))
      else if q.Enroll? then CodeNow(i, Sha256(raw), x)
      else End(Registered(i, l, raw, x))
    case CodeNow(i, pin, until) => SaveCode(i, pin, until, e.nonce, e.now + e.ttl)
    case SaveCode(i, _, _, raw, x) => if e.fail || i !in t.rows then End(Fail(500)) else End(Enrolled(i, raw, x))
    case List => if e.fail then End(Fail(500)) else End(Params(Listing(t)))
    case End(_) => p
  }

  /** Whether ConsumeLoginCode finds the code for this appliance. */
  predicate Redeemable(q: Request, t: Tables) {
    && q.RedeemLoginCode?
    && Sha256(q.code) in t.logins
    && t.logins[Sha256(q.code)].appliance == q.id
  }

  /** Effect: what the same step does to the stores. A failing call has none. */
  function Act(q: Request, p: Pc, t: Tables, e: Env): Effect {
    var id := Subject(q);
    if e.fail then Nothing else
    match p
    case ClaimDrop => DelClaim(id)
    case CodeDrop => DelCode(id)
    case PutSecret(x, _) => SetSecret(id, x)
    case PutHash(x, _) => if id in t.rows then SetHash(id, Some(Sha256(x))) else Nothing
    case PutActive(_, _) => if Markable(t.rows, id, e.now) then Activate(id, e.now) else Nothing
    case DropClaim(_, _) => DelClaim(id)
    case DropCode(_, _) => DelCode(id)
    case RevokeStatus => if Settable(t.rows, id, Revoked) then SetStatus(id, Revoked) else Nothing
    case RevokeSecret => DelSecret(id)
    case RevokeHash => if id in t.rows then SetHash(id, None) else Nothing
    case RevokeClaim => DelClaim(id)
    case LoginPrune(cutoff, _, _, _) => PruneLogins(cutoff)
    case LoginInsert(raw, x, _) =>
      if q.CreateLoginCode? && id in t.rows && Sha256(raw) !in t.logins
      then AddLogin(Sha256(raw), LoginRow(id, q.user, x)) else Nothing
    case Consume(_) => if Redeemable(q, t) then TakeLogin(Sha256(q.code)) else Nothing
    case Insert(_) =>
      if (q.Register? || q.Enroll?) && !LabelTaken(t.rows, e.hostLabel)
      then AddRow(q.name, e.hostLabel, q.group) else Nothing
    case SaveClaim(i, raw, x, _) => if i in t.rows then SetClaim(i, ClaimRow(Sha256(raw), x)) else Nothing
    case SaveCode(i, pin, _, raw, x) => if i in t.rows then SetCode(i, CodeRow(Sha256(raw), pin, x)) else Nothing
    case _ => Nothing
  }

  function After(q: Request, p: Pc, t: Tables, e: Env): Tables {
    Apply(t, Act(q, p, t, e))
  }

  /** The program points a handler can stand at. */
  predicate Fits(q: Request, p: Pc) {
    match p
    case ClaimRead(_) | ClaimCheck(_, _) | ClaimDrop => q.Claim?
    case CodeRead(_) | CodeCheck(_, _) | CodeDrop | CodePin(_) | DropCode(_, _) => q.EnrollRedeem?
    case LoadPending | PutActive(_, _) | DropClaim(_, _) => Door(q)
    case PutSecret(_, _) | PutHash(_, _) => Door(q) || q.RotateSecret? || q.RotateOwnSecret?
    case RevokeLoad | RevokeStatus | RevokeSecret | RevokeHash | RevokeClaim => q.Revoke?
    case RotateLoad => q.RotateSecret?
    case AuthHash(_) | AuthLoad(_) => q.RotateOwnSecret? || q.RedeemLoginCode? || q.CheckAccess?
    case LoginLoad | LoginNow(_) | LoginCutoff(_, _, _) | LoginPrune(_, _, _, _) | LoginInsert(_, _, _) =>
      q.CreateLoginCode?
    case Consume(_) | ConsumeCheck(_, _) => q.RedeemLoginCode?
    case AskMember(_, _) => q.RedeemLoginCode? || q.CheckAccess?
    case Insert(_) | Inserted(_) => q.Register? || q.Enroll?
    case IssueNow(_, _) | SaveClaim(_, _, _, _) => q.Register? || q.Enroll? || q.Reissue?
    case CodeNow(_, _, _) | SaveCode(_, _, _, _, _) => q.Enroll?
    case List => q.PluginGetParams?
    case End(_) => true
  }

  lemma FitsFromBegin(q: Request)
    ensures Fits(q, Begin(q))
  {}

  lemma FitsStays(q: Request, p: Pc, t: Tables, e: Env)
    requires Fits(q, p)
    ensures Fits(q, Goto(q, p, t, e))
  {
    hide Goto, Fits, Rank;
    if Rank(p) < 2 {
      FitsStaysLast(q, p, t, e);
    } else if Rank(p) < 4 {
      FitsStaysLate(q, p, t, e);
    } else if Rank(p) < 6 {
      FitsStaysMidway(q, p, t, e);
    } else if Rank(p) < 8 {
      FitsStaysEarly(q, p, t, e);
    } else {
      FitsStaysFirst(q, p, t, e);
    }
  }

  lemma FitsStaysLast(q: Request, p: Pc, t: Tables, e: Env)
    requires Fits(q, p) && Rank(p) < 2
    ensures Fits(q, Goto(q, p, t, e))
  {
    hide Listing, Redeemable, LabelTaken, Markable, Settable, ApplianceSecret;
  }

  lemma FitsStaysLate(q: Request, p: Pc, t: Tables, e: Env)
    requires Fits(q, p) && 2 <= Rank(p) < 4
    ensures Fits(q, Goto(q, p, t, e))
  {
    hide Listing, Redeemable, LabelTaken, Markable, Settable, ApplianceSecret;
  }

  lemma FitsStaysMidway(q: Request, p: Pc, t: Tables, e: Env)
    requires Fits(q, p) && 4 <= Rank(p) < 6
    ensures Fits(q, Goto(q, p, t, e))
  {
    hide Listing, Redeemable, LabelTaken, Markable, Settable, ApplianceSecret;
  }

  lemma FitsStaysEarly(q: Request, p: Pc, t: Tables, e: Env)
    requires Fits(q, p) && 6 <= Rank(p) < 8
    ensures Fits(q, Goto(q, p, t, e))
  {
    hide Listing, Redeemable, LabelTaken, Markable, Settable, ApplianceSecret;
  }

  lemma FitsStaysFirst(q: Request, p: Pc, t: Tables, e: Env)
    requires Fits(q, p) && Rank(p) >= 8
    ensures Fits(q, Goto(q, p, t, e))
  {
    hide Listing, Redeemable, LabelTaken, Markable, Settable, ApplianceSecret;
  }

  /** A bound on the steps still to come: every handler finishes. */
  function Rank(p: Pc): nat {
    match p
    case End(_) => 0
    case DropCode(_, _) | RevokeClaim | ClaimDrop | CodeDrop | SaveCode(_, _, _, _, _) | LoginInsert(_, _, _)
      | AskMember(_, _) | List => 1
    case DropClaim(_, _) | RevokeHash | CodeNow(_, _, _) | LoginPrune(_, _, _, _) | ConsumeCheck(_, _) => 2
    case PutActive(_, _) | RevokeSecret | SaveClaim(_, _, _, _) | LoginCutoff(_, _, _) | Consume(_) => 3
    case PutHash(_, _) | RevokeStatus | IssueNow(_, _) | LoginNow(_) => 4
    case PutSecret(_, _) | RevokeLoad | Inserted(_) | LoginLoad => 5
    case LoadPending | RotateLoad | AuthLoad(_) => 6
    case ClaimCheck(_, _) | CodePin(_) | AuthHash(_) => 7
    case ClaimRead(_) | CodeCheck(_, _) => 8
    case CodeRead(_) => 9
    case Insert(attempt) => 6 + if attempt < MAX_LABEL_ATTEMPTS then MAX_LABEL_ATTEMPTS - attempt else 0
  }

  lemma StepsDown(q: Request, p: Pc, t: Tables, e: Env)
    requires !p.End?
    ensures Rank(Goto(q, p, t, e)) < Rank(p)
  {
    hide Goto, Rank;
    if Rank(p) < 2 {
      StepsDownLast(q, p, t, e);
    } else if Rank(p) < 4 {
      StepsDownLate(q, p, t, e);
    } else if Rank(p) < 6 {
      StepsDownMidway(q, p, t, e);
    } else {
      StepsDownEarly(q, p, t, e);
    }
  }

  lemma StepsDownLast(q: Request, p: Pc, t: Tables, e: Env)
    requires !p.End? && Rank(p) < 2
    ensures Rank(Goto(q, p, t, e)) < Rank(p)
  {
    hide Listing, Redeemable, LabelTaken, Markable, Settable, ApplianceSecret, Door, HasSubject;
  }

  lemma StepsDownLate(q: Request, p: Pc, t: Tables, e: Env)
    requires 2 <= Rank(p) < 4
    ensures Rank(Goto(q, p, t, e)) < Rank(p)
  {
    hide Listing, Redeemable, LabelTaken, Markable, Settable, ApplianceSecret, Door, HasSubject;
  }

  lemma StepsDownMidway(q: Request, p: Pc, t: Tables, e: Env)
    requires 4 <= Rank(p) < 6
    ensures Rank(Goto(q, p, t, e)) < Rank(p)
  {
    hide Listing, Redeemable, LabelTaken, Markable, Settable, ApplianceSecret, Door, HasSubject;
  }

  lemma StepsDownEarly(q: Request, p: Pc, t: Tables, e: Env)
    requires Rank(p) >= 6
    ensures Rank(Goto(q, p, t, e)) < Rank(p)
  {
    hide Listing, Redeemable, LabelTaken, Markable, Settable, ApplianceSecret, Door, HasSubject;
  }
}
