/** One call run alone: its steps, and what each kind of step leads to. */
module Solo {
  import opened Wrappers
  import opened Tokens
  import opened Persistence
  import opened Protocol

  const MAX_STEPS: nat := 12

  /** Where a call run alone stands after k steps, the i-th of which took e[i]. */
  function Pos(q: Request, t: Tables, e: seq<Env>, k: nat): (Pc, Tables)
    requires k <= |e|
    decreases k, t
  {
    if k == 0 then (Begin(q), t)
    else
      var at := Pos(q, t, e, k - 1);
      (Goto(q, at.0, at.1, e[k - 1]), After(q, at.0, at.1, e[k - 1]))
  }

  /** The response of a call run alone, and the state it leaves. */
  function Alone(q: Request, t: Tables, e: seq<Env>): (Pc, Tables)
    requires |e| == MAX_STEPS
  {
    Pos(q, t, e, MAX_STEPS)
  }

  lemma Start(q: Request, t: Tables, e: seq<Env>)
    requires |e| == MAX_STEPS
    ensures Pos(q, t, e, 0) == (Begin(q), t)
    ensures Begin(q).End? ==> Alone(q, t, e) == (Begin(q), t)
  {
    hide Goto, Act, Apply, Begin;
    if Begin(q).End? {
      PosStops(q, t, e, 0, MAX_STEPS);
    }
  }

  lemma Stays(q: Request, p: Pc, t: Tables, e: Env)
    requires p.End?
    ensures Goto(q, p, t, e) == p && After(q, p, t, e) == t
  {}

  lemma {:induction false} PosStops(q: Request, t: Tables, e: seq<Env>, k: nat, m: nat)
    requires k <= m <= |e| && Pos(q, t, e, k).0.End?
    ensures Pos(q, t, e, m) == Pos(q, t, e, k)
    decreases m
  {
    hide Goto, After, Begin;
    if k < m {
      PosStops(q, t, e, k, m - 1);
      var at := Pos(q, t, e, m - 1);
      Stays(q, at.0, at.1, e[m - 1]);
    }
  }

  /** The claim token drawn in a step. */
  function TokenDrawn(e: Env): ClaimRow {
    ClaimRow(Sha256(e.nonce), e.now + e.ttl)
  }

  /** The next step of a call run alone, and its outcome if that step is the last. */
  lemma Go(q: Request, t: Tables, e: seq<Env>, k: nat, p: Pc, u: Tables)
    requires k < |e| == MAX_STEPS && Pos(q, t, e, k) == (p, u)
    ensures Pos(q, t, e, k + 1) == (Goto(q, p, u, e[k]), After(q, p, u, e[k]))
    ensures Act(q, p, u, e[k]).Nothing? ==> After(q, p, u, e[k]) == u
    ensures Pos(q, t, e, k + 1).0.End? ==> Alone(q, t, e) == Pos(q, t, e, k + 1)
  {
    hide Goto, Begin;
    if Pos(q, t, e, k + 1).0.End? {
      PosStops(q, t, e, k + 1, MAX_STEPS);
    }
  }

  /** Where an authenticated call goes on. */
  function Admitted(q: Request, row: Row, nonce: string): Pc {
    match q
    case RedeemLoginCode(_, _, _) => Consume(row.group)
    case CheckAccess(_, _, user) => AskMember(user, row.group)
    case _ => PutSecret(ApplianceSecret(Subject(q), nonce), row.hostLabel)
  }

  lemma GoPutSecret(q: Request, t: Tables, e: seq<Env>, k: nat, secret: string, hostLabel: string, u: Tables)
    requires k < |e| == MAX_STEPS && Pos(q, t, e, k) == (PutSecret(secret, hostLabel), u)
    ensures e[k].fail ==> Alone(q, t, e) == (End(Fail(500)), u)
    ensures !e[k].fail ==>
              Pos(q, t, e, k + 1) == (PutHash(secret, hostLabel), u.(secrets := u.secrets[Subject(q) := secret]))
  {
    hide Pos, Alone;
    Go(q, t, e, k, PutSecret(secret, hostLabel), u);
  }

  lemma GoInsert(q: Request, t: Tables, e: seq<Env>, k: nat, u: Tables)
    requires |e| == MAX_STEPS && k < MAX_LABEL_ATTEMPTS && (q.Register? || q.Enroll?)
        && Pos(q, t, e, k) == (Insert(k), u)
    ensures var taken := LabelTaken(u.rows, e[k].hostLabel);
            if !e[k].fail && !taken
            then Pos(q, t, e, k + 1) == (Inserted(u.nextId), Apply(u, AddRow(q.name, e[k].hostLabel, q.group)))
            else if !e[k].fail && k < MAX_LABEL_ATTEMPTS - 1 then Pos(q, t, e, k + 1) == (Insert(k + 1), u)
            else Alone(q, t, e) == (End(Fail(500)), u)
  {
    hide Pos, Alone, Listing, Redeemable, LabelTaken, ApplianceSecret;
    Go(q, t, e, k, Insert(k), u);
  }

  lemma GoPutHash(q: Request, t: Tables, e: seq<Env>, k: nat, secret: string, hostLabel: string, u: Tables)
    requires k < |e| == MAX_STEPS && Subject(q) in u.rows && Pos(q, t, e, k) == (PutHash(secret, hostLabel), u)
    ensures var v := Apply(u, SetHash(Subject(q), Some(Sha256(secret))));
            if e[k].fail then Alone(q, t, e) == (End(Fail(500)), u)
            else if Door(q) then Pos(q, t, e, k + 1) == (PutActive(secret, hostLabel), v)
            else Alone(q, t, e) == (End(Secret(secret, hostLabel)), v)
  {
    hide Pos, Alone, Apply, Door, Subject;
    Go(q, t, e, k, PutHash(secret, hostLabel), u);
  }

  lemma GoPutActive(q: Request, t: Tables, e: seq<Env>, k: nat, secret: string, hostLabel: string, u: Tables)
    requires k < |e| == MAX_STEPS && Pos(q, t, e, k) == (PutActive(secret, hostLabel), u)
    ensures if e[k].fail || !Markable(u.rows, Subject(q), e[k].now) then Alone(q, t, e) == (End(Fail(500)), u)
            else Pos(q, t, e, k + 1) == (DropClaim(secret, hostLabel), Apply(u, Activate(Subject(q), e[k].now)))
  {
    hide Pos, Alone, Markable, Subject;
    Go(q, t, e, k, PutActive(secret, hostLabel), u);
  }

  lemma GoLoadPending(q: Request, t: Tables, e: seq<Env>, k: nat, u: Tables)
    requires k < |e| == MAX_STEPS && Pos(q, t, e, k) == (LoadPending, u)
    ensures var id := Subject(q);
            if e[k].fail then Alone(q, t, e) == (End(Fail(500)), u)
            else if id !in u.rows then Alone(q, t, e) == (End(Fail(404)), u)
            else if u.rows[id].status != Pending then Alone(q, t, e) == (End(Fail(409)), u)
            else Pos(q, t, e, k + 1) == (PutSecret(ApplianceSecret(id, e[k].nonce), u.rows[id].hostLabel), u)
  {
    hide Pos, Alone, Subject, ApplianceSecret;
    Go(q, t, e, k, LoadPending, u);
  }

  lemma GoInserted(q: Request, t: Tables, e: seq<Env>, k: nat, id: int, u: Tables)
    requires k < |e| == MAX_STEPS && Pos(q, t, e, k) == (Inserted(id), u)
    ensures if e[k].fail || id !in u.rows then Alone(q, t, e) == (End(Fail(500)), u)
            else Pos(q, t, e, k + 1) == (IssueNow(id, u.rows[id].hostLabel), u)
  {
    hide Pos, Alone, Subject;
    Go(q, t, e, k, Inserted(id), u);
  }

  lemma GoSaveClaim(q: Request, t: Tables, e: seq<Env>, k: nat, id: int, raw: string, x: int, l: string, u: Tables)
    requires k < |e| == MAX_STEPS && Pos(q, t, e, k) == (SaveClaim(id, raw, x, l), u)
    ensures var v := Apply(u, SetClaim(id, ClaimRow(Sha256(raw), x)));
            if e[k].fail || id !in u.rows then Alone(q, t, e) == (End(Fail(500)), u)
            else if q.Enroll? then Pos(q, t, e, k + 1) == (CodeNow(id, Sha256(raw), x), v)
            else Alone(q, t, e) == (End(Registered(id, l, raw, x)), v)
  {
    hide Pos, Alone, Apply, Subject;
    Go(q, t, e, k, SaveClaim(id, raw, x, l), u);
  }

  /** Drawing a claim token, then storing it. */
  lemma GoIssue(q: Request, t: Tables, e: seq<Env>, k: nat, id: int, l: string, u: Tables)
    requires |e| == MAX_STEPS && k + 2 <= MAX_STEPS && (q.Register? || q.Enroll?)
        && Pos(q, t, e, k) == (IssueNow(id, l), u)
    ensures var c := TokenDrawn(e[k]);
            var v := Apply(u, SetClaim(id, c));
            if e[k + 1].fail || id !in u.rows then Alone(q, t, e) == (End(Fail(500)), u)
            else if q.Enroll? then Pos(q, t, e, k + 2) == (CodeNow(id, c.tokenHash, c.expiresAt), v)
            else Alone(q, t, e) == (End(Registered(id, l, e[k].nonce, c.expiresAt)), v)
  {
    hide Pos, Alone, Apply, Subject;
    Go(q, t, e, k, IssueNow(id, l), u);
    GoSaveClaim(q, t, e, k + 1, id, e[k].nonce, e[k].now + e[k].ttl, l, u);
  }

  /** Drawing an exchange code, then storing it. */
  lemma GoIssueCode(q: Request, t: Tables, e: seq<Env>, k: nat, id: int, pin: Hash, until: int, u: Tables)
    requires |e| == MAX_STEPS && k + 2 <= MAX_STEPS && Pos(q, t, e, k) == (CodeNow(id, pin, until), u)
    ensures var x := e[k].now + e[k].ttl;
            if e[k + 1].fail || id !in u.rows then Alone(q, t, e) == (End(Fail(500)), u)
            else Alone(q, t, e) ==
                 (End(Enrolled(id, e[k].nonce, x)), Apply(u, SetCode(id, CodeRow(Sha256(e[k].nonce), pin, x))))
  {
    hide Pos, Alone, Apply, Subject;
    Go(q, t, e, k, CodeNow(id, pin, until), u);
    Go(q, t, e, k + 1, SaveCode(id, pin, until, e[k].nonce, e[k].now + e[k].ttl), u);
  }

  /** Reading the clock for the cutoff, then pruning by it. */
  lemma GoPrune(q: Request, t: Tables, e: seq<Env>, raw: string, x: int, l: string, u: Tables)
    requires |e| == MAX_STEPS && Pos(q, t, e, 2) == (LoginCutoff(raw, x, l), u)
    ensures if e[3].fail then Alone(q, t, e) == (End(Fail(500)), u)
            else Pos(q, t, e, 4) == (LoginInsert(raw, x, l), Apply(u, PruneLogins(e[2].now)))
  {
    hide Pos, Alone, Apply, Subject;
    Go(q, t, e, 2, LoginCutoff(raw, x, l), u);
    Go(q, t, e, 3, LoginPrune(e[2].now, raw, x, l), u);
  }

  lemma GoLoginInsert(q: Request, t: Tables, e: seq<Env>, raw: string, x: int, l: string, u: Tables)
    requires |e| == MAX_STEPS && q.CreateLoginCode? && Pos(q, t, e, 4) == (LoginInsert(raw, x, l), u)
    ensures if e[4].fail || q.id !in u.rows || Sha256(raw) in u.logins then Alone(q, t, e) == (End(Fail(500)), u)
            else Alone(q, t, e) == (End(LoginCode(raw, x, l)),
              Apply(u, AddLogin(Sha256(raw), LoginRow(q.id, q.user, x))))
  {
    hide Pos, Alone, Apply;
    Go(q, t, e, 4, LoginInsert(raw, x, l), u);
  }

  lemma GoConsume(q: Request, t: Tables, e: seq<Env>, g: int, u: Tables)
    requires |e| == MAX_STEPS && Pos(q, t, e, 2) == (Consume(g), u)
    ensures if e[2].fail then Alone(q, t, e) == (End(Fail(500)), u)
            else if !Redeemable(q, u) then Alone(q, t, e) == (End(Fail(401)), u)
            else Pos(q, t, e, 3) == (ConsumeCheck(u.logins[Sha256(q.code)], g), Apply(u, TakeLogin(Sha256(q.code))))
  {
    hide Pos, Alone, Apply, Subject;
    Go(q, t, e, 2, Consume(g), u);
  }

  lemma GoIdentity(q: Request, t: Tables, e: seq<Env>, login: LoginRow, g: int, u: Tables)
    requires |e| == MAX_STEPS && q.RedeemLoginCode? && Pos(q, t, e, 3) == (ConsumeCheck(login, g), u)
    ensures var a := e[4].registry(g, login.user);
            Alone(q, t, e) ==
            (End(if e[3].now > login.expiresAt then Fail(401)
                 else if a.Unreachable? then Fail(502)
                 else if !a.isMember || a.user.None? then Fail(403)
                 else Identity(a.user.value)), u)
  {
    hide Pos, Alone;
    Go(q, t, e, 3, ConsumeCheck(login, g), u);
    if e[3].now <= login.expiresAt {
      Go(q, t, e, 4, AskMember(login.user, g), u);
    }
  }

  lemma GoAuthHash(q: Request, t: Tables, e: seq<Env>, secret: string, u: Tables)
    requires |e| == MAX_STEPS && Pos(q, t, e, 0) == (AuthHash(secret), u)
    ensures if e[0].fail then Alone(q, t, e) == (End(Fail(500)), u)
            else if Subject(q) !in u.rows || u.rows[Subject(q)].secretHash != Some(Sha256(secret))
            then Alone(q, t, e) == (End(Fail(401)), u)
            else Pos(q, t, e, 1) == (AuthLoad(secret), u)
  {
    hide Pos, Alone, Subject;
    Go(q, t, e, 0, AuthHash(secret), u);
  }

  lemma GoRevokeSecret(q: Request, t: Tables, e: seq<Env>, u: Tables)
    requires |e| == MAX_STEPS && Pos(q, t, e, 2) == (RevokeSecret, u)
    ensures e[2].fail ==> Alone(q, t, e) == (End(Fail(500)), u)
    ensures !e[2].fail ==> Pos(q, t, e, 3) == (RevokeHash, u.(secrets := u.secrets - {Subject(q)}))
  {
    hide Pos, Alone;
    Go(q, t, e, 2, RevokeSecret, u);
  }

  lemma GoAuthLoad(q: Request, t: Tables, e: seq<Env>, secret: string, u: Tables)
    requires |e| == MAX_STEPS && (q.RotateOwnSecret? || q.RedeemLoginCode? || q.CheckAccess?)
    requires Pos(q, t, e, 1) == (AuthLoad(secret), u)
    ensures e[1].fail ==> Alone(q, t, e) == (End(Fail(500)), u)
    ensures !e[1].fail && (q.id !in u.rows || u.rows[q.id].status != Active) ==> Alone(q, t, e) == (End(Fail(401)), u)
    ensures !e[1].fail && q.id in u.rows && u.rows[q.id].status == Active ==>
              Pos(q, t, e, 2) == (Admitted(q, u.rows[q.id], e[1].nonce), u)
  {
    hide Pos, Alone;
    Go(q, t, e, 1, AuthLoad(secret), u);
  }

  lemma RankFromBegin(q: Request)
    ensures Rank(Begin(q)) <= MAX_STEPS
  {}

  lemma {:induction false} PosRank(q: Request, t: Tables, e: seq<Env>, k: nat)
    requires k <= |e| == MAX_STEPS
    ensures Rank(Pos(q, t, e, k).0) <= MAX_STEPS - k
  {
    hide Goto, After, Rank;
    if k == 0 {
      RankFromBegin(q);
    } else {
      PosRank(q, t, e, k - 1);
      var at := Pos(q, t, e, k - 1);
      if at.0.End? {
        Stays(q, at.0, at.1, e[k - 1]);
        RankOfEnd(at.0);
      } else {
        StepsDown(q, at.0, at.1, e[k - 1]);
      }
    }
  }

  lemma RankOfEnd(p: Pc)
    ensures Rank(p) == 0 <==> p.End?
  {}

  /** Whatever faults it meets, a call run alone responds within MAX_STEPS steps. */
  lemma AloneResponds(q: Request, t: Tables, e: seq<Env>)
    requires |e| == MAX_STEPS
    ensures Alone(q, t, e).0.End?
  {
    hide Goto, After, Begin, Rank, Pos;
    PosRank(q, t, e, MAX_STEPS);
    RankOfEnd(Pos(q, t, e, MAX_STEPS).0);
  }
}
