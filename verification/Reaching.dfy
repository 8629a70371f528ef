/** Building concrete runs one event at a time, the keeper alongside. */
module Reaching {
  import opened Wrappers
  import opened Tokens
  import opened Persistence
  import opened Protocol
  import opened Runs
  import opened Expiry
  import opened Divergence

  /** Some ordinary run reaches these tables, calls and clock, having drawn no value longer than longest, and
      leaves the keeper in state n. */
  ghost predicate Reaches(t: Tables, calls: map<nat, Call>, clock: int, longest: nat, n: Keeper) {
    exists ys, es :: ReachesBy(ys, es, t, calls, clock, longest, n)
  }

  ghost predicate ReachesBy(ys: seq<System>, es: seq<Event>, t: Tables, calls: map<nat, Call>, clock: int, longest: nat,
                            n: Keeper)
  {
    && Ordinary(ys, es)
    && ys[|es|].t == t && ys[|es|].calls == calls && ys[|es|].clock == clock
    && DrawnUpTo(ys[|es|].h, longest)
    && KeepAt(ys, es, |es|) == n
  }

  ghost predicate DrawnUpTo(h: History, longest: nat) {
    forall s :: s in h.drawn ==> |s| <= longest
  }

  lemma {:induction false} KeepAtPrefix(ys: seq<System>, es: seq<Event>, z: System, v: Event, j: nat)
    requires |ys| == |es| + 1 && j < |ys|
    ensures KeepAt(ys + [z], es + [v], j) == KeepAt(ys, es, j)
    decreases j
  {
    if j > 0 {
      KeepAtPrefix(ys, es, z, v, j - 1);
    }
  }

  lemma RunExtends(ys: seq<System>, es: seq<Event>, v: Event)
    requires Ordinary(ys, es) && Can(ys[|es|], v) && (v.Open? ==> !v.q.Reissue?) && PinsOutlive(Do(ys[|es|], v))
    ensures Ordinary(ys + [Do(ys[|es|], v)], es + [v])
  {
    hide Do, PinsOutlive;
    var zs, vs := ys + [Do(ys[|es|], v)], es + [v];
    forall i | 0 <= i < |vs| ensures StepAt(zs, vs, i) {
      if i < |es| {
        assert StepAt(ys, es, i);
      }
    }
  }

  lemma ReachNext(t: Tables, calls: map<nat, Call>, clock: int, longest: nat, n: Keeper, ys: seq<System>,
      es: seq<Event>, v: Event, further: nat)
    requires ReachesBy(ys, es, t, calls, clock, longest, n)
    requires Can(ys[|es|], v) && (v.Open? ==> !v.q.Reissue?) && PinsOutlive(Do(ys[|es|], v))
    requires DrawnUpTo(Do(ys[|es|], v).h, further)
    ensures var z := Do(ys[|es|], v); Reaches(z.t, z.calls, z.clock, further, KeepDo(n, v, Finished(z, v.c)))
  {
    hide Do, KeepDo, PinsOutlive, DrawnUpTo, Can;
    var z := Do(ys[|es|], v);
    RunExtends(ys, es, v);
    KeepAtPrefix(ys, es, z, v, |es|);
    assert ReachesBy(ys + [z], es + [v], z.t, z.calls, z.clock, further, KeepDo(n, v, Finished(z, v.c)));
  }

  lemma ReachInit()
    ensures Reaches(EMPTY_TABLES, map[], 0, 0, Keeper(EMPTY_TABLES, map[]))
  {
    assert ReachesBy([INIT], [], EMPTY_TABLES, map[], 0, 0, Keeper(EMPTY_TABLES, map[]));
  }

  lemma ReachOpen(t: Tables, calls: map<nat, Call>, clock: int, longest: nat, n: Keeper, c: nat, q: Request)
    requires Reaches(t, calls, clock, longest, n) && c !in calls && !q.Reissue?
    requires forall d :: d in calls ==> !calls[d].pc.SaveCode?
    ensures Reaches(t, calls[c := Call(q, Begin(q))], clock, longest, n.(calls := n.calls[c := Call(q, Begin(q))]))
  {
    var ys, es :| ReachesBy(ys, es, t, calls, clock, longest, n);
    BeginSavesNoCode(q);
    ReachNext(t, calls, clock, longest, n, ys, es, Open(c, q), longest);
  }

  lemma BeginSavesNoCode(q: Request)
    ensures !Begin(q).SaveCode?
  {}

  /** The longest-th random value of the run. */
  function Drawn(longest: nat): string {
    seq(longest, _ => 'a')
  }

  /** A step without a fault, at time now, that may draw a value longer than any before. */
  function Step(now: int, longest: nat): Env {
    Env(false, now, Drawn(longest), 10, "", (group, user) => Unreachable)
  }

  lemma ReachTurn(t: Tables, calls: map<nat, Call>, clock: int, longest: nat, n: Keeper, c: nat, now: int)
    requires Reaches(t, calls, clock, longest, n) && c in calls && !calls[c].pc.End? && clock <= now
    requires forall d :: d in calls && d != c ==> !calls[d].pc.SaveCode?
    requires var p := Goto(calls[c].q, calls[c].pc, t, Step(now, longest + 1)); p.SaveCode? ==> p.expiresAt <= p.until
    ensures var k, e := calls[c], Step(now, longest + 1);
            Reaches(After(k.q, k.pc, t, e), calls[c := k.(pc := Goto(k.q, k.pc, t, e))], now, longest + 1,
                    KeepDo(n, Turn(c, e), Goto(k.q, k.pc, t, e).End?))
  {
    hide Goto, Act, Apply, KeepDo;
    var ys, es :| ReachesBy(ys, es, t, calls, clock, longest, n);
    var e := Step(now, longest + 1);
    assert e.nonce[0] == 'a' && IsNonce(e.nonce);
    ReachNext(t, calls, clock, longest, n, ys, es, Turn(c, e), longest + 1);
  }

  /** The step from p leads to p' and leaves u. */
  predicate Takes(q: Request, p: Pc, t: Tables, e: Env, p': Pc, u: Tables) {
    p' == Goto(q, p, t, e) && u == After(q, p, t, e)
  }

  /** A step that service and keeper take alike. */
  lemma ReachBoth(t: Tables, calls: map<nat, Call>, clock: int, longest: nat, c: nat, now: int, p: Pc, u: Tables)
    requires Reaches(t, calls, clock, longest, Keeper(t, calls)) && c in calls && !calls[c].pc.End? && clock <= now
    requires forall d :: d in calls && d != c ==> !calls[d].pc.SaveCode?
    requires Takes(calls[c].q, calls[c].pc, t, Step(now, longest + 1), p, u) && (p.SaveCode? ==> p.expiresAt <= p.until)
    requires !p.ClaimDrop? && !p.CodeDrop? && !calls[c].pc.LoginPrune?
    ensures var calls' := calls[c := Call(calls[c].q, p)]; Reaches(u, calls', now, longest + 1, Keeper(u, calls'))
  {
    hide Goto, Act, Apply;
    ReachTurn(t, calls, clock, longest, Keeper(t, calls), c, now);
    assert calls[c].(pc := p) == Call(calls[c].q, p);
  }

  // ---------- the steps used, one by one ----------

  lemma TakesInsert(q: Request, t: Tables, e: Env)
    requires (q.Register? || q.Enroll?) && !e.fail && !LabelTaken(t.rows, e.hostLabel)
    ensures Takes(q, Insert(0), t, e, Inserted(t.nextId), Apply(t, AddRow(q.name, e.hostLabel, q.group)))
  {
    hide Apply, LabelTaken;
  }

  lemma TakesInserted(q: Request, id: int, t: Tables, e: Env)
    requires !e.fail && id in t.rows
    ensures Takes(q, Inserted(id), t, e, IssueNow(id, t.rows[id].hostLabel), t)
  {}

  lemma TakesIssueNow(q: Request, id: int, l: string, t: Tables, e: Env)
    ensures Takes(q, IssueNow(id, l), t, e, SaveClaim(id, e.nonce, e.now + e.ttl, l), t)
  {}

  lemma TakesSaveClaim(q: Request, id: int, raw: string, x: int, l: string, t: Tables, e: Env)
    requires !e.fail && id in t.rows
    ensures Takes(q, SaveClaim(id, raw, x, l), t, e,
                  if q.Enroll? then CodeNow(id, Sha256(raw), x) else End(Registered(id, l, raw, x)),
                  t.(claims := t.claims[id := ClaimRow(Sha256(raw), x)]))
  {}

  lemma TakesCodeNow(q: Request, id: int, pin: Hash, until: int, t: Tables, e: Env)
    ensures Takes(q, CodeNow(id, pin, until), t, e, SaveCode(id, pin, until, e.nonce, e.now + e.ttl), t)
  {}

  lemma TakesSaveCode(q: Request, id: int, pin: Hash, until: int, raw: string, x: int, t: Tables, e: Env)
    requires !e.fail && id in t.rows
    ensures Takes(q, SaveCode(id, pin, until, raw, x), t, e, End(Enrolled(id, raw, x)),
                  t.(codes := t.codes[id := CodeRow(Sha256(raw), pin, x)]))
  {}

  lemma TakesClaimRead(q: Request, raw: string, t: Tables, e: Env)
    requires q.Claim? && !e.fail && q.id in t.claims
    ensures Takes(q, ClaimRead(raw), t, e, ClaimCheck(raw, t.claims[q.id]), t)
  {}

  lemma TakesClaimCheck(q: Request, raw: string, claim: ClaimRow, t: Tables, e: Env)
    requires e.now <= claim.expiresAt && Sha256(raw) == claim.tokenHash
    ensures Takes(q, ClaimCheck(raw, claim), t, e, LoadPending, t)
  {}

  lemma TakesCodeRead(q: Request, raw: string, t: Tables, e: Env)
    requires q.EnrollRedeem? && !e.fail && q.id in t.codes
    ensures Takes(q, CodeRead(raw), t, e, CodeCheck(raw, t.codes[q.id]), t)
  {}

  lemma TakesCodeCheck(q: Request, raw: string, code: CodeRow, t: Tables, e: Env)
    requires e.now <= code.expiresAt && Sha256(raw) == code.codeHash
    ensures Takes(q, CodeCheck(raw, code), t, e, CodePin(code.pin), t)
  {}

  lemma TakesLoadPending(q: Request, t: Tables, e: Env)
    requires Door(q) && !e.fail && q.id in t.rows && t.rows[q.id].status == Pending
    ensures Takes(q, LoadPending, t, e, PutSecret(ApplianceSecret(q.id, e.nonce), t.rows[q.id].hostLabel), t)
  {
    hide ApplianceSecret;
  }

  lemma TakesRevokeLoad(q: Request, t: Tables, e: Env)
    requires q.Revoke? && !e.fail && q.id in t.rows && t.rows[q.id].group == q.group
    ensures Takes(q, RevokeLoad, t, e, RevokeStatus, t)
  {}

  lemma TakesRevokeStatus(q: Request, t: Tables, e: Env)
    requires q.Revoke? && !e.fail && q.id in t.rows && t.rows[q.id].status != Revoked
    ensures Takes(q, RevokeStatus, t, e, RevokeSecret,
                  t.(rows := t.rows[q.id := t.rows[q.id].(status := Revoked)]))
  {}

  /** Both sides alike, with these tables and calls. */
  ghost predicate ReachesAlike(t: Tables, calls: map<nat, Call>, clock: int, longest: nat) {
    Reaches(t, calls, clock, longest, Keeper(t, calls))
  }

  // ---------- the first appliance, up to its claim token ----------

  const NEW_ROW := Row("", "", 0, Pending, None, None)
  const TOKEN := ClaimRow(Sha256(Drawn(3)), 10)

  /** The tables once the row is there. */
  function Stored(claims: map<int, ClaimRow>, codes: map<int, CodeRow>): Tables {
    Tables(map[1 := NEW_ROW], claims, codes, map[], map[], 2)
  }

  /** Call 0, the only one, registers or enrolls the appliance. */
  function Creating(q: Request, p: Pc): map<nat, Call> {
    map[0 := Call(q, p)]
  }

  predicate Creates(q: Request) {
    q == Register("", 0) || q == Enroll("", 0)
  }

  lemma Opens(q: Request)
    requires Creates(q)
    ensures ReachesAlike(EMPTY_TABLES, Creating(q, Insert(0)), 0, 0)
  {
    ReachInit();
    ReachOpen(EMPTY_TABLES, map[], 0, 0, Keeper(EMPTY_TABLES, map[]), 0, q);
  }

  lemma InsertsRow(q: Request)
    requires Creates(q)
    ensures ReachesAlike(Stored(map[], map[]), Creating(q, Inserted(1)), 0, 1)
  {
    hide Reaches, Takes, Goto, Act, Begin, KeepDo, Drawn;
    Opens(q);
    TakesInsert(q, EMPTY_TABLES, Step(0, 1));
    ReachBoth(EMPTY_TABLES, Creating(q, Insert(0)), 0, 0, 0, 0, Inserted(1), Stored(map[], map[]));
    assert Creating(q, Insert(0))[0 := Call(q, Inserted(1))] == Creating(q, Inserted(1));
  }

  lemma ReadsRow(q: Request)
    requires Creates(q)
    ensures ReachesAlike(Stored(map[], map[]), Creating(q, IssueNow(1, "")), 0, 2)
  {
    hide Reaches, Takes, Goto, Act, Begin, KeepDo, Drawn;
    InsertsRow(q);
    TakesInserted(q, 1, Stored(map[], map[]), Step(0, 2));
    ReachBoth(Stored(map[], map[]), Creating(q, Inserted(1)), 0, 1, 0, 0, IssueNow(1, ""), Stored(map[], map[]));
    assert Creating(q, Inserted(1))[0 := Call(q, IssueNow(1, ""))] == Creating(q, IssueNow(1, ""));
  }

  lemma DrawsToken(q: Request)
    requires Creates(q)
    ensures ReachesAlike(Stored(map[], map[]), Creating(q, SaveClaim(1, Drawn(3), 10, "")), 0, 3)
  {
    hide Reaches, Takes, Goto, Act, Begin, KeepDo, Drawn;
    ReadsRow(q);
    var t := Stored(map[], map[]);
    TakesIssueNow(q, 1, "", t, Step(0, 3));
    ReachBoth(t, Creating(q, IssueNow(1, "")), 0, 2, 0, 0, SaveClaim(1, Drawn(3), 10, ""), t);
    assert Creating(q, IssueNow(1, ""))[0 := Call(q, SaveClaim(1, Drawn(3), 10, ""))]
           == Creating(q, SaveClaim(1, Drawn(3), 10, ""));
  }
}
