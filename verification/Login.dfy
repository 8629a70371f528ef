/** Cloud login under unrestricted interleaving: each redemption agrees with exactly one earlier grant. */
module Login {
  import opened Wrappers
  import opened Tokens
  import opened Persistence
  import opened Protocol
  import opened Runs
  import opened Freshness
  import opened Lifecycle

  /** The grant a call has consumed: its own code, for the appliance in its path. */
  predicate HoldsGrant(y: System, c: nat, q: Request) {
    && q.RedeemLoginCode?
    && var h := Sha256(q.code);
       h in y.h.spent && y.h.spent[h] == c && h in y.h.grants && y.h.grants[h].login.appliance == q.id
  }

  predicate GroupIs(y: System, id: int, group: int) {
    id in y.t.rows && y.t.rows[id].group == group
  }

  predicate RedeemerFits(y: System, c: nat, k: Call) {
    match k.pc
    case Consume(g) => GroupIs(y, Subject(k.q), g)
    case ConsumeCheck(login, g) =>
      HoldsGrant(y, c, k.q) && login == y.h.grants[Sha256(k.q.code)].login && GroupIs(y, k.q.id, g)
    case AskMember(u, g) =>
      && GroupIs(y, Subject(k.q), g)
      && (k.q.RedeemLoginCode? ==> HoldsGrant(y, c, k.q) && u == y.h.grants[Sha256(k.q.code)].login.user)
    case End(Identity(_)) => HoldsGrant(y, c, k.q)
    case _ => true
  }

  /** A grant is what its CreateLoginCode call returned, for its own user, appliance and group. */
  predicate GrantFits(y: System, h: Hash) {
    h in y.h.grants ==>
      var g := y.h.grants[h];
      && g.issuer in y.calls
      && y.calls[g.issuer].q == CreateLoginCode(g.login.appliance, g.login.user, g.group)
      && y.calls[g.issuer].pc.End? && y.calls[g.issuer].pc.response.LoginCode?
      && Sha256(y.calls[g.issuer].pc.response.code) == h
      && y.calls[g.issuer].pc.response.expiresAt == g.login.expiresAt
  }

  predicate CodeFits(y: System, h: Hash) {
    && (h in y.t.logins ==> h in y.h.grants && y.h.grants[h].login == y.t.logins[h] && h !in y.h.spent)
    && (h in y.h.spent ==> h in y.h.grants)
  }

  ghost predicate Agreement(y: System) {
    && (forall h :: GrantFits(y, h) && CodeFits(y, h))
    && (forall c :: c in y.calls ==> RedeemerFits(y, c, y.calls[c]))
  }

  lemma AddEffects(k: Call, t: Tables, e: Env, f: Effect, p: Pc)
    requires f == Act(k.q, k.pc, t, e) && p == Goto(k.q, k.pc, t, e) && Fits(k.q, k.pc) && !k.pc.End?
    ensures f.AddLogin? <==> p.End? && p.response.LoginCode?
    ensures f.AddLogin? ==>
              && f == AddLogin(Sha256(p.response.code), LoginRow(k.q.id, k.q.user, p.response.expiresAt))
              && k.q.CreateLoginCode? && k.pc.LoginInsert? && f.key in Held(k.pc)
  {
    hide Goto, Act, Held, Fits;
    if k.pc.LoginInsert? {
      InsertAdds(k, t, e);
    } else {
      NoneElseAdds(k, t, e);
    }
  }

  lemma InsertAdds(k: Call, t: Tables, e: Env)
    requires k.pc.LoginInsert? && Fits(k.q, k.pc)
    ensures var f, p := Act(k.q, k.pc, t, e), Goto(k.q, k.pc, t, e);
            && (f.AddLogin? <==> p.End? && p.response.LoginCode?)
            && (f.AddLogin? ==>
                  && f == AddLogin(Sha256(p.response.code), LoginRow(k.q.id, k.q.user, p.response.expiresAt))
                  && k.q.CreateLoginCode? && f.key in Held(k.pc))
  {
    hide Listing, LabelTaken, Markable, Settable, ApplianceSecret, Door;
  }

  lemma NoneElseAdds(k: Call, t: Tables, e: Env)
    requires !k.pc.LoginInsert? && !k.pc.End?
    ensures !Act(k.q, k.pc, t, e).AddLogin?
    ensures var p := Goto(k.q, k.pc, t, e); !(p.End? && p.response.LoginCode?)
  {
    hide Listing, LabelTaken, Markable, Settable, ApplianceSecret, Door, Redeemable;
  }

  lemma TakeEffects(k: Call, t: Tables, e: Env, f: Effect, p: Pc)
    requires f == Act(k.q, k.pc, t, e) && p == Goto(k.q, k.pc, t, e) && Fits(k.q, k.pc) && !k.pc.End?
    ensures f.TakeLogin? <==> p.ConsumeCheck?
    ensures p.ConsumeCheck? ==>
              k.pc == Consume(p.group) && Redeemable(k.q, t) && f.key == Sha256(k.q.code) && p.login == t.logins[f.key]
  {
    hide Listing, LabelTaken, Markable, Settable, ApplianceSecret, Door;
  }

  lemma MemberEffects(k: Call, t: Tables, e: Env, p: Pc)
    requires p == Goto(k.q, k.pc, t, e) && Fits(k.q, k.pc) && !k.pc.End?
    ensures p.Consume? ==> Subject(k.q) in t.rows && t.rows[Subject(k.q)].group == p.group
    ensures p.AskMember? && k.q.RedeemLoginCode? ==>
              k.pc.ConsumeCheck? && p.user == k.pc.login.user && p.group == k.pc.group
    ensures p.AskMember? && !k.q.RedeemLoginCode? ==> Subject(k.q) in t.rows && t.rows[Subject(k.q)].group == p.group
    ensures p.End? && p.response.Identity? ==> k.q.RedeemLoginCode? && k.pc.AskMember?
  {
    hide Listing, LabelTaken, Markable, Settable, ApplianceSecret, Door;
  }

  lemma LoginEffects(k: Call, t: Tables, e: Env, f: Effect, p: Pc)
    requires f == Act(k.q, k.pc, t, e) && p == Goto(k.q, k.pc, t, e) && Fits(k.q, k.pc) && !k.pc.End?
    ensures f.AddLogin? <==> k.pc.LoginInsert? && p.End? && p.response.LoginCode?
    ensures p.End? && p.response.LoginCode? ==>
              && f == AddLogin(Sha256(p.response.code), LoginRow(k.q.id, k.q.user, p.response.expiresAt))
              && k.q.CreateLoginCode? && f.key in Held(k.pc)
    ensures f.TakeLogin? <==> p.ConsumeCheck?
    ensures p.ConsumeCheck? ==>
              k.pc == Consume(p.group) && Redeemable(k.q, t) && f.key == Sha256(k.q.code) && p.login == t.logins[f.key]
    ensures p.Consume? ==> Subject(k.q) in t.rows && t.rows[Subject(k.q)].group == p.group
    ensures p.AskMember? && k.q.RedeemLoginCode? ==>
              k.pc.ConsumeCheck? && p.user == k.pc.login.user && p.group == k.pc.group
    ensures p.AskMember? && !k.q.RedeemLoginCode? ==> Subject(k.q) in t.rows && t.rows[Subject(k.q)].group == p.group
    ensures p.End? && p.response.Identity? ==> k.q.RedeemLoginCode? && k.pc.AskMember?
  {
    hide Goto, Act, Held;
    AddEffects(k, t, e, f, p);
    TakeEffects(k, t, e, f, p);
    MemberEffects(k, t, e, p);
  }

  /** The login table and its history change only by these effects. */
  lemma GrantMoves(y: System, c: nat, p: Pc, f: Effect, e: Env, h: Hash)
    requires Can(y, Turn(c, e)) && GrantFits(y, h) && CodeFits(y, h) && HeldFresh(y, c)
    requires h in y.h.grants ==> h in y.h.published
    requires f.AddLogin? ==>
               && p.End? && p.response.LoginCode? && f.key == Sha256(p.response.code) && f.key in Held(y.calls[c].pc)
               && y.calls[c].q.CreateLoginCode?
               && y.calls[c].q == CreateLoginCode(f.login.appliance, f.login.user, y.calls[c].q.group)
               && f.login.expiresAt == p.response.expiresAt
    requires f.TakeLogin? ==> f.key in y.t.logins
    ensures GrantFits(Moved(y, c, p, f, e), h) && CodeFits(Moved(y, c, p, f, e), h)
  {}

  /** What a redeemer relies on survives the steps of others. */
  lemma RedeemerStays(y: System, z: System, c: nat, k: Call)
    requires RedeemerFits(y, c, k)
    requires forall id :: id in y.t.rows ==> id in z.t.rows && z.t.rows[id].group == y.t.rows[id].group
    requires forall h :: h in y.h.spent ==> h in z.h.spent && z.h.spent[h] == y.h.spent[h]
    requires forall h :: h in y.h.grants ==> h in z.h.grants && z.h.grants[h] == y.h.grants[h]
    ensures RedeemerFits(z, c, k)
  {}

  lemma OpensKeepHistory(y: System, v: Event)
    requires v.Open? && Can(y, v)
    ensures Do(y, v).h == y.h && Do(y, v).t == y.t
  {}

  lemma TurnKeepsHistory(y: System, c: nat, e: Env, p: Pc, f: Effect)
    requires Can(y, Turn(c, e)) && Agreement(y) && HeldFresh(y, c)
    requires p == Goto(y.calls[c].q, y.calls[c].pc, y.t, e) && f == Act(y.calls[c].q, y.calls[c].pc, y.t, e)
    requires forall h :: h in y.h.grants ==> h in y.h.published
    requires f.AddLogin? ==> f.key in Held(y.calls[c].pc)
    requires f.TakeLogin? ==> f.key in y.t.logins
    ensures forall h :: h in y.h.spent ==>
        h in Do(y, Turn(c, e)).h.spent && Do(y, Turn(c, e)).h.spent[h] == y.h.spent[h]
    ensures forall h :: h in y.h.grants ==>
        h in Do(y, Turn(c, e)).h.grants && Do(y, Turn(c, e)).h.grants[h] == y.h.grants[h]
  {
    hide Goto, Act, Apply, GrantFits, RedeemerFits;
    if f.TakeLogin? {
      assert CodeFits(y, f.key);
    }
  }

  lemma HistoryGrows(y: System, v: Event)
    requires Can(y, v) && Fresh(y) && Registry(y) && Agreement(y)
    ensures forall id :: id in y.t.rows ==> id in Do(y, v).t.rows && Do(y, v).t.rows[id].group == y.t.rows[id].group
    ensures forall h :: h in y.h.spent ==> h in Do(y, v).h.spent && Do(y, v).h.spent[h] == y.h.spent[h]
    ensures forall h :: h in y.h.grants ==> h in Do(y, v).h.grants && Do(y, v).h.grants[h] == y.h.grants[h]
  {
    hide Goto, Act, Apply, Record, Do, GrantFits, RedeemerFits;
    forall id | id in y.t.rows ensures id in Do(y, v).t.rows && Do(y, v).t.rows[id].group == y.t.rows[id].group {
      RowStep(y, v, id);
    }
    match v
    case Open(_, _) => OpensKeepHistory(y, v);
    case Turn(c, e) =>
      var k := y.calls[c];
      var f, p := Act(k.q, k.pc, y.t, e), Goto(k.q, k.pc, y.t, e);
      assert FitCall(k) && HeldFresh(y, c);
      LoginEffects(k, y.t, e, f, p);
      TurnKeepsHistory(y, c, e, p, f);
  }

  lemma MoverFits(y: System, c: nat, e: Env, p: Pc, f: Effect)
    requires Can(y, Turn(c, e)) && Agreement(y) && AllFit(y)
    requires p == Goto(y.calls[c].q, y.calls[c].pc, y.t, e) && f == Act(y.calls[c].q, y.calls[c].pc, y.t, e)
    requires forall id :: id in y.t.rows ==>
        id in Apply(y.t, f).rows && Apply(y.t, f).rows[id].group == y.t.rows[id].group
    requires forall h :: h in y.h.grants ==>
               h in Moved(y, c, p, f, e).h.grants && Moved(y, c, p, f, e).h.grants[h] == y.h.grants[h]
    requires forall h :: h in y.h.spent ==>
               h in Moved(y, c, p, f, e).h.spent && Moved(y, c, p, f, e).h.spent[h] == y.h.spent[h]
    ensures RedeemerFits(Moved(y, c, p, f, e), c, y.calls[c].(pc := p))
  {
    hide Goto, Act, Apply, Do, Begin, Issued, Rotating, Publishes, GrantFits;
    var k := y.calls[c];
    assert FitCall(k);
    LoginEffects(k, y.t, e, f, p);
    assert RedeemerFits(y, c, k);
    if p.ConsumeCheck? {
      assert CodeFits(y, f.key);
    }
  }

  lemma AgreementTurn(y: System, c: nat, e: Env)
    requires Can(y, Turn(c, e)) && Fresh(y) && Registry(y) && Agreement(y)
    ensures forall h :: GrantFits(Do(y, Turn(c, e)), h) && CodeFits(Do(y, Turn(c, e)), h)
    ensures RedeemerFits(Do(y, Turn(c, e)), c, Do(y, Turn(c, e)).calls[c])
  {
    hide Goto, Act, Apply, Record, GrantFits, CodeFits, RedeemerFits;
    var z, k := Do(y, Turn(c, e)), y.calls[c];
    var p, f := Goto(k.q, k.pc, y.t, e), Act(k.q, k.pc, y.t, e);
    assert FitCall(k) && HeldFresh(y, c);
    HistoryGrows(y, Turn(c, e));
    LoginEffects(k, y.t, e, f, p);
    MoverFits(y, c, e, p, f);
    forall h ensures GrantFits(z, h) && CodeFits(z, h) {
      assert GrantFits(y, h) && CodeFits(y, h);
      TakesStored(k, y.t, e, f, p);
      GrantMoves(y, c, p, f, e, h);
    }
  }

  lemma TakesStored(k: Call, t: Tables, e: Env, f: Effect, p: Pc)
    requires f == Act(k.q, k.pc, t, e) && p == Goto(k.q, k.pc, t, e)
    ensures f.TakeLogin? ==> f.key in t.logins
  {}

  lemma GrantStaysOpen(y: System, c: nat, q: Request, h: Hash)
    requires c !in y.calls && GrantFits(y, h) && CodeFits(y, h)
    ensures GrantFits(Do(y, Open(c, q)), h) && CodeFits(Do(y, Open(c, q)), h)
  {}

  lemma AgreementStep(y: System, v: Event)
    requires Can(y, v) && Fresh(y) && Registry(y) && Agreement(y)
    ensures Agreement(Do(y, v))
  {
    hide Goto, Act, Apply, Record, GrantFits, CodeFits;
    var z := Do(y, v);
    HistoryGrows(y, v);
    forall c | c in y.calls && c != v.c ensures RedeemerFits(z, c, z.calls[c]) {
      CallStep(y, v, c);
      RedeemerStays(y, z, c, y.calls[c]);
    }
    match v
    case Open(c, q) =>
      assert RedeemerFits(z, c, z.calls[c]);
      forall h ensures GrantFits(z, h) && CodeFits(z, h) {
        assert GrantFits(y, h) && CodeFits(y, h);
        GrantStaysOpen(y, c, q, h);
      }
    case Turn(c, e) =>
      AgreementTurn(y, c, e);
  }

  lemma {:induction false} AlwaysAgrees(ys: seq<System>, es: seq<Event>, j: nat)
    requires Run(ys, es) && j < |ys|
    ensures Agreement(ys[j])
    decreases j
  {
    hide Goto, Act, Apply, Record, Do, Begin;
    if j > 0 {
      AlwaysAgrees(ys, es, j - 1);
      AlwaysFresh(ys, es, j - 1);
      AlwaysRegistry(ys, es, j - 1);
      assert StepAt(ys, es, j - 1);
      AgreementStep(ys[j - 1], es[j - 1]);
    }
  }

  predicate LoggedIn(k: Call) {
    k.q.RedeemLoginCode? && k.pc.End? && k.pc.response.Identity?
  }

  /** Injectivity: two successful redemptions consumed grants of two different CreateLoginCode calls. */
  lemma LoginsAreInjective(ys: seq<System>, es: seq<Event>, j: nat, c: nat, d: nat)
    requires Run(ys, es) && j < |ys| && c in ys[j].calls && d in ys[j].calls && c != d
    requires LoggedIn(ys[j].calls[c]) && LoggedIn(ys[j].calls[d])
    ensures var a, b := Sha256(ys[j].calls[c].q.code), Sha256(ys[j].calls[d].q.code);
            a in ys[j].h.grants && b in ys[j].h.grants && ys[j].h.grants[a].issuer != ys[j].h.grants[b].issuer
  {
    AlwaysAgrees(ys, es, j);
    var a, b := Sha256(ys[j].calls[c].q.code), Sha256(ys[j].calls[d].q.code);
    assert RedeemerFits(ys[j], c, ys[j].calls[c]) && RedeemerFits(ys[j], d, ys[j].calls[d]);
    assert GrantFits(ys[j], a) && GrantFits(ys[j], b);
  }

  // ---------- the order of events behind a login ----------

  lemma ReachIdentity(k: Call, t: Tables, e: Env)
    requires Goto(k.q, k.pc, t, e).End? && Goto(k.q, k.pc, t, e).response.Identity? && !k.pc.End?
    ensures k.pc.AskMember?
        && e.registry(k.pc.group, k.pc.user) == Answer(true, Some(Goto(k.q, k.pc, t, e).response.person))
  {}

  lemma ReachAskMember(k: Call, t: Tables, e: Env)
    requires Goto(k.q, k.pc, t, e).AskMember? && k.q.RedeemLoginCode? && Fits(k.q, k.pc)
    ensures k.pc.ConsumeCheck? && e.now <= k.pc.login.expiresAt && Goto(k.q, k.pc, t, e).user == k.pc.login.user
  {}

  lemma ReachConsumeCheck(k: Call, t: Tables, e: Env)
    requires Goto(k.q, k.pc, t, e).ConsumeCheck?
    ensures k.pc.Consume? && Redeemable(k.q, t) && Goto(k.q, k.pc, t, e).login == t.logins[Sha256(k.q.code)]
  {}

  /** The last step: the registry confirms the granted user as a member of the appliance's group. */
  lemma Confirmed(ys: seq<System>, es: seq<Event>, j: nat, c: nat) returns (m: nat)
    requires Run(ys, es) && j < |ys| && c in ys[j].calls && LoggedIn(ys[j].calls[c])
    ensures m < j && es[m].Turn? && es[m].c == c && c in ys[m].calls && ys[m].calls[c].q == ys[j].calls[c].q
    ensures var q := ys[j].calls[c].q; var h := Sha256(q.code);
            && HoldsGrant(ys[m], c, q) && q.id in ys[m].t.rows
            && ys[m].calls[c].pc == AskMember(ys[m].h.grants[h].login.user, ys[m].t.rows[q.id].group)
            && es[m].e.registry(ys[m].t.rows[q.id].group, ys[m].h.grants[h].login.user)
               == Answer(true, Some(ys[j].calls[c].pc.response.person))
  {
    hide Goto, Act, Apply, Record, Do;
    m := Arrival(ys, es, c, j);
    ReachIdentity(ys[m].calls[c], ys[m].t, es[m].e);
    AlwaysAgrees(ys, es, m);
    assert RedeemerFits(ys[m], c, ys[m].calls[c]);
  }

  /** Before it: the code was found unexpired. */
  lemma Checked(ys: seq<System>, es: seq<Event>, j: nat, c: nat) returns (x: nat)
    requires Run(ys, es) && j < |ys| && c in ys[j].calls && ys[j].calls[c].q.RedeemLoginCode?
    requires ys[j].calls[c].pc.AskMember?
    ensures x < j && es[x].Turn? && es[x].c == c && c in ys[x].calls && ys[x].calls[c].q == ys[j].calls[c].q
    ensures ys[x].calls[c].pc.ConsumeCheck? && HoldsGrant(ys[x], c, ys[j].calls[c].q)
    ensures es[x].e.now <= ys[x].h.grants[Sha256(ys[j].calls[c].q.code)].login.expiresAt
  {
    hide Goto, Act, Apply, Record, Do;
    x := Arrival(ys, es, c, j);
    CallsFit(ys, es, x);
    assert FitCall(ys[x].calls[c]);
    ReachAskMember(ys[x].calls[c], ys[x].t, es[x].e);
    AlwaysAgrees(ys, es, x);
    assert RedeemerFits(ys[x], c, ys[x].calls[c]);
  }

  /** Before that: the code was taken out of the table. */
  lemma Taken(ys: seq<System>, es: seq<Event>, j: nat, c: nat) returns (r: nat)
    requires Run(ys, es) && j < |ys| && c in ys[j].calls && ys[j].calls[c].q.RedeemLoginCode?
    requires ys[j].calls[c].pc.ConsumeCheck?
    ensures r < j && es[r].Turn? && es[r].c == c && c in ys[r].calls && ys[r].calls[c].q == ys[j].calls[c].q
    ensures var h := Sha256(ys[j].calls[c].q.code); h in ys[r].t.logins && h in ys[r].h.grants
  {
    hide Goto, Act, Apply, Record, Do;
    r := Arrival(ys, es, c, j);
    ReachConsumeCheck(ys[r].calls[c], ys[r].t, es[r].e);
    AlwaysAgrees(ys, es, r);
    assert CodeFits(ys[r], Sha256(ys[j].calls[c].q.code));
  }

  lemma {:induction false} GrantsStay(ys: seq<System>, es: seq<Event>, h: Hash, i: nat, j: nat)
    requires Run(ys, es) && i <= j < |ys|
    ensures h in ys[i].h.grants ==> h in ys[j].h.grants && ys[j].h.grants[h] == ys[i].h.grants[h]
    ensures h in ys[i].h.spent ==> h in ys[j].h.spent && ys[j].h.spent[h] == ys[i].h.spent[h]
    decreases j
  {
    hide Goto, Act, Apply, Record, Do, Begin;
    if i < j {
      GrantsStay(ys, es, h, i, j - 1);
      AlwaysAgrees(ys, es, j - 1);
      AlwaysFresh(ys, es, j - 1);
      AlwaysRegistry(ys, es, j - 1);
      assert StepAt(ys, es, j - 1);
      HistoryGrows(ys[j - 1], es[j - 1]);
    }
  }

  predicate Granting(p: Pc) {
    || p.LoginNow? || p.LoginCutoff? || p.LoginPrune? || p.LoginInsert?
    || (p.End? && p.response.LoginCode?)
  }

  lemma ReachGranting(k: Call, t: Tables, e: Env)
    requires Granting(Goto(k.q, k.pc, t, e)) && !k.pc.End?
    ensures Granting(k.pc) ||
            (k.pc.LoginLoad? && k.q.CreateLoginCode? && k.q.id in t.rows && t.rows[k.q.id].status == Active
             && t.rows[k.q.id].group == k.q.group)
  {}

  /** A login code is only issued after its issuer read the appliance as active and owned by the caller's group. */
  lemma {:induction false} IssuerSawActive(ys: seq<System>, es: seq<Event>, j: nat, c: nat) returns (a: nat)
    requires Run(ys, es) && j < |ys| && c in ys[j].calls && Granting(ys[j].calls[c].pc)
    ensures a < j && es[a].Turn? && es[a].c == c && c in ys[a].calls && ys[a].calls[c].q == ys[j].calls[c].q
    ensures ys[a].calls[c].q.CreateLoginCode? && StatusIs(ys[a], ys[a].calls[c].q.id, Active)
    ensures GroupIs(ys[a], ys[a].calls[c].q.id, ys[a].calls[c].q.group)
    decreases j
  {
    hide Goto, Act, Apply, Record, Do;
    var i := Arrival(ys, es, c, j);
    ReachGranting(ys[i].calls[c], ys[i].t, es[i].e);
    if Granting(ys[i].calls[c].pc) {
      a := IssuerSawActive(ys, es, i, c);
    } else {
      a := i;
    }
  }

  /** Call d of a state is the CreateLoginCode that issued this code for this appliance. */
  predicate IssuedBy(y: System, d: nat, q: Request) {
    && q.RedeemLoginCode? && d in y.calls
    && y.calls[d].q.CreateLoginCode? && y.calls[d].q.id == q.id
    && y.calls[d].pc.End? && y.calls[d].pc.response.LoginCode? && y.calls[d].pc.response.code == q.code
  }

  lemma GrantNamesIssuer(ys: seq<System>, es: seq<Event>, i: nat, c: nat, q: Request, j: nat, d: nat)
    requires Run(ys, es) && i <= j < |ys| && q.RedeemLoginCode? && HoldsGrant(ys[j], c, q)
    requires Sha256(q.code) in ys[i].h.grants && ys[i].h.grants[Sha256(q.code)].issuer == d
    ensures IssuedBy(ys[i], d, q)
    ensures ys[j].h.grants[Sha256(q.code)] == ys[i].h.grants[Sha256(q.code)]
    ensures var g := ys[j].h.grants[Sha256(q.code)];
            && ys[i].calls[d].q == CreateLoginCode(q.id, g.login.user, g.group)
            && ys[i].calls[d].pc.response.expiresAt == g.login.expiresAt
  {
    AlwaysAgrees(ys, es, i);
    GrantsStay(ys, es, Sha256(q.code), i, j);
    assert GrantFits(ys[i], Sha256(q.code));
  }

  /** Agreement: a successful redemption by c matches one earlier CreateLoginCode d for the same code,
      appliance and user; d's caller holds the appliance's owning group and d read "active" at a; the
      code was in the table at r and unexpired at x, and at m the registry confirmed that user in that group.
      By LoginsAreInjective no other redemption matches d. */
  lemma LoginAgreement(ys: seq<System>, es: seq<Event>, j: nat, c: nat)
    returns (d: nat, a: nat, r: nat, x: nat, m: nat)
    requires Run(ys, es) && j < |ys| && c in ys[j].calls && LoggedIn(ys[j].calls[c])
    ensures a < r < x < m < j && IssuedBy(ys[r], d, ys[j].calls[c].q)
    ensures es[a].Turn? && es[a].c == d && forall i :: i in {r, x, m} ==> es[i].Turn? && es[i].c == c
    ensures var q, w := ys[j].calls[c].q, ys[r].calls[d];
            && StatusIs(ys[a], q.id, Active) && GroupIs(ys[a], q.id, w.q.group)
            && Sha256(q.code) in ys[r].t.logins
            && es[x].e.now <= w.pc.response.expiresAt
            && c in ys[m].calls && ys[m].calls[c].pc == AskMember(w.q.user, w.q.group)
            && es[m].e.registry(w.q.group, w.q.user) == Answer(true, Some(ys[j].calls[c].pc.response.person))
    ensures var h := Sha256(ys[j].calls[c].q.code); h in ys[j].h.grants && ys[j].h.grants[h].issuer == d
  {
    var q := ys[j].calls[c].q;
    var h := Sha256(q.code);
    m := Confirmed(ys, es, j, c);
    x := Checked(ys, es, m, c);
    r := Taken(ys, es, x, c);
    d := ys[r].h.grants[h].issuer;
    GrantNamesIssuer(ys, es, r, c, q, m, d);
    GrantNamesIssuer(ys, es, r, c, q, x, d);
    GrantsStay(ys, es, h, r, j);
    a := IssuerSawActive(ys, es, r, d);
    RowsKeepIdentity(ys, es, q.id, a, m);
    assert ys[m].t.rows[q.id].group == ys[a].t.rows[q.id].group == ys[r].calls[d].q.group;
  }

  /** A code that has been consumed is spent for good, whatever became of the call that consumed it. */
  lemma SpentStaysSpent(ys: seq<System>, es: seq<Event>, h: Hash, i: nat, j: nat)
    requires Run(ys, es) && i <= j < |ys| && h in ys[i].h.spent
    ensures h !in ys[j].t.logins
    ensures forall c :: c in ys[j].calls && LoggedIn(ys[j].calls[c]) && Sha256(ys[j].calls[c].q.code) == h
              ==> c == ys[i].h.spent[h]
  {
    GrantsStay(ys, es, h, i, j);
    AlwaysAgrees(ys, es, j);
    assert CodeFits(ys[j], h);
    forall c | c in ys[j].calls && LoggedIn(ys[j].calls[c]) && Sha256(ys[j].calls[c].q.code) == h
      ensures c == ys[i].h.spent[h]
    {
      assert RedeemerFits(ys[j], c, ys[j].calls[c]);
    }
  }

  /** Passing ConsumeLoginCode is what spends a code, before expiry and membership are looked at. */
  lemma ConsumingSpends(ys: seq<System>, es: seq<Event>, j: nat)
    requires Run(ys, es) && j < |es| && es[j].Turn? && es[j].c in ys[j].calls
    requires ys[j].calls[es[j].c].pc.Consume? && es[j].c in ys[j + 1].calls && ys[j + 1].calls[es[j].c].pc.ConsumeCheck?
    ensures ys[j].calls[es[j].c].q.RedeemLoginCode?
    ensures Sha256(ys[j].calls[es[j].c].q.code) in ys[j + 1].h.spent
  {
    hide Apply;
    assert StepAt(ys, es, j);
    var k := ys[j].calls[es[j].c];
    CallStep(ys[j], es[j], es[j].c);
    ReachConsumeCheck(k, ys[j].t, es[j].e);
  }
}
