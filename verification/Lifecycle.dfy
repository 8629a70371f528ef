/** Appliance rows under unrestricted interleaving: what is immutable, and what a Revoke can rely on. */
module Lifecycle {
  import opened Tokens
  import opened Persistence
  import opened Protocol
  import opened Runs
  import Credentials
  import Hostnames

  predicate StatusIs(y: System, id: int, s: Status) {
    id in y.t.rows && y.t.rows[id].status == s
  }

  lemma StatusEffects(k: Call, t: Tables, e: Env)
    ensures var f := Act(k.q, k.pc, t, e);
            && (f.SetStatus? ==> !e.fail && k.pc.RevokeStatus? && f == SetStatus(Subject(k.q), Revoked))
            && (f.Activate? ==> !e.fail && k.pc.PutActive? && f == Activate(Subject(k.q), e.now))
  {}

  lemma RowEffect(t: Tables, f: Effect, id: int)
    requires id in t.rows && id < t.nextId
    ensures id in Apply(t, f).rows
    ensures var r, r' := t.rows[id], Apply(t, f).rows[id];
            && r'.name == r.name && r'.hostLabel == r.hostLabel && r'.group == r.group
            && (r'.status != r.status ==>
                  f == SetStatus(id, r'.status) || (f.Activate? && f.id == id && r'.status == Active))
  {}

  /** Everything a step can do to the row of an existing appliance. */
  lemma RowStep(y: System, v: Event, id: int)
    requires Can(y, v) && id in y.t.rows && id < y.t.nextId
    ensures id in Do(y, v).t.rows
    ensures var r, r' := y.t.rows[id], Do(y, v).t.rows[id];
            && r'.name == r.name && r'.hostLabel == r.hostLabel && r'.group == r.group
            && (r'.status != r.status ==>
                  && v.Turn? && Subject(y.calls[v.c].q) == id && !v.e.fail
                  && (if y.calls[v.c].pc.PutActive? then r'.status == Active
                      else y.calls[v.c].pc.RevokeStatus? && r'.status == Revoked))
  {
    if v.Turn? {
      var k := y.calls[v.c];
      StatusEffects(k, y.t, v.e);
      RowEffect(y.t, Act(k.q, k.pc, y.t, v.e), id);
    }
  }

  // ---------- labels and groups ----------

  ghost predicate Registry(y: System) {
    && (forall id :: id in y.t.rows ==> 0 < id < y.t.nextId)
    && (forall a, b :: a in y.t.rows && b in y.t.rows && a != b ==> y.t.rows[a].hostLabel != y.t.rows[b].hostLabel)
  }

  lemma RegistryStep(y: System, v: Event)
    requires Can(y, v) && Registry(y) && 0 < y.t.nextId
    ensures Registry(Do(y, v)) && 0 < Do(y, v).t.nextId
  {
    if v.Turn? {
      var k := y.calls[v.c];
      AddsUntaken(k, y.t, v.e);
      RegistryMove(y.t, Act(k.q, k.pc, y.t, v.e));
    }
  }

  lemma AddsUntaken(k: Call, t: Tables, e: Env)
    ensures var f := Act(k.q, k.pc, t, e); f.AddRow? ==> !LabelTaken(t.rows, f.hostLabel)
  {}

  lemma RegistryMove(t: Tables, f: Effect)
    requires f.AddRow? ==> !LabelTaken(t.rows, f.hostLabel)
    requires forall id :: id in t.rows ==> 0 < id < t.nextId
    requires forall a, b :: a in t.rows && b in t.rows && a != b ==> t.rows[a].hostLabel != t.rows[b].hostLabel
    requires 0 < t.nextId
    ensures var u := Apply(t, f);
            && 0 < u.nextId
            && (forall id :: id in u.rows ==> 0 < id < u.nextId)
            && (forall a, b :: a in u.rows && b in u.rows && a != b ==> u.rows[a].hostLabel != u.rows[b].hostLabel)
  {
    hide LabelTaken;
    if f.AddRow? {
      RowAdds(t, f);
    } else {
      RowsStay(t, f);
    }
  }

  lemma RowsStay(t: Tables, f: Effect)
    requires !f.AddRow?
    ensures Apply(t, f).rows.Keys == t.rows.Keys && Apply(t, f).nextId == t.nextId
    ensures forall id :: id in t.rows ==> Apply(t, f).rows[id].hostLabel == t.rows[id].hostLabel
  {}

  lemma RowAdds(t: Tables, f: Effect)
    requires f.AddRow? && !LabelTaken(t.rows, f.hostLabel)
    ensures var u := Apply(t, f);
            && u.rows.Keys == t.rows.Keys + {t.nextId} && u.nextId == t.nextId + 1
            && u.rows[t.nextId].hostLabel == f.hostLabel
            && forall id :: id in t.rows && id != t.nextId ==>
                 u.rows[id] == t.rows[id] && u.rows[id].hostLabel != f.hostLabel
  {}

  lemma {:induction false} AlwaysRegistry(ys: seq<System>, es: seq<Event>, j: nat)
    requires Run(ys, es) && j < |ys|
    ensures Registry(ys[j]) && 0 < ys[j].t.nextId
    decreases j
  {
    hide Goto, Act, Apply, Record, Do;
    if j > 0 {
      AlwaysRegistry(ys, es, j - 1);
      assert StepAt(ys, es, j - 1);
      RegistryStep(ys[j - 1], es[j - 1]);
    }
  }

  lemma IdsBelowNext(y: System, id: int)
    requires Registry(y) && id in y.t.rows
    ensures id < y.t.nextId
  {}

  /** A row, once created, keeps its name, label and owning group for ever; pending is never re-entered. */
  lemma {:induction false} RowsKeepIdentity(ys: seq<System>, es: seq<Event>, id: int, i: nat, j: nat)
    requires Run(ys, es) && i <= j < |ys| && id in ys[i].t.rows
    ensures id in ys[j].t.rows
    ensures ys[j].t.rows[id].name == ys[i].t.rows[id].name
    ensures ys[j].t.rows[id].hostLabel == ys[i].t.rows[id].hostLabel
    ensures ys[j].t.rows[id].group == ys[i].t.rows[id].group
    ensures ys[i].t.rows[id].status != Pending ==> ys[j].t.rows[id].status != Pending
    decreases j
  {
    hide Goto, Act, Apply, Record, Do, Registry;
    if i < j {
      RowsKeepIdentity(ys, es, id, i, j - 1);
      AlwaysRegistry(ys, es, j - 1);
      IdsBelowNext(ys[j - 1], id);
      assert StepAt(ys, es, j - 1);
      RowStep(ys[j - 1], es[j - 1], id);
    }
  }

  /** The hostnames of all appliances ever created, revoked ones included, are pairwise distinct:
      revoking does not free a hostname. */
  lemma HostnamesStayDistinct(ys: seq<System>, es: seq<Event>, a: int, b: int, i: nat, k: nat, domain: string)
    requires Run(ys, es) && i < |ys| && k < |ys|
    requires a in ys[i].t.rows && b in ys[k].t.rows && a != b
    ensures Hostnames.FullHostname(ys[i].t.rows[a].hostLabel, domain)
            != Hostnames.FullHostname(ys[k].t.rows[b].hostLabel, domain)
  {
    var j := if i < k then k else i;
    RowsKeepIdentity(ys, es, a, i, j);
    RowsKeepIdentity(ys, es, b, k, j);
    AlwaysRegistry(ys, es, j);
    if Hostnames.FullHostname(ys[i].t.rows[a].hostLabel, domain)
      == Hostnames.FullHostname(ys[k].t.rows[b].hostLabel, domain) {
      Hostnames.FullHostnameInjective(ys[i].t.rows[a].hostLabel, ys[k].t.rows[b].hostLabel, domain);
    }
  }

  // ---------- writes of "active", and when a Revoke is final ----------

  predicate IsReady(k: Call, id: int) {
    Door(k.q) && Subject(k.q) == id && (k.pc.PutSecret? || k.pc.PutHash? || k.pc.PutActive?)
  }

  /** The Claim and EnrollRedeem calls past their check of "pending" that have not yet written "active". */
  function Ready(y: System, id: int): set<nat> {
    set c | c in y.calls && IsReady(y.calls[c], id)
  }

  predicate WritesActive(y: System, v: Event, id: int) {
    v.Turn? && v.c in y.calls && Act(y.calls[v.c].q, y.calls[v.c].pc, y.t, v.e) == Activate(id, v.e.now)
  }

  function ActiveWrites(ys: seq<System>, es: seq<Event>, id: int, i: nat, j: nat): nat
    requires |ys| == |es| + 1 && i <= j < |ys|
    decreases j - i
  {
    if i == j then 0
    else (if WritesActive(ys[j - 1], es[j - 1], id) then 1 else 0) + ActiveWrites(ys, es, id, i, j - 1)
  }

  /** Who writes "active": a door call at its last gate, which is then no longer ready. */
  lemma ActiveWriter(k: Call, t: Tables, e: Env, id: int)
    requires Fits(k.q, k.pc) && Act(k.q, k.pc, t, e) == Activate(id, e.now)
    ensures IsReady(k, id) && !IsReady(k.(pc := Goto(k.q, k.pc, t, e)), id)
  {}

  /** With the appliance no longer pending, no call becomes ready. */
  lemma NoneBecomesReady(k: Call, t: Tables, e: Env, id: int)
    requires Fits(k.q, k.pc) && !k.pc.End?
    requires !(id in t.rows && t.rows[id].status == Pending)
    requires IsReady(k.(pc := Goto(k.q, k.pc, t, e)), id)
    ensures IsReady(k, id)
  {}

  lemma SmallerSet(a: set<nat>, b: set<nat>)
    requires a <= b
    ensures |a| <= |b| && (a != b ==> |a| < |b|)
  {
    assert b == a + (b - a);
    assert |b| == |a| + |b - a|;
    assert a != b ==> b - a != {};
  }

  lemma ReadyStep(y: System, v: Event, id: int)
    requires Can(y, v) && AllFit(y) && !StatusIs(y, id, Pending)
    ensures |Ready(Do(y, v), id)| + (if WritesActive(y, v, id) then 1 else 0) <= |Ready(y, id)|
  {
    var z := Do(y, v);
    if v.Turn? {
      var k := y.calls[v.c];
      assert FitCall(k);
      if IsReady(z.calls[v.c], id) {
        NoneBecomesReady(k, y.t, v.e, id);
      }
      if WritesActive(y, v, id) {
        ActiveWriter(k, y.t, v.e, id);
        assert v.c in Ready(y, id) && v.c !in Ready(z, id);
      }
    }
    assert Ready(z, id) <= Ready(y, id);
    SmallerSet(Ready(z, id), Ready(y, id));
  }

  /** Draining: once an appliance has left "pending", later writes of "active" number at most the
      calls that had already passed their check. */
  lemma {:induction false} ActiveWritesDrain(ys: seq<System>, es: seq<Event>, id: int, i: nat, j: nat)
    requires Run(ys, es) && i <= j < |ys|
    requires id in ys[i].t.rows && ys[i].t.rows[id].status != Pending
    ensures ActiveWrites(ys, es, id, i, j) + |Ready(ys[j], id)| <= |Ready(ys[i], id)|
    decreases j
  {
    hide Goto, Act, Apply, Record, Do, Begin;
    if i < j {
      ActiveWritesDrain(ys, es, id, i, j - 1);
      assert StepAt(ys, es, j - 1);
      CallsFit(ys, es, j - 1);
      RowsKeepIdentity(ys, es, id, i, j - 1);
      ReadyStep(ys[j - 1], es[j - 1], id);
    }
  }

  /** Every write of "active" belongs to a Claim or EnrollRedeem that itself read "pending". */
  lemma ActiveWriterSawPending(ys: seq<System>, es: seq<Event>, id: int, j: nat) returns (i: nat)
    requires Run(ys, es) && j < |es| && WritesActive(ys[j], es[j], id)
    ensures i < j && es[i].Turn? && es[i].c == es[j].c && StatusIs(ys[i], id, Pending)
    ensures es[j].c in ys[i].calls && Door(ys[i].calls[es[j].c].q) && ys[i].calls[es[j].c].pc.LoadPending?
  {
    hide Goto, Apply, Record, Do;
    assert StepAt(ys, es, j);
    CallsFit(ys, es, j);
    var k := ys[j].calls[es[j].c];
    assert FitCall(k);
    ActiveWriter(k, ys[j].t, es[j].e, id);
    i := Credentials.PassedCheck(ys, es, es[j].c, j);
  }

  // ---------- Revoke is final exactly when no claim is past its check ----------

  /** In every continuation the appliance stays revoked. */
  ghost predicate RevokedForGood(y: System, id: int) {
    forall ys, es, j :: Path(ys, es) && ys[0] == y && 0 <= j < |ys| ==> StatusIs(ys[j], id, Revoked)
  }

  lemma {:induction false} QuietRevokeStays(ys: seq<System>, es: seq<Event>, id: int, j: nat)
    requires Path(ys, es) && j < |ys| && AllFit(ys[0]) && Registry(ys[0]) && 0 < ys[0].t.nextId
    requires StatusIs(ys[0], id, Revoked) && Ready(ys[0], id) == {}
    ensures AllFit(ys[j]) && Registry(ys[j]) && 0 < ys[j].t.nextId
    ensures StatusIs(ys[j], id, Revoked) && Ready(ys[j], id) == {}
    decreases j
  {
    hide Goto, Apply, Record, Begin;
    if j > 0 {
      QuietRevokeStays(ys, es, id, j - 1);
      var y, v := ys[j - 1], es[j - 1];
      assert StepAt(ys, es, j - 1);
      FitStep(y, v);
      RegistryStep(y, v);
      RowStep(y, v, id);
      ReadyStep(y, v, id);
      if v.Turn? {
        assert FitCall(y.calls[v.c]);
        assert v.c !in Ready(y, id);
      }
    }
  }

  ghost function MaxLength(drawn: set<string>): nat
    ensures forall n :: n in drawn ==> |n| <= MaxLength(drawn)
  {
    if drawn == {} then 0
    else
      var n :| n in drawn;
      var rest := MaxLength(drawn - {n});
      if |n| > rest then |n| else rest
  }

  lemma FreshNonce(drawn: set<string>) returns (n: string)
    ensures IsNonce(n) && n !in drawn
  {
    n := seq(MaxLength(drawn) + 1, _ => '0');
  }

  /** Any call that has not responded can take its next step, at any later time and with any fault, lifetime, label
      and registry. */
  lemma AnyTurn(y: System, c: nat, fail: bool, wait: nat, ttl: int, hostLabel: string, registry: UserRegistry)
    returns (v: Event)
    requires c in y.calls && !y.calls[c].pc.End?
    ensures v.Turn? && v.c == c && Can(y, v)
    ensures v.e == Env(fail, y.clock + wait, v.e.nonce, ttl, hostLabel, registry)
  {
    var n := FreshNonce(y.h.drawn);
    v := Turn(c, Env(fail, y.clock + wait, n, ttl, hostLabel, registry));
  }

  /** An undisturbed, fault-free step of one call. */
  lemma NextTurn(y: System, c: nat) returns (v: Event)
    requires c in y.calls && !y.calls[c].pc.End?
    ensures v.Turn? && v.c == c && !v.e.fail && Can(y, v)
  {
    v := AnyTurn(y, c, false, 0, 0, "", (group, user) => Unreachable);
  }

  lemma ReadyStepsOn(k: Call, t: Tables, e: Env, id: int)
    requires IsReady(k, id) && id in t.rows && t.rows[id].status == Revoked && !e.fail
    ensures var p, u := Goto(k.q, k.pc, t, e), After(k.q, k.pc, t, e);
            && id in u.rows
            && (if k.pc.PutActive? then u.rows[id].status == Active
                else IsReady(k.(pc := p), id) && u.rows[id].status == Revoked)
  {
    match k.pc
    case PutSecret(_, _) =>
    case PutHash(_, _) =>
    case PutActive(_, _) =>
  }

  lemma PathExtends(y: System, v: Event, ys: seq<System>, es: seq<Event>)
    requires Can(y, v) && Path(ys, es) && ys[0] == Do(y, v)
    ensures Path([y] + ys, [v] + es)
  {
    hide Goto, Act, Apply, Record, Do, Begin;
    forall i | 0 <= i < |[v] + es| ensures StepAt([y] + ys, [v] + es, i) {
      if i > 0 {
        assert StepAt(ys, es, i - 1);
      }
    }
  }

  lemma {:induction false} ReadyCallRevives(y: System, id: int, c: nat) returns (ys: seq<System>, es: seq<Event>)
    requires c in Ready(y, id) && StatusIs(y, id, Revoked)
    ensures Path(ys, es) && ys[0] == y && StatusIs(ys[|es|], id, Active)
    decreases Rank(y.calls[c].pc)
  {
    var v := NextTurn(y, c);
    var k := y.calls[c];
    var z := Do(y, v);
    ReadyStepsOn(k, y.t, v.e, id);
    StepsDown(k.q, k.pc, y.t, v.e);
    CallStep(y, v, c);
    if k.pc.PutActive? {
      ys, es := [z], [];
    } else {
      assert c in Ready(z, id);
      ys, es := ReadyCallRevives(z, id, c);
    }
    PathExtends(y, v, ys, es);
    ys, es := [y] + ys, [v] + es;
  }

  /** A revoked appliance stays revoked whatever happens next if and only if no Claim or EnrollRedeem
      of it is past its check: MarkApplianceClaimed updates by id alone. */
  lemma RevokeFinalIffDrained(ys: seq<System>, es: seq<Event>, i: nat, id: int)
    requires Run(ys, es) && i < |ys| && StatusIs(ys[i], id, Revoked)
    ensures RevokedForGood(ys[i], id) <==> Ready(ys[i], id) == {}
  {
    var y := ys[i];
    CallsFit(ys, es, i);
    AlwaysRegistry(ys, es, i);
    if Ready(y, id) == {} {
      forall ys', es', j | Path(ys', es') && ys'[0] == y && 0 <= j < |ys'| ensures StatusIs(ys'[j], id, Revoked) {
        QuietRevokeStays(ys', es', id, j);
      }
    } else {
      var c :| c in Ready(y, id);
      var ys', es' := ReadyCallRevives(y, id, c);
      assert !StatusIs(ys'[|es'|], id, Revoked);
    }
  }
}
