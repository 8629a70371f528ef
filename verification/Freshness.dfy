/** What fresh random values buy, under unrestricted interleaving: no credential hash is ever written twice. */
module Freshness {
  import opened Wrappers
  import opened Tokens
  import opened Persistence
  import opened Protocol
  import opened Runs

  /** The hash a call has generated a value for but not yet written. */
  function Held(p: Pc): set<Hash> {
    match p
    case PutSecret(x, _) => {Sha256(x)}
    case PutHash(x, _) => {Sha256(x)}
    case SaveClaim(_, raw, _, _) => {Sha256(raw)}
    case LoginCutoff(raw, _, _) => {Sha256(raw)}
    case LoginPrune(_, raw, _, _) => {Sha256(raw)}
    case LoginInsert(raw, _, _) => {Sha256(raw)}
    case _ => {}
  }

  predicate SecretFor(id: int, x: string) {
    x == ApplianceSecret(id, NonceOf(x))
  }

  predicate SecretFits(k: Call) {
    match k.pc
    case PutSecret(x, _) => SecretFor(Subject(k.q), x)
    case PutHash(x, _) => SecretFor(Subject(k.q), x)
    case _ => true
  }

  predicate Drawn(h: Hash, drawn: set<string>) {
    NonceOf(h.preimage) in drawn
  }

  predicate RowHashFits(y: System, id: int) {
    id in y.t.rows && y.t.rows[id].secretHash.Some? ==>
      && y.t.rows[id].secretHash.value in y.h.published
      && SecretFor(id, y.t.rows[id].secretHash.value.preimage)
  }

  predicate HeldFresh(y: System, c: nat) {
    c in y.calls ==>
      && SecretFits(y.calls[c])
      && forall h :: h in Held(y.calls[c].pc) ==> Drawn(h, y.h.drawn) && h !in y.h.published
  }

  ghost predicate Fresh(y: System) {
    && AllFit(y)
    && (forall n :: n in y.h.drawn ==> IsNonce(n))
    && (forall h :: h in y.h.published ==> Drawn(h, y.h.drawn))
    && (forall c :: HeldFresh(y, c))
    && (forall c, d :: c in y.calls && d in y.calls && c != d ==> Held(y.calls[c].pc) !! Held(y.calls[d].pc))
    && (forall id :: RowHashFits(y, id))
    && (forall id :: id in y.t.claims ==> y.t.claims[id].tokenHash in y.h.published)
    && (forall h :: h in y.h.grants ==> h in y.h.published)
  }

  /** What one step may do with generated values. */
  ghost predicate Generates(k: Call, p: Pc, f: Effect, e: Env) {
    && Publishes(f) <= Held(k.pc)
    && (Held(p) <= Held(k.pc) - Publishes(f) || forall h :: h in Held(p) ==> NonceOf(h.preimage) == e.nonce)
    && (f.SetHash? && f.hash.Some? ==> k.pc.PutHash? && f == SetHash(Subject(k.q), Some(Sha256(k.pc.secret))))
    && (SecretFits(k) ==> SecretFits(k.(pc := p)))
  }

  lemma StepPublishes(k: Call, t: Tables, e: Env)
    ensures Publishes(Act(k.q, k.pc, t, e)) <= Held(k.pc)
    ensures var f := Act(k.q, k.pc, t, e);
            f.SetHash? && f.hash.Some? ==> k.pc.PutHash? && f == SetHash(Subject(k.q), Some(Sha256(k.pc.secret)))
  {}

  /** A call generates a value only when it holds none, and drops the one it holds when it writes it. */
  lemma StepHolds(k: Call, t: Tables, e: Env, p: Pc)
    requires p == Goto(k.q, k.pc, t, e)
    ensures || Held(p) == {}
            || (Held(p) == Held(k.pc) && Publishes(Act(k.q, k.pc, t, e)) == {})
            || Held(p) == {Sha256(ApplianceSecret(Subject(k.q), e.nonce))}
            || Held(p) == {Sha256(e.nonce)}
  {
    hide Goto, Act, Held, Publishes, ApplianceSecret;
    if Rank(k.pc) < 5 {
      HoldsLate(k, t, e, p);
    } else {
      HoldsEarly(k, t, e, p);
    }
  }

  lemma HoldsLate(k: Call, t: Tables, e: Env, p: Pc)
    requires p == Goto(k.q, k.pc, t, e) && Rank(k.pc) < 5
    ensures || Held(p) == {}
            || (Held(p) == Held(k.pc) && Publishes(Act(k.q, k.pc, t, e)) == {})
            || Held(p) == {Sha256(ApplianceSecret(Subject(k.q), e.nonce))}
            || Held(p) == {Sha256(e.nonce)}
  {
    hide Listing, LabelTaken, Redeemable, Markable, Settable, ApplianceSecret, Door;
  }

  lemma HoldsEarly(k: Call, t: Tables, e: Env, p: Pc)
    requires p == Goto(k.q, k.pc, t, e) && Rank(k.pc) >= 5
    ensures || Held(p) == {}
            || (Held(p) == Held(k.pc) && Publishes(Act(k.q, k.pc, t, e)) == {})
            || Held(p) == {Sha256(ApplianceSecret(Subject(k.q), e.nonce))}
            || Held(p) == {Sha256(e.nonce)}
  {
    hide Listing, LabelTaken, Redeemable, Markable, Settable, ApplianceSecret, Door;
  }

  lemma StepKeepsSecret(k: Call, t: Tables, e: Env, p: Pc)
    requires p == Goto(k.q, k.pc, t, e)
    ensures p.PutSecret? ==> p.secret == ApplianceSecret(Subject(k.q), e.nonce)
    ensures p.PutHash? ==> k.pc.PutSecret? && p.secret == k.pc.secret
  {}

  lemma StepGenerates(k: Call, t: Tables, e: Env)
    requires IsNonce(e.nonce)
    ensures Generates(k, Goto(k.q, k.pc, t, e), Act(k.q, k.pc, t, e), e)
  {
    NonceOfGenerated(Subject(k.q), e.nonce);
    StepPublishes(k, t, e);
    StepHolds(k, t, e, Goto(k.q, k.pc, t, e));
    StepKeepsSecret(k, t, e, Goto(k.q, k.pc, t, e));
  }

  /** A value drawn now differs from every value drawn before. */
  lemma NewIsNew(y: System, c: nat, p: Pc, f: Effect, e: Env, h: Hash)
    requires Fresh(y) && Can(y, Turn(c, e)) && Generates(y.calls[c], p, f, e)
    requires h in Held(p)
    ensures NonceOf(h.preimage) in y.h.drawn + {e.nonce}
    ensures h !in y.h.published + Publishes(f)
    ensures forall d :: d in y.calls && d != c ==> h !in Held(y.calls[d].pc)
  {
    var k := y.calls[c];
    assert HeldFresh(y, c);
    forall d | d in y.calls && d != c ensures h !in Held(y.calls[d].pc) {
      assert HeldFresh(y, d);
      if h in Held(k.pc) {
        assert Held(k.pc) !! Held(y.calls[d].pc);
      } else {
        assert NonceOf(h.preimage) == e.nonce;
      }
    }
  }

  lemma HeldMoves(y: System, c: nat, p: Pc, f: Effect, e: Env, d: nat)
    requires Fresh(y) && Can(y, Turn(c, e)) && Generates(y.calls[c], p, f, e)
    ensures HeldFresh(Moved(y, c, p, f, e), d)
  {
    hide Apply, Publishes, Held, SecretFits, RowHashFits, AllFit;
    assert HeldFresh(y, d) && HeldFresh(y, c);
    var z := Moved(y, c, p, f, e);
    assert z.calls == y.calls[c := y.calls[c].(pc := p)] && z.h.drawn == y.h.drawn + {e.nonce};
    assert z.h.published == y.h.published + Publishes(f);
    if d == c {
      forall h | h in Held(p) ensures Drawn(h, y.h.drawn + {e.nonce}) && h !in y.h.published + Publishes(f) {
        NewIsNew(y, c, p, f, e, h);
      }
    } else if d in y.calls {
      assert Held(y.calls[c].pc) !! Held(y.calls[d].pc);
    }
  }

  lemma HashAfter(t: Tables, f: Effect, id: int)
    ensures id in Apply(t, f).rows && Apply(t, f).rows[id].secretHash.Some? ==>
              || (id in t.rows && t.rows[id].secretHash == Apply(t, f).rows[id].secretHash)
              || f == SetHash(id, Apply(t, f).rows[id].secretHash)
  {}

  lemma RowHashMoves(y: System, c: nat, p: Pc, f: Effect, e: Env, id: int)
    requires Can(y, Turn(c, e)) && Generates(y.calls[c], p, f, e) && RowHashFits(y, id) && SecretFits(y.calls[c])
    ensures RowHashFits(Moved(y, c, p, f, e), id)
  {
    hide Apply;
    HashAfter(y.t, f, id);
  }

  lemma ClaimHashAfter(t: Tables, f: Effect, id: int)
    ensures id in Apply(t, f).claims ==>
              (id in t.claims && Apply(t, f).claims[id] == t.claims[id])
              || Apply(t, f).claims[id].tokenHash in Publishes(f)
  {}

  lemma GrantsPublished(y: System, c: nat, p: Pc, f: Effect, e: Env)
    requires c in y.calls && forall h :: h in y.h.grants ==> h in y.h.published
    ensures forall h :: h in Moved(y, c, p, f, e).h.grants ==> h in Moved(y, c, p, f, e).h.published
  {}

  lemma FreshMove(y: System, c: nat, p: Pc, f: Effect, e: Env)
    requires Fresh(y) && Can(y, Turn(c, e)) && FitCall(y.calls[c].(pc := p))
    requires Generates(y.calls[c], p, f, e)
    ensures Fresh(Moved(y, c, p, f, e))
  {
    hide Apply, Held, Publishes, RowHashFits, SecretFits, FitCall;
    var z := Moved(y, c, p, f, e);
    assert HeldFresh(y, c);
    GrantsPublished(y, c, p, f, e);
    forall id | id in z.t.claims ensures z.t.claims[id].tokenHash in z.h.published {
      ClaimHashAfter(y.t, f, id);
    }
    forall d ensures HeldFresh(z, d) {
      HeldMoves(y, c, p, f, e, d);
    }
    forall id ensures RowHashFits(z, id) {
      assert RowHashFits(y, id);
      RowHashMoves(y, c, p, f, e, id);
    }
    forall a, b | a in z.calls && b in z.calls && a != b ensures Held(z.calls[a].pc) !! Held(z.calls[b].pc) {
      forall h | h in Held(p) ensures forall d :: d in y.calls && d != c ==> h !in Held(y.calls[d].pc) {
        NewIsNew(y, c, p, f, e, h);
      }
    }
  }

  lemma FreshOpen(y: System, c: nat, q: Request)
    requires Can(y, Open(c, q)) && Fresh(y) && AllFit(Do(y, Open(c, q)))
    ensures Fresh(Do(y, Open(c, q)))
  {
    hide Goto, Act, Apply, AllFit, BearerToken, Drawn;
    var z := Do(y, Open(c, q));
    assert Held(Begin(q)) == {} && SecretFits(Call(q, Begin(q)));
    forall d ensures HeldFresh(z, d) {
      assert HeldFresh(y, d);
    }
    forall id ensures RowHashFits(z, id) {
      assert RowHashFits(y, id);
    }
  }

  lemma FreshStep(y: System, v: Event)
    requires Can(y, v) && Fresh(y)
    ensures Fresh(Do(y, v))
  {
    hide Goto, Act, Apply, Record, Begin, HeldFresh, RowHashFits, Generates, Held, FitCall;
    FitStep(y, v);
    match v
    case Open(c, q) => FreshOpen(y, c, q);
    case Turn(c, e) =>
      var k := y.calls[c];
      StepGenerates(k, y.t, e);
      assert FitCall(Do(y, v).calls[c]);
      FreshMove(y, c, Goto(k.q, k.pc, y.t, e), Act(k.q, k.pc, y.t, e), e);
  }

  lemma {:induction false} AlwaysFresh(ys: seq<System>, es: seq<Event>, j: nat)
    requires Run(ys, es) && j < |ys|
    ensures Fresh(ys[j])
    decreases j
  {
    hide Goto, Act, Apply, Record, Do, Begin;
    if j > 0 {
      AlwaysFresh(ys, es, j - 1);
      assert StepAt(ys, es, j - 1);
      FreshStep(ys[j - 1], es[j - 1]);
    }
  }
}
