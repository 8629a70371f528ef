/** Runs in which calls changing the same appliance do not overlap, with faults anywhere. */
module Serial {
  import opened Wrappers
  import opened Tokens
  import opened Persistence
  import opened Protocol
  import opened Runs
  import opened Freshness
  import opened Lifecycle

  /** All that concerns one appliance: its row, its cluster secret, and its part of the history. */
  datatype View = View(row: Option<Row>, secret: Option<string>, issued: seq<string>, claimed: nat, stale: bool)

  function ViewOf(y: System, id: int): View {
    View(if id in y.t.rows then Some(y.t.rows[id]) else None,
         if id in y.t.secrets then Some(y.t.secrets[id]) else None,
         Issued(y.h, id), y.h.claimed[id], id in y.h.stale)
  }

  predicate HasStatus(v: View, s: Status) {
    v.row.Some? && v.row.value.status == s
  }

  predicate Stores(v: View, x: string) {
    v.row.Some? && v.row.value.secretHash == Some(Sha256(x))
  }

  /** A claim has activated the appliance and has only clean-up left before it responds. */
  predicate Finishing(k: Call) {
    k.pc.DropClaim? || k.pc.DropCode?
  }

  /** What a busy call may rely on. */
  predicate Sees(v: View, k: Call) {
    match k.pc
    case PutSecret(x, _) => HasStatus(v, if Door(k.q) then Pending else Active)
    case PutHash(x, _) => HasStatus(v, if Door(k.q) then Pending else Active) && v.secret == Some(x)
    case PutActive(x, _) => HasStatus(v, Pending) && v.secret == Some(x) && Stores(v, x)
    case DropClaim(x, _) => HasStatus(v, Active) && v.secret == Some(x) && Stores(v, x) && v.issued == []
      && v.claimed == 0
    case DropCode(x, _) => HasStatus(v, Active) && v.secret == Some(x) && Stores(v, x) && v.issued == []
      && v.claimed == 0
    case RevokeSecret => HasStatus(v, Revoked)
    case RevokeHash => HasStatus(v, Revoked)
    case RevokeClaim => HasStatus(v, Revoked)
    case _ => true
  }

  /** What holds of an appliance, given whether a claim of it is finishing and a rotation is between its two writes. */
  predicate Sound(v: View, finishing: bool, rotating: bool) {
    && v.claimed <= 1
    && (v.row.None? || HasStatus(v, Pending) ==> v.issued == [] && v.claimed == 0 && !v.stale)
    && (HasStatus(v, Active) ==>
          && v.secret.Some?
          && v.row.value.secretHash.Some?
          && (!finishing ==> v.issued != [] && Stores(v, v.issued[|v.issued| - 1]) && v.claimed == 1)
          && (!rotating ==> (v.stale <==> !Stores(v, v.secret.value))))
  }

  /** One step of a busy call, seen from its own appliance. */
  function ViewAfter(v: View, k: Call, f: Effect, p: Pc): View {
    var won := p.End? && p.response.Secret?;
    View(
      if v.row.None? then None else
        match f
        case SetStatus(_, s) => Some(v.row.value.(status := s))
        case Activate(_, now) => Some(v.row.value.(status := Active, claimedAt := Some(now)))
        case SetHash(_, h) => Some(v.row.value.(secretHash := h))
        case _ => v.row,
      if f.SetSecret? then Some(f.value) else if f.DelSecret? then None else v.secret,
      if won then v.issued + [p.response.secret] else v.issued,
      if won && Door(k.q) then v.claimed + 1 else v.claimed,
      if !Rotating(k) then v.stale else f.Nothing?)
  }

  /** Effects on a row or a cluster secret. */
  predicate Touches(f: Effect) {
    f.SetStatus? || f.Activate? || f.SetHash? || f.SetSecret? || f.DelSecret?
  }

  /** Steps that matter to some appliance's view. */
  predicate Matters(k: Call, f: Effect, p: Pc) {
    Touches(f) || Rotating(k) || (p.End? && p.response.Secret?)
  }

  lemma OnlyBusyMatters(k: Call, t: Tables, e: Env)
    requires Fits(k.q, k.pc) && !k.pc.End?
    ensures var f, p := Act(k.q, k.pc, t, e), Goto(k.q, k.pc, t, e);
            && (Matters(k, f, p) ==> Busy(k))
            && (Touches(f) ==> f.id == Subject(k.q))
            && (f.AddRow? ==> !Busy(k))
  {}

  lemma ViewMoves(y: System, c: nat, p: Pc, f: Effect, e: Env)
    requires c in y.calls && !f.AddRow? && (Touches(f) ==> f.id == Subject(y.calls[c].q))
    ensures var id := Subject(y.calls[c].q);
            ViewOf(Moved(y, c, p, f, e), id) == ViewAfter(ViewOf(y, id), y.calls[c], f, p)
  {}

  lemma ViewStays(y: System, c: nat, p: Pc, f: Effect, e: Env, id: int)
    requires c in y.calls && (Touches(f) ==> f.id == Subject(y.calls[c].q))
    requires Matters(y.calls[c], f, p) ==> Subject(y.calls[c].q) != id
    requires f.AddRow? ==> id != y.t.nextId
    ensures ViewOf(Moved(y, c, p, f, e), id) == ViewOf(y, id)
  {}

  lemma ViewBorn(y: System, c: nat, p: Pc, f: Effect, e: Env)
    requires c in y.calls && f.AddRow? && !Matters(y.calls[c], f, p)
    ensures var v, v' := ViewOf(y, y.t.nextId), ViewOf(Moved(y, c, p, f, e), y.t.nextId);
            HasStatus(v', Pending) && v' == v.(row := v'.row)
  {}

  lemma SoundDoorEarly(v: View, k: Call, t: Tables, e: Env)
    requires Busy(k) && Fits(k.q, k.pc) && Door(k.q) && Rank(k.pc) >= 4
    requires v.row == if Subject(k.q) in t.rows then Some(t.rows[Subject(k.q)]) else None
    requires Sees(v, k) && Sound(v, Finishing(k), Rotating(k))
    requires k.pc.PutHash? ==> !Stores(v, k.pc.secret)
    ensures var p, f := Goto(k.q, k.pc, t, e), Act(k.q, k.pc, t, e);
            var v', k' := ViewAfter(v, k, f, p), k.(pc := p);
            Sees(v', k') && Sound(v', Finishing(k'), Rotating(k'))
  {
    hide Listing, LabelTaken, Redeemable, ApplianceSecret, Settable, BearerToken;
  }

  lemma SoundDoorLate(v: View, k: Call, t: Tables, e: Env)
    requires Busy(k) && Fits(k.q, k.pc) && Door(k.q) && Rank(k.pc) < 4
    requires v.row == if Subject(k.q) in t.rows then Some(t.rows[Subject(k.q)]) else None
    requires Sees(v, k) && Sound(v, Finishing(k), Rotating(k))
    requires k.pc.PutHash? ==> !Stores(v, k.pc.secret)
    ensures var p, f := Goto(k.q, k.pc, t, e), Act(k.q, k.pc, t, e);
            var v', k' := ViewAfter(v, k, f, p), k.(pc := p);
            Sees(v', k') && Sound(v', Finishing(k'), Rotating(k'))
  {
    hide Listing, LabelTaken, Redeemable, ApplianceSecret, Settable, BearerToken;
  }

  lemma SoundRotationEarly(v: View, k: Call, t: Tables, e: Env)
    requires Busy(k) && Fits(k.q, k.pc) && (k.q.RotateSecret? || k.q.RotateOwnSecret?) && Rank(k.pc) >= 6
    requires v.row == if Subject(k.q) in t.rows then Some(t.rows[Subject(k.q)]) else None
    requires Sees(v, k) && Sound(v, Finishing(k), Rotating(k))
    requires k.pc.PutHash? ==> !Stores(v, k.pc.secret)
    ensures var p, f := Goto(k.q, k.pc, t, e), Act(k.q, k.pc, t, e);
            var v', k' := ViewAfter(v, k, f, p), k.(pc := p);
            Sees(v', k') && Sound(v', Finishing(k'), Rotating(k'))
  {
    hide Listing, LabelTaken, Redeemable, ApplianceSecret, Settable, BearerToken, Markable;
  }

  lemma SoundRotationLate(v: View, k: Call, t: Tables, e: Env)
    requires Busy(k) && Fits(k.q, k.pc) && (k.q.RotateSecret? || k.q.RotateOwnSecret?) && Rank(k.pc) < 6
    requires v.row == if Subject(k.q) in t.rows then Some(t.rows[Subject(k.q)]) else None
    requires Sees(v, k) && Sound(v, Finishing(k), Rotating(k))
    requires k.pc.PutHash? ==> !Stores(v, k.pc.secret)
    ensures var p, f := Goto(k.q, k.pc, t, e), Act(k.q, k.pc, t, e);
            var v', k' := ViewAfter(v, k, f, p), k.(pc := p);
            Sees(v', k') && Sound(v', Finishing(k'), Rotating(k'))
  {
    hide Listing, LabelTaken, Redeemable, ApplianceSecret, Settable, BearerToken, Markable;
  }

  lemma SoundRevoke(v: View, k: Call, t: Tables, e: Env)
    requires Busy(k) && Fits(k.q, k.pc) && k.q.Revoke?
    requires v.row == if Subject(k.q) in t.rows then Some(t.rows[Subject(k.q)]) else None
    requires Sees(v, k) && Sound(v, Finishing(k), Rotating(k))
    requires k.pc.PutHash? ==> !Stores(v, k.pc.secret)
    ensures var p, f := Goto(k.q, k.pc, t, e), Act(k.q, k.pc, t, e);
            var v', k' := ViewAfter(v, k, f, p), k.(pc := p);
            Sees(v', k') && Sound(v', Finishing(k'), Rotating(k'))
  {
    hide Listing, LabelTaken, Redeemable, ApplianceSecret;
  }

  /** The heart of the matter: one step of one handler keeps its appliance sound. */
  lemma SoundStep(v: View, k: Call, t: Tables, e: Env)
    requires Busy(k) && Fits(k.q, k.pc)
    requires v.row == if Subject(k.q) in t.rows then Some(t.rows[Subject(k.q)]) else None
    requires Sees(v, k) && Sound(v, Finishing(k), Rotating(k))
    requires k.pc.PutHash? ==> !Stores(v, k.pc.secret)
    ensures var p, f := Goto(k.q, k.pc, t, e), Act(k.q, k.pc, t, e);
            var v', k' := ViewAfter(v, k, f, p), k.(pc := p);
            Sees(v', k') && Sound(v', Finishing(k'), Rotating(k'))
  {
    hide Goto, Act, Sees, Sound, Stores, Fits, ViewAfter, Rank;
    if Door(k.q) {
      if Rank(k.pc) >= 4 {
        SoundDoorEarly(v, k, t, e);
      } else {
        SoundDoorLate(v, k, t, e);
      }
    } else if k.q.Revoke? {
      SoundRevoke(v, k, t, e);
    } else if Rank(k.pc) >= 6 {
      SoundRotationEarly(v, k, t, e);
    } else {
      SoundRotationLate(v, k, t, e);
    }
  }

  predicate On(k: Call, id: int) {
    Busy(k) && Subject(k.q) == id
  }

  ghost predicate SomeFinishing(y: System, id: int) {
    exists c :: c in y.calls && On(y.calls[c], id) && Finishing(y.calls[c])
  }

  ghost predicate SomeRotating(y: System, id: int) {
    exists c :: c in y.calls && On(y.calls[c], id) && Rotating(y.calls[c])
  }

  predicate SeesOwn(y: System, c: nat) {
    c in y.calls ==> Sees(ViewOf(y, Subject(y.calls[c].q)), y.calls[c])
  }

  ghost predicate SoundAt(y: System, id: int) {
    Sound(ViewOf(y, id), SomeFinishing(y, id), SomeRotating(y, id))
  }

  ghost predicate AllSound(y: System) {
    (forall c :: SeesOwn(y, c)) && (forall id :: SoundAt(y, id))
  }

  /** Under Exclusive, the one busy call on an appliance decides both flags. */
  lemma FlagsOf(y: System, c: nat, id: int)
    requires Exclusive(y) && AllFit(y) && c in y.calls && On(y.calls[c], id)
    ensures SomeFinishing(y, id) <==> Finishing(y.calls[c])
    ensures SomeRotating(y, id) <==> Rotating(y.calls[c])
  {}

  lemma FlagsAfter(y: System, c: nat, p: Pc, f: Effect, e: Env, id: int)
    requires Exclusive(y) && AllFit(y) && c in y.calls && On(y.calls[c], id) && FitCall(y.calls[c].(pc := p))
    ensures var z, k := Moved(y, c, p, f, e), y.calls[c].(pc := p);
            && (SomeFinishing(z, id) <==> Finishing(k))
            && (SomeRotating(z, id) <==> Rotating(k))
  {
    var z, k := Moved(y, c, p, f, e), y.calls[c].(pc := p);
    assert z.calls[c] == k;
    assert forall d :: d in z.calls && d != c ==> z.calls[d] == y.calls[d] && !On(z.calls[d], id);
    if Finishing(k) || Rotating(k) {
      assert On(z.calls[c], id);
    }
  }

  lemma FlagsStay(y: System, c: nat, p: Pc, f: Effect, e: Env, id: int)
    requires c in y.calls && !y.calls[c].pc.End? && !On(y.calls[c], id)
    ensures var z := Moved(y, c, p, f, e);
            && (SomeFinishing(z, id) <==> SomeFinishing(y, id))
            && (SomeRotating(z, id) <==> SomeRotating(y, id))
  {
    var z := Moved(y, c, p, f, e);
    assert forall d :: d in y.calls && d != c ==> z.calls[d] == y.calls[d];
    assert !On(z.calls[c], id);
  }

  lemma SoundOpen(y: System, v: Event)
    requires v.Open? && Can(y, v) && AllSound(y) && AllFit(y)
    ensures AllSound(Do(y, v))
  {
    hide Goto, Act, Apply, Record;
    var z := Do(y, v);
    assert z.calls[v.c] == Call(v.q, Begin(v.q));
    assert !Finishing(z.calls[v.c]) && !Rotating(z.calls[v.c]);
    assert forall d :: d in y.calls ==> z.calls[d] == y.calls[d];
    assert forall id :: ViewOf(z, id) == ViewOf(y, id);
    forall c ensures SeesOwn(z, c) {
      assert SeesOwn(y, c);
    }
    forall id ensures SoundAt(z, id) {
      assert SoundAt(y, id);
      assert SomeFinishing(z, id) <==> SomeFinishing(y, id);
      assert SomeRotating(z, id) <==> SomeRotating(y, id);
    }
  }

  /** A call of another appliance, or one that changes none, leaves the appliance as it was. */
  lemma SoundElsewhere(y: System, c: nat, e: Env, id: int)
    requires Can(y, Turn(c, e)) && AllFit(y) && Registry(y) && SoundAt(y, id) && !On(y.calls[c], id)
    ensures SoundAt(Do(y, Turn(c, e)), id)
    ensures id in y.t.rows ==> ViewOf(Do(y, Turn(c, e)), id) == ViewOf(y, id)
  {
    var k := y.calls[c];
    var p, f := Goto(k.q, k.pc, y.t, e), Act(k.q, k.pc, y.t, e);
    assert FitCall(k);
    OnlyBusyMatters(k, y.t, e);
    FlagsStay(y, c, p, f, e, id);
    if f.AddRow? && id == y.t.nextId {
      ViewBorn(y, c, p, f, e);
    } else {
      ViewStays(y, c, p, f, e, id);
    }
  }

  /** The call's own appliance. */
  lemma SoundHere(y: System, c: nat, e: Env)
    requires Can(y, Turn(c, e)) && Fresh(y) && Exclusive(y) && AllSound(y) && Busy(y.calls[c])
    ensures var z, id := Do(y, Turn(c, e)), Subject(y.calls[c].q); SeesOwn(z, c) && SoundAt(z, id)
  {
    var k := y.calls[c];
    var p, f, id := Goto(k.q, k.pc, y.t, e), Act(k.q, k.pc, y.t, e), Subject(k.q);
    assert FitCall(k) && SeesOwn(y, c) && SoundAt(y, id) && HeldFresh(y, c) && RowHashFits(y, id);
    FlagsOf(y, c, id);
    OnlyBusyMatters(k, y.t, e);
    SoundStep(ViewOf(y, id), k, y.t, e);
    FitsStays(k.q, k.pc, y.t, e);
    ViewMoves(y, c, p, f, e);
    FlagsAfter(y, c, p, f, e, id);
  }

  lemma SeesIdle(k: Call, v: View)
    requires FitCall(k) && !Busy(k)
    ensures Sees(v, k)
  {}

  lemma SeesElsewhere(y: System, c: nat, e: Env, d: nat)
    requires Can(y, Turn(c, e)) && AllFit(y) && AllFit(Do(y, Turn(c, e))) && Registry(y) && Exclusive(y) && AllSound(y)
    requires d != c || !Busy(y.calls[c])
    ensures SeesOwn(Do(y, Turn(c, e)), d)
  {
    var z := Do(y, Turn(c, e));
    CallStep(y, Turn(c, e), d);
    if d in z.calls {
      assert FitCall(z.calls[d]);
      if Busy(z.calls[d]) {
        assert d != c && z.calls[d] == y.calls[d];
        var id := Subject(y.calls[d].q);
        assert SeesOwn(y, d) && SoundAt(y, id);
        SoundElsewhere(y, c, e, id);
        if id !in y.t.rows {
          NoneSeenWithoutRow(ViewOf(y, id), ViewOf(z, id), y.calls[d]);
        }
      } else {
        SeesIdle(z.calls[d], ViewOf(z, Subject(z.calls[d].q)));
      }
    }
  }

  lemma NoneSeenWithoutRow(v: View, w: View, k: Call)
    requires v.row.None? && Sees(v, k)
    ensures Sees(w, k)
  {}

  lemma SoundMove(y: System, v: Event)
    requires Can(y, v) && Fresh(y) && Registry(y) && Exclusive(y) && AllSound(y)
    ensures AllSound(Do(y, v))
  {
    if v.Open? {
      SoundOpen(y, v);
    } else {
      var c, e := v.c, v.e;
      FitStep(y, v);
      forall d ensures SeesOwn(Do(y, v), d) {
        if d == c && Busy(y.calls[c]) {
          SoundHere(y, c, e);
        } else {
          SeesElsewhere(y, c, e, d);
        }
      }
      forall id ensures SoundAt(Do(y, v), id) {
        assert SoundAt(y, id);
        if On(y.calls[c], id) {
          SoundHere(y, c, e);
        } else {
          SoundElsewhere(y, c, e, id);
        }
      }
    }
  }

  lemma {:induction false} AlwaysSound(ys: seq<System>, es: seq<Event>, j: nat)
    requires Run(ys, es) && Serialised(ys) && j < |ys|
    ensures AllSound(ys[j])
    decreases j
  {
    hide Goto, Act, Apply, Record, Do, Begin;
    if j > 0 {
      AlwaysSound(ys, es, j - 1);
      AlwaysFresh(ys, es, j - 1);
      AlwaysRegistry(ys, es, j - 1);
      assert StepAt(ys, es, j - 1);
      SoundMove(ys[j - 1], es[j - 1]);
    }
  }
}
