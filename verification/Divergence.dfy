/** When deleting expired rows can be observed: exactly when an EnrollRedeem is stranded by it. */
module Divergence {
  import opened Tokens
  import opened Persistence
  import opened Protocol
  import opened Runs
  import opened Freshness
  import opened Expiry

  /** The runs of the claim: no claim token is re-issued, as no handler does, and every exchange code expires
      no later than the claim token it is pinned to. Calls may overlap. */
  ghost predicate Ordinary(ys: seq<System>, es: seq<Event>) {
    && Run(ys, es)
    && (forall i :: 0 <= i < |es| && es[i].Open? ==> !es[i].q.Reissue?)
    && (forall i :: 0 <= i < |ys| ==> PinsOutlive(ys[i]))
  }

  // ---------- the condition, read off the service's own events ----------

  /** A Claim deletes, for expiry, the claim token of id with this hash. */
  predicate DropsExpired(y: System, v: Event, id: int, pin: Hash) {
    && v.Turn? && !v.e.fail && v.c in y.calls && y.calls[v.c].pc.ClaimDrop? && Subject(y.calls[v.c].q) == id
    && id in y.t.claims && y.t.claims[id].tokenHash == pin
  }

  /** A completed claim, or a Revoke, deletes the claim token of id for good reason. */
  predicate Withdraws(y: System, v: Event, id: int) {
    && v.Turn? && !v.e.fail && v.c in y.calls && (y.calls[v.c].pc.DropClaim? || y.calls[v.c].pc.RevokeClaim?)
    && Subject(y.calls[v.c].q) == id
  }

  /** The claim token with hash pin is gone at state j, and expiry was the only reason. */
  ghost predicate Orphaned(ys: seq<System>, es: seq<Event>, j: nat, id: int, pin: Hash)
    requires |ys| == |es| + 1 && j < |ys|
  {
    exists d :: 0 <= d < j && DropsExpired(ys[d], es[d], id, pin)
      && forall k :: d < k < j ==> !Withdraws(ys[k], es[k], id)
  }

  /** At event i an EnrollRedeem that has checked its code reads the claim table, the read does not fail, and
      the claim token its code is pinned to has been deleted for expiry meanwhile. */
  ghost predicate StrandedAt(ys: seq<System>, es: seq<Event>, i: nat)
    requires |ys| == |es| + 1 && i < |es|
  {
    var y, v := ys[i], es[i];
    && v.Turn? && !v.e.fail && v.c in y.calls && y.calls[v.c].pc.CodePin?
    && Subject(y.calls[v.c].q) !in y.t.claims
    && Orphaned(ys, es, i, Subject(y.calls[v.c].q), y.calls[v.c].pc.pin)
  }

  lemma OrphanedNext(ys: seq<System>, es: seq<Event>, j: nat, id: int, pin: Hash)
    requires |ys| == |es| + 1 && j < |es|
    ensures Orphaned(ys, es, j + 1, id, pin) <==>
              DropsExpired(ys[j], es[j], id, pin) || (Orphaned(ys, es, j, id, pin) && !Withdraws(ys[j], es[j], id))
  {
    hide DropsExpired, Withdraws;
    if Orphaned(ys, es, j, id, pin) && !Withdraws(ys[j], es[j], id) {
      var d :| 0 <= d < j && DropsExpired(ys[d], es[d], id, pin)
        && forall k :: d < k < j ==> !Withdraws(ys[k], es[k], id);
      assert forall k :: d < k < j + 1 ==> !Withdraws(ys[k], es[k], id);
    }
  }

  /** The keeper still has the token that the service lacks. */
  predicate OnlyKept(y: System, n: Keeper, id: int, pin: Hash) {
    PinMatches(n.t, id, pin) && id !in y.t.claims
  }

  lemma DeletesClaim(k: Call, t: Tables, e: Env, id: int)
    ensures Act(k.q, k.pc, t, e) == DelClaim(id) <==>
              !e.fail && (k.pc.ClaimDrop? || k.pc.DropClaim? || k.pc.RevokeClaim?) && Subject(k.q) == id
  {}

  lemma OnlyKeptMoves(y: System, n: Keeper, z: System, u: Tables, k: Call, f: Effect, g: Effect, id: int, pin: Hash)
    requires ClaimKept(y, n, id) && Holds(y, n, k) && Follows(y, n, k, f, g) && Writes(k, f)
    requires z.t == Apply(y.t, f) && u == Apply(n.t, g)
    ensures OnlyKept(z, Keeper(u, n.calls), id, pin) <==>
              || (f == DelClaim(id) && k.pc.ClaimDrop? && id in y.t.claims && y.t.claims[id].tokenHash == pin)
              || (OnlyKept(y, n, id, pin) && !(f == DelClaim(id) && !k.pc.ClaimDrop?))
  {
    hide Apply;
    ClaimAfter(y.t, f, id);
    ClaimAfter(n.t, g, id);
  }

  /** In state j the keeper has more than the service exactly where expiry was the reason. */
  ghost predicate Tracked(ys: seq<System>, es: seq<Event>, j: nat, id: int, pin: Hash)
    requires |ys| == |es| + 1 && j < |ys|
  {
    OnlyKept(ys[j], KeepAt(ys, es, j), id, pin) <==> Orphaned(ys, es, j, id, pin)
  }

  lemma OnlyKeptIgnoresCalls(y: System, n: Keeper, m: Keeper, id: int, pin: Hash)
    requires n.t == m.t
    ensures OnlyKept(y, n, id, pin) <==> OnlyKept(y, m, id, pin)
  {}

  lemma OnlyKeptOpen(y: System, n: Keeper, v: Event, finished: bool, id: int, pin: Hash)
    requires v.Open? && Can(y, v)
    ensures OnlyKept(Do(y, v), KeepDo(n, v, finished), id, pin) <==> OnlyKept(y, n, id, pin)
    ensures !DropsExpired(y, v, id, pin) && !Withdraws(y, v, id)
  {}

  lemma OnlyKeptNext(y: System, n: Keeper, v: Event, id: int, pin: Hash)
    requires Shadows(y, n) && Fresh(y) && Can(y, v) && !StrandedTurn(y, n, v)
    ensures OnlyKept(Do(y, v), KeepDo(n, v, Finished(Do(y, v), v.c)), id, pin) <==>
              DropsExpired(y, v, id, pin) || (OnlyKept(y, n, id, pin) && !Withdraws(y, v, id))
  {
    hide Goto, Act, Apply, Record, KeepAct, KeepGoto, KeepDo, Follows, Writes, Holds, OnlyKept, Fresh;
    if v.Turn? {
      var k := y.calls[v.c];
      var f, g := Act(k.q, k.pc, y.t, v.e), KeeperEffect(n, k, v.e);
      KeeperFollows(y, n, v.c, v.e);
      StepWrites(k, y.t, v.e);
      DeletesClaim(k, y.t, v.e, id);
      assert ClaimKept(y, n, id) && Holds(y, n, k);
      OnlyKeptMoves(y, n, Do(y, v), Apply(n.t, g), k, f, g, id, pin);
      OnlyKeptIgnoresCalls(Do(y, v), Keeper(Apply(n.t, g), n.calls), KeepDo(n, v, Finished(Do(y, v), v.c)), id, pin);
    } else {
      OnlyKeptOpen(y, n, v, Finished(Do(y, v), v.c), id, pin);
    }
  }

  lemma TrackedNext(ys: seq<System>, es: seq<Event>, j: nat, id: int, pin: Hash)
    requires Ordinary(ys, es) && j < |es| && Shadows(ys[j], KeepAt(ys, es, j)) && Fresh(ys[j])
    requires !StrandedTurn(ys[j], KeepAt(ys, es, j), es[j]) && Tracked(ys, es, j, id, pin)
    ensures Tracked(ys, es, j + 1, id, pin)
  {
    hide Shadows, Fresh, Do, KeepDo, StrandedTurn, OnlyKept, Orphaned, DropsExpired, Withdraws;
    assert StepAt(ys, es, j);
    OrphanedNext(ys, es, j, id, pin);
    OnlyKeptNext(ys[j], KeepAt(ys, es, j), es[j], id, pin);
  }

  // ---------- the two services side by side ----------

  /** In state j every call that has responded has the same response from the keeper. */
  ghost predicate SameResponses(ys: seq<System>, es: seq<Event>, j: nat)
    requires |ys| == |es| + 1 && j < |ys|
  {
    forall c :: c in ys[j].calls && ys[j].calls[c].pc.End? ==>
      c in KeepAt(ys, es, j).calls && KeepAt(ys, es, j).calls[c].pc == ys[j].calls[c].pc
  }

  /** As long as no call is stranded the keeper keeps, of every table, what the service has and what expired. */
  lemma {:induction false} KeeperShadows(ys: seq<System>, es: seq<Event>, j: nat)
    requires Ordinary(ys, es) && j < |ys|
    requires forall i :: 0 <= i < j ==> !StrandedAt(ys, es, i)
    ensures Shadows(ys[j], KeepAt(ys, es, j))
    ensures forall id, pin :: Tracked(ys, es, j, id, pin)
    decreases j
  {
    hide Shadows, Fresh, Tracked, StrandedTurn, KeepAt;
    if j == 0 {
      ShadowsStart(ys, es);
    } else {
      KeeperShadows(ys, es, j - 1);
      AlwaysFresh(ys, es, j - 1);
      StrandedMeans(ys, es, j - 1);
      KeeperShadowsNext(ys, es, j);
      forall id, pin ensures Tracked(ys, es, j, id, pin) {
        TrackedNext(ys, es, j - 1, id, pin);
      }
    }
  }

  lemma ShadowsStart(ys: seq<System>, es: seq<Event>)
    requires Ordinary(ys, es)
    ensures Shadows(ys[0], KeepAt(ys, es, 0)) && forall id, pin :: Tracked(ys, es, 0, id, pin)
  {}

  /** Stranded by its events is stranded by what the keeper still holds. */
  lemma StrandedMeans(ys: seq<System>, es: seq<Event>, i: nat)
    requires |ys| == |es| + 1 && i < |es| && forall id, pin :: Tracked(ys, es, i, id, pin)
    ensures StrandedAt(ys, es, i) <==> StrandedTurn(ys[i], KeepAt(ys, es, i), es[i])
  {
    hide Orphaned, KeepAt;
    var y, v := ys[i], es[i];
    if v.Turn? && v.c in y.calls && y.calls[v.c].pc.CodePin? {
      assert Tracked(ys, es, i, Subject(y.calls[v.c].q), y.calls[v.c].pc.pin);
    }
  }

  lemma KeeperShadowsNext(ys: seq<System>, es: seq<Event>, j: nat)
    requires Ordinary(ys, es) && 0 < j < |ys| && Shadows(ys[j - 1], KeepAt(ys, es, j - 1)) && Fresh(ys[j - 1])
    requires !StrandedTurn(ys[j - 1], KeepAt(ys, es, j - 1), es[j - 1])
    ensures Shadows(ys[j], KeepAt(ys, es, j))
  {
    hide Shadows, Do, KeepDo, Fresh, StrandedTurn;
    assert StepAt(ys, es, j - 1);
    ShadowsStep(ys[j - 1], KeepAt(ys, es, j - 1), es[j - 1]);
  }

  // ---------- different for good ----------

  /** An EnrollRedeem past the comparison of its pin. */
  predicate PastPin(k: Call) {
    && k.q.EnrollRedeem?
    && (k.pc.LoadPending? || k.pc.PutSecret? || k.pc.PutHash? || k.pc.PutActive? || k.pc.DropClaim? || k.pc.DropCode?
        || (k.pc.End? && k.pc.response != Fail(401)))
  }

  lemma PastPinAnswers(k: Call)
    requires PastPin(k)
    ensures k.pc != End(Fail(401))
  {}

  lemma PastPinStays(k: Call, t: Tables, e: Env)
    requires PastPin(k)
    ensures PastPin(k.(pc := KeepGoto(k.q, k.pc, t, e)))
  {}

  /** The keeper running on by itself: calls open and take steps, with whatever inputs. */
  ghost predicate RunsOn(ns: seq<Keeper>, vs: seq<Event>) {
    |ns| == |vs| + 1 && forall i :: 0 <= i < |vs| ==> RunsOnAt(ns, vs, i)
  }

  ghost predicate RunsOnAt(ns: seq<Keeper>, vs: seq<Event>, i: nat)
    requires |ns| == |vs| + 1 && i < |vs|
  {
    (vs[i].Open? ==> vs[i].c !in ns[i].calls) && ns[i + 1] == KeepDo(ns[i], vs[i], false)
  }

  lemma {:induction false} PastPinForGood(ns: seq<Keeper>, vs: seq<Event>, c: nat, i: nat)
    requires RunsOn(ns, vs) && i < |ns| && c in ns[0].calls && PastPin(ns[0].calls[c])
    ensures c in ns[i].calls && PastPin(ns[i].calls[c])
    decreases i
  {
    hide KeepGoto, KeepAct, PastPin;
    if i > 0 {
      PastPinForGood(ns, vs, c, i - 1);
      assert RunsOnAt(ns, vs, i - 1);
      var n, v := ns[i - 1], vs[i - 1];
      if v.Turn? && v.c == c {
        PastPinStays(n.calls[c], n.t, v.e);
      }
    }
  }

  lemma KeeperStepsDown(n: Keeper, c: nat, e: Env)
    requires c in n.calls && !n.calls[c].pc.End?
    ensures c in KeepStep(n, c, e).calls && Rank(KeepStep(n, c, e).calls[c].pc) < Rank(n.calls[c].pc)
  {
    hide Goto, KeepAct, Apply;
    var k := n.calls[c];
    StepsDown(k.q, k.pc, n.t, e);
  }

  /** The keeper can always finish a call. */
  lemma {:induction false} KeeperFinishes(n: Keeper, c: nat) returns (ns: seq<Keeper>, vs: seq<Event>)
    requires c in n.calls
    ensures RunsOn(ns, vs) && ns[0] == n && c in ns[|vs|].calls && ns[|vs|].calls[c].pc.End?
    decreases Rank(n.calls[c].pc)
  {
    hide KeepStep, Rank;
    if n.calls[c].pc.End? {
      ns, vs := [n], [];
    } else {
      var e := Env(false, 0, "", 0, "", (group, user) => Unreachable);
      KeeperStepsDown(n, c, e);
      var rest, later := KeeperFinishes(KeepStep(n, c, e), c);
      ns, vs := [n] + rest, [Turn(c, e)] + later;
      forall i | 0 <= i < |vs| ensures RunsOnAt(ns, vs, i) {
        if i > 0 {
          assert RunsOnAt(rest, later, i - 1);
        }
      }
    }
  }

  /** Call c has responded by state j, and the keeper, running on from there, can respond to it but never
      with that response. */
  ghost predicate Contradicted(ys: seq<System>, es: seq<Event>, j: nat, c: nat)
    requires |ys| == |es| + 1 && j < |ys|
  {
    && c in ys[j].calls && ys[j].calls[c].pc.End?
    && (forall ns: seq<Keeper>, vs: seq<Event>, i: nat :: RunsOn(ns, vs) && ns[0] == KeepAt(ys, es, j) && i < |ns| ==>
          c in ns[i].calls && ns[i].calls[c].pc != ys[j].calls[c].pc)
    && (exists ns: seq<Keeper>, vs: seq<Event> ::
          RunsOn(ns, vs) && ns[0] == KeepAt(ys, es, j) && ns[|vs|].calls[c].pc.End?)
  }

  /** A stranded call is refused, while the keeper still finds the claim token and goes on. */
  lemma StrandedDiverges(y: System, n: Keeper, c: nat, e: Env)
    requires Shadows(y, n) && Can(y, Turn(c, e)) && StrandedTurn(y, n, Turn(c, e)) && FitCall(y.calls[c])
    ensures var z := Do(y, Turn(c, e));
            && c in z.calls && z.calls[c].pc == End(Fail(401))
            && c in KeepDo(n, Turn(c, e), true).calls && PastPin(KeepDo(n, Turn(c, e), true).calls[c])
  {
    CallStep(y, Turn(c, e), c);
    var k, m := y.calls[c], KeepStep(n, c, e);
    assert n.calls[c] == k;
    assert m.calls[c] == k.(pc := LoadPending);
    PastPinStays(m.calls[c], m.t, e);
  }

  lemma StrandedDiffers(ys: seq<System>, es: seq<Event>, i: nat)
    requires Ordinary(ys, es) && i < |es| && Shadows(ys[i], KeepAt(ys, es, i)) && AllFit(ys[i])
    requires StrandedTurn(ys[i], KeepAt(ys, es, i), es[i])
    ensures !SameResponses(ys, es, i + 1) && Contradicted(ys, es, i + 1, es[i].c)
  {
    hide Shadows, Stranded, KeepDo, Do, PastPin;
    assert StepAt(ys, es, i);
    var c, n := es[i].c, KeepAt(ys, es, i + 1);
    assert FitCall(ys[i].calls[c]);
    StrandedDiverges(ys[i], KeepAt(ys, es, i), c, es[i].e);
    assert Finished(ys[i + 1], c);
    forall ns: seq<Keeper>, vs: seq<Event>, k: nat | RunsOn(ns, vs) && ns[0] == n && k < |ns|
      ensures c in ns[k].calls && ns[k].calls[c].pc != ys[i + 1].calls[c].pc
    {
      PastPinForGood(ns, vs, c, k);
      PastPinAnswers(ns[k].calls[c]);
    }
    PastPinAnswers(n.calls[c]);
    var ns, vs := KeeperFinishes(n, c);
    assert RunsOn(ns, vs);
  }

  /** Deletion on expiry is unobservable exactly when no stranded EnrollRedeem takes its step: then, and only
      then, has the service that never deletes an expired login code, claim token or exchange code always
      answered every call the same way; otherwise some response is one it would never give. */
  lemma ExpiryDeletionUnobservableIff(ys: seq<System>, es: seq<Event>)
    requires Ordinary(ys, es)
    ensures (forall j :: 0 <= j < |ys| ==> SameResponses(ys, es, j))
        <==> (forall i :: 0 <= i < |es| ==> !StrandedAt(ys, es, i))
    ensures (exists j, c :: 0 <= j < |ys| && Contradicted(ys, es, j, c))
        <==> (exists i :: 0 <= i < |es| && StrandedAt(ys, es, i))
  {
    hide SameResponses, StrandedAt, Contradicted;
    if i :| 0 <= i < |es| && StrandedAt(ys, es, i) {
      StrandedShows(ys, es, i);
    } else {
      forall j | 0 <= j < |ys| ensures SameResponses(ys, es, j) {
        KeeperShadows(ys, es, j);
        ShadowsAnswerAlike(ys, es, j);
      }
      forall j, c | 0 <= j < |ys| && Contradicted(ys, es, j, c) ensures false {
        KeeperShadows(ys, es, j);
        ShadowsAnswerAlike(ys, es, j);
      }
    }
  }

  lemma StrandedShows(ys: seq<System>, es: seq<Event>, i: nat)
    requires Ordinary(ys, es) && i < |es| && StrandedAt(ys, es, i)
    ensures exists j, c :: 0 <= j < |ys| && Contradicted(ys, es, j, c) && !SameResponses(ys, es, j)
  {
    hide SameResponses, StrandedAt, Contradicted, Shadows;
    var first := FirstStranded(ys, es, i);
    KeeperShadows(ys, es, first);
    CallsFit(ys, es, first);
    StrandedMeans(ys, es, first);
    StrandedDiffers(ys, es, first);
  }

  lemma {:induction false} FirstStranded(ys: seq<System>, es: seq<Event>, i: nat) returns (first: nat)
    requires |ys| == |es| + 1 && i < |es| && StrandedAt(ys, es, i)
    ensures first < |es| && StrandedAt(ys, es, first) && forall k :: 0 <= k < first ==> !StrandedAt(ys, es, k)
    decreases i
  {
    if k :| 0 <= k < i && StrandedAt(ys, es, k) {
      first := FirstStranded(ys, es, k);
    } else {
      first := i;
    }
  }

  lemma ShadowsAnswerAlike(ys: seq<System>, es: seq<Event>, j: nat)
    requires |ys| == |es| + 1 && j < |ys| && Shadows(ys[j], KeepAt(ys, es, j))
    ensures SameResponses(ys, es, j) && forall c :: !Contradicted(ys, es, j, c)
  {
    hide KeepAt;
    var n := KeepAt(ys, es, j);
    assert RunsOn([n], []);
    forall c ensures !Contradicted(ys, es, j, c) {
      if c in ys[j].calls && ys[j].calls[c].pc.End? {
        assert n.calls[c] == ys[j].calls[c];
        assert [n][0] == n;
      }
    }
  }

  // ---------- calls that do not overlap are never stranded ----------

  ghost predicate NoneStranded(y: System, n: Keeper) {
    forall c :: c in y.calls ==> !Stranded(y, n, y.calls[c])
  }

  /** A call that has just checked its code: the code is in time, so the claim token it is pinned to is too. */
  lemma JustCheckedNotStranded(y: System, n: Keeper, k: Call, e: Env, p: Pc)
    requires KeptFor(y, n, k) && p == Goto(k.q, k.pc, y.t, e) && !k.pc.End? && y.clock <= e.now
    ensures k.pc.CodeCheck? ==> !Stranded(y, n, k.(pc := p))
    ensures !k.pc.CodeCheck? ==> !p.CodePin?
  {}

  /** A call whose claim token is left alone by the steps of others is not stranded by them. */
  lemma OthersNotStranded(y: System, n: Keeper, z: System, u: Tables, k: Call, l: Call, f: Effect, g: Effect)
    requires Holds(y, n, k) && Holds(y, n, l) && !Clash(k, l) && !Stranded(y, n, l)
    requires Follows(y, n, k, f, g) && Writes(k, f)
    requires z.t == Apply(y.t, f) && u == Apply(n.t, g)
    requires k.pc.ClaimDrop? && l.pc.CodePin? ==> Subject(k.q) != Subject(l.q)
    ensures !Stranded(z, Keeper(u, n.calls), l)
  {
    hide Apply;
    ClaimAfter(y.t, f, Subject(l.q));
    ClaimAfter(n.t, g, Subject(l.q));
  }

  lemma NotAtPin(y: System, n: Keeper, k: Call)
    ensures !k.pc.CodePin? ==> !Stranded(y, n, k)
  {}

  lemma MoverNotStranded(y: System, n: Keeper, c: nat, e: Env, z: System, m: Keeper)
    requires Shadows(y, n) && Fresh(y) && Can(y, Turn(c, e)) && !StrandedTurn(y, n, Turn(c, e))
    requires z == Do(y, Turn(c, e)) && m == KeepDo(n, Turn(c, e), Finished(z, c))
    ensures c in z.calls && !Stranded(z, m, z.calls[c])
  {
    hide Shadows, Goto, Act, Apply, Record, KeepDo, KeeperEffect, Follows, KeptFor, Stranded;
    var k := y.calls[c];
    KeeperFollows(y, n, c, e);
    RelatedCallKept(y, n, c);
    assert FitCall(k);
    CallStep(y, Turn(c, e), c);
    JustCheckedNotStranded(y, n, k, e, z.calls[c].pc);
    if k.pc.CodeCheck? {
      ChecksChangeNothing(k, y.t, n, e);
      NothingApplies(y.t);
      NothingApplies(n.t);
      SameStoresSameStranded(y, n, z, m, z.calls[c]);
    } else {
      NotAtPin(z, m, z.calls[c]);
    }
  }

  lemma ChecksChangeNothing(k: Call, t: Tables, n: Keeper, e: Env)
    requires k.pc.CodeCheck?
    ensures Act(k.q, k.pc, t, e) == Nothing && KeeperEffect(n, k, e) == Nothing
  {}

  lemma SameStoresSameStranded(y: System, n: Keeper, z: System, m: Keeper, k: Call)
    requires z.t == y.t && m.t == n.t
    ensures Stranded(z, m, k) <==> Stranded(y, n, k)
  {}

  lemma NoneStrandedStep(y: System, n: Keeper, c: nat, e: Env, z: System, m: Keeper)
    requires Shadows(y, n) && Fresh(y) && Exclusive(y) && Can(y, Turn(c, e)) && NoneStranded(y, n)
    requires z == Do(y, Turn(c, e)) && m == KeepDo(n, Turn(c, e), Finished(z, c))
    ensures NoneStranded(z, m)
  {
    hide Goto, Act, Apply, Record, KeepDo, KeeperEffect, Follows, Writes, Clash, Stranded, Holds, ClaimKept, CodeKept,
         LoginKept;
    var k := y.calls[c];
    var f, g := Act(k.q, k.pc, y.t, e), KeeperEffect(n, k, e);
    KeeperFollows(y, n, c, e);
    StepWrites(k, y.t, e);
    assert FitCall(k);
    MoverNotStranded(y, n, c, e, z, m);
    forall d | d in z.calls && d != c ensures !Stranded(z, m, z.calls[d]) {
      CallStep(y, Turn(c, e), d);
      var l := y.calls[d];
      assert FitCall(l) && Holds(y, n, l) && !Clash(k, l);
      OthersNotStranded(y, n, z, m.t, k, l, f, g);
      SameStoresSameStranded(z, Keeper(m.t, n.calls), z, m, l);
    }
  }

  lemma NoneStrandedOpen(y: System, n: Keeper, c: nat, q: Request)
    requires NoneStranded(y, n) && Can(y, Open(c, q))
    ensures NoneStranded(Do(y, Open(c, q)), KeepDo(n, Open(c, q), Finished(Do(y, Open(c, q)), c)))
  {
    hide Goto, Act, Apply, Record;
  }

  lemma {:induction false} SerialNoneStranded(ys: seq<System>, es: seq<Event>, j: nat)
    requires Ordinary(ys, es) && Serialised(ys) && j < |ys|
    ensures forall i :: 0 <= i < j ==> !StrandedAt(ys, es, i)
    ensures NoneStranded(ys[j], KeepAt(ys, es, j))
    decreases j
  {
    hide Shadows, Fresh, Do, Goto, Act;
    if j > 0 {
      SerialNoneStranded(ys, es, j - 1);
      KeeperShadows(ys, es, j - 1);
      AlwaysFresh(ys, es, j - 1);
      StrandedMeans(ys, es, j - 1);
      SerialNoneStrandedNext(ys, es, j);
    }
  }

  lemma SerialNoneStrandedNext(ys: seq<System>, es: seq<Event>, j: nat)
    requires Ordinary(ys, es) && Serialised(ys) && 0 < j < |ys|
    requires Shadows(ys[j - 1], KeepAt(ys, es, j - 1)) && Fresh(ys[j - 1])
        && NoneStranded(ys[j - 1], KeepAt(ys, es, j - 1))
    ensures NoneStranded(ys[j], KeepAt(ys, es, j))
  {
    hide Goto, Act, Apply, Record, Shadows, Fresh, NoneStranded, KeepDo;
    assert StepAt(ys, es, j - 1) && Exclusive(ys[j - 1]);
    match es[j - 1]
    case Open(c, q) =>
      NoneStrandedOpen(ys[j - 1], KeepAt(ys, es, j - 1), c, q);
    case Turn(c, e) =>
      NoneStrandedStep(ys[j - 1], KeepAt(ys, es, j - 1), c, e, ys[j], KeepAt(ys, es, j));
  }

  /** In particular deletion on expiry is unobservable while same-appliance calls do not overlap; the appliances
      and their secrets are the same, too. */
  lemma ExpiryDeletionUnobservable(ys: seq<System>, es: seq<Event>, j: nat)
    requires Ordinary(ys, es) && Serialised(ys) && j < |ys|
    ensures SameResponses(ys, es, j)
    ensures KeepAt(ys, es, j).t.rows == ys[j].t.rows && KeepAt(ys, es, j).t.secrets == ys[j].t.secrets
  {
    SerialNoneStranded(ys, es, j);
    KeeperShadows(ys, es, j);
    ShadowsAnswerAlike(ys, es, j);
  }
}
