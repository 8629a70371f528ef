/** Runs in which only calls on different appliances overlap, put in an order of one call at a time. */
module Reordering {
  import opened Persistence
  import opened Protocol
  import opened Runs
  import opened Commuting

  /** The turns among the events, in order. */
  function Turns(es: seq<Event>): seq<Move>
    decreases |es|
  {
    if es == [] then []
    else
      var last := es[|es| - 1];
      Turns(es[..|es| - 1]) + if last.Turn? then [Move(last.c, last.e)] else []
  }

  /** Where call c stands in state y: at its beginning if it is still to be opened. */
  function Standing(y: System, z: System, c: nat): Call
    requires c in z.calls
  {
    if c in y.calls then y.calls[c] else Call(z.calls[c].q, Begin(z.calls[c].q))
  }

  /** State y with every call of a later state z present. */
  function Ahead(y: System, z: System): Machine {
    Machine(y.t, map c | c in z.calls :: Standing(y, z, c))
  }

  lemma AheadNext(ys: seq<System>, es: seq<Event>, j: nat)
    requires Path(ys, es) && j < |es|
    ensures var z, v := ys[|es|], es[j];
            Ahead(ys[j + 1], z) == if v.Turn? then Advance(Ahead(ys[j], z), Move(v.c, v.e)) else Ahead(ys[j], z)
  {
    hide Goto, Act, Apply, Record, Begin;
    var z, v := ys[|es|], es[j];
    assert StepAt(ys, es, j);
    CallStep(ys[j], v, v.c);
    CallsRemain(ys, es, v.c, j + 1, |es|);
    forall c | c in z.calls && c != v.c ensures Standing(ys[j + 1], z, c) == Standing(ys[j], z, c) {
      CallStep(ys[j], v, c);
    }
  }

  lemma {:induction false} PlayTurns(ys: seq<System>, es: seq<Event>, j: nat)
    requires Path(ys, es) && j < |ys|
    ensures Play(Ahead(ys[0], ys[|es|]), Turns(es[..j])) == Ahead(ys[j], ys[|es|])
    decreases j
  {
    hide Ahead, Advance;
    if j == 0 {
      assert es[..0] == [];
    } else {
      PlayTurns(ys, es, j - 1);
      AheadNext(ys, es, j - 1);
      var v := es[j - 1];
      assert es[..j][..j - 1] == es[..j - 1];
      if v.Turn? {
        PlayAppends(Ahead(ys[0], ys[|es|]), Turns(es[..j - 1]), [Move(v.c, v.e)]);
        assert [Move(v.c, v.e)][1..] == [];
      } else {
        assert Turns(es[..j]) == Turns(es[..j - 1]);
      }
    }
  }

  /** The event behind the i-th turn. */
  lemma {:induction false} PlaceOf(es: seq<Event>, i: nat) returns (p: nat)
    requires i < |Turns(es)|
    ensures p < |es| && es[p].Turn? && Turns(es)[i] == Move(es[p].c, es[p].e) && |Turns(es[..p])| == i
    decreases |es|
  {
    var before := es[..|es| - 1];
    if i < |Turns(before)| {
      p := PlaceOf(before, i);
      assert before[..p] == es[..p];
    } else {
      p := |es| - 1;
    }
  }

  lemma {:induction false} TurnsGrow(es: seq<Event>, p: nat, q: nat)
    requires p <= q <= |es|
    ensures |Turns(es[..p])| <= |Turns(es[..q])|
    decreases q
  {
    if p < q {
      TurnsGrow(es, p, q - 1);
      assert es[..q][..q - 1] == es[..q - 1];
    }
  }

  lemma PlacesInOrder(es: seq<Event>, p: nat, q: nat)
    requires p < |es| && q < |es| && |Turns(es[..p])| < |Turns(es[..q])|
    ensures p < q
  {
    if q <= p {
      TurnsGrow(es, q, p);
    }
  }

  /** Event q is a turn taken between the turns p and r of another call. */
  predicate Between(es: seq<Event>, p: nat, q: nat, r: nat) {
    p < q < r < |es| && es[p].Turn? && es[q].Turn? && es[r].Turn? && es[p].c == es[r].c != es[q].c
  }

  predicate DisjointTurns(ys: seq<System>, es: seq<Event>, p: nat, q: nat)
    requires |ys| == |es| + 1 && p < |es| && q < |es|
  {
    && es[p].c in ys[p].calls && es[q].c in ys[q].calls
    && Disjoint(ys[p].calls[es[p].c].q, ys[q].calls[es[q].c].q)
  }

  /** Calls take turns between each other's turns only if they are disjoint; all others take theirs undisturbed. */
  ghost predicate OverlapsDisjoint(ys: seq<System>, es: seq<Event>)
    requires |ys| == |es| + 1
  {
    forall p: nat, q: nat, r: nat :: Between(es, p, q, r) ==> DisjointTurns(ys, es, p, q)
  }

  lemma OverlapIsApart(ys: seq<System>, es: seq<Event>, p: nat, q: nat, r: nat)
    requires Path(ys, es) && OverlapsDisjoint(ys, es) && Between(es, p, q, r)
    ensures Apart(RequestsOf(Ahead(ys[0], ys[|es|])), es[p].c, es[q].c)
  {
    hide Goto, Act, Apply, Do, Begin, Disjoint, Ahead;
    assert DisjointTurns(ys, es, p, q);
    CallsRemain(ys, es, es[p].c, p, |es|);
    CallsRemain(ys, es, es[q].c, q, |es|);
    SameRequests(ys, es, es[p].c);
    SameRequests(ys, es, es[q].c);
  }

  lemma SameRequests(ys: seq<System>, es: seq<Event>, c: nat)
    requires Path(ys, es) && c in ys[|es|].calls
    ensures var qs := RequestsOf(Ahead(ys[0], ys[|es|])); c in qs && qs[c] == ys[|es|].calls[c].q
  {
    if c in ys[0].calls {
      CallsRemain(ys, es, c, 0, |es|);
    }
  }

  lemma TurnsDoNotOverlap(ys: seq<System>, es: seq<Event>)
    requires Path(ys, es) && OverlapsDisjoint(ys, es)
    ensures NonOverlapping(RequestsOf(Ahead(ys[0], ys[|es|])), Turns(es))
  {
    hide OverlapsDisjoint, Apart;
    var vs := Turns(es);
    forall i, j, k | 0 <= i < j < k < |vs| && vs[i].c == vs[k].c && vs[j].c != vs[i].c
      ensures Apart(RequestsOf(Ahead(ys[0], ys[|es|])), vs[i].c, vs[j].c)
    {
      var p := PlaceOf(es, i);
      var q := PlaceOf(es, j);
      var r := PlaceOf(es, k);
      PlacesInOrder(es, p, q);
      PlacesInOrder(es, q, r);
      OverlapIsApart(ys, es, p, q, r);
    }
  }

  lemma AheadInPlace(ys: seq<System>, es: seq<Event>)
    requires Path(ys, es) && AllFit(ys[0])
    ensures InPlace(Ahead(ys[0], ys[|es|]))
  {
    hide Fits, Begin;
    forall c | c in ys[|es|].calls ensures FitCall(Standing(ys[0], ys[|es|], c)) {
      FitsFromBegin(ys[|es|].calls[c].q);
      if c in ys[0].calls {
        assert FitCall(ys[0].calls[c]);
      }
    }
  }

  /** Keeping calls on the same appliance apart suffices: whatever interleaving is taken in which only disjoint calls
      overlap, some order of one call at a time, in which each call takes the turns it took, each with the clock
      reading, random value and fault it had, ends in the same stores with the same responses. */
  lemma DisjointIsOneAtATime(ys: seq<System>, es: seq<Event>)
    requires Path(ys, es) && AllFit(ys[0]) && OverlapsDisjoint(ys, es)
    ensures var vs := Grouped(Turns(es));
            && OneAtATime(vs)
            && (forall c :: Of(vs, c) == Of(Turns(es), c))
            && Play(Ahead(ys[0], ys[|es|]), vs) == Machine(ys[|es|].t, ys[|es|].calls)
  {
    hide OverlapsDisjoint, AllFit, OneAtATime;
    var m := Ahead(ys[0], ys[|es|]);
    AheadInPlace(ys, es);
    TurnsDoNotOverlap(ys, es);
    InterleavingIsSerial(m, Turns(es));
    GroupedIsOneAtATime(Turns(es));
    forall c ensures Of(Grouped(Turns(es)), c) == Of(Turns(es), c) {
      GroupedKeepsCalls(Turns(es), c);
    }
    PlayAll(ys, es);
  }

  /** So does any stretch of a run, the whole of it included: whatever appliances there are by then, and whatever
      calls have finished or stand still. */
  lemma StretchIsOneAtATime(ys: seq<System>, es: seq<Event>, i: nat, j: nat)
    requires Run(ys, es) && i <= j < |ys| && OverlapsDisjoint(ys[i..j + 1], es[i..j])
    ensures var vs := Grouped(Turns(es[i..j]));
            && OneAtATime(vs)
            && (forall c :: Of(vs, c) == Of(Turns(es[i..j]), c))
            && Play(Ahead(ys[i], ys[j]), vs) == Machine(ys[j].t, ys[j].calls)
  {
    hide OverlapsDisjoint, AllFit, OneAtATime;
    PathBetween(ys, es, i, j);
    CallsFit(ys, es, i);
    DisjointIsOneAtATime(ys[i..j + 1], es[i..j]);
  }

  // ---------- the case of serialised writers ----------

  predicate WriterTurn(y: System, v: Event) {
    v.c in y.calls && Writer(y.calls[v.c].q)
  }

  /** Calls other than writers neither take turns between those of another call nor are so disturbed. */
  ghost predicate OnlyWritersOverlap(ys: seq<System>, es: seq<Event>)
    requires |ys| == |es| + 1
  {
    forall p: nat, q: nat, r: nat :: Between(es, p, q, r) ==> WriterTurn(ys[p], es[p]) && WriterTurn(ys[q], es[q])
  }

  /** Of two writers that take turns, one of them both before and after a turn of the other, both are busy at
      that turn. */
  lemma BothBusy(ys: seq<System>, es: seq<Event>, p: nat, q: nat, r: nat)
    requires Path(ys, es) && Serialised(ys) && OnlyWritersOverlap(ys, es) && Between(es, p, q, r)
    ensures DisjointTurns(ys, es, p, q)
  {
    hide Goto, Act, Apply, Do, Begin;
    var c, d, y := es[p].c, es[q].c, ys[q];
    assert StepAt(ys, es, p) && StepAt(ys, es, q) && StepAt(ys, es, r);
    CallsRemain(ys, es, c, p, q);
    CallsRemain(ys, es, c, q, r);
    assert WriterTurn(ys[p], es[p]) && WriterTurn(y, es[q]);
    assert Busy(y.calls[c]) && Busy(y.calls[d]);
    assert Exclusive(y);
  }

  /** Where only writers overlap, serialisation per appliance is enough. */
  lemma SerialisedIsOneAtATime(ys: seq<System>, es: seq<Event>, i: nat, j: nat)
    requires Run(ys, es) && i <= j < |ys|
    requires Serialised(ys[i..j + 1]) && OnlyWritersOverlap(ys[i..j + 1], es[i..j])
    ensures var vs := Grouped(Turns(es[i..j]));
            && OneAtATime(vs)
            && (forall c :: Of(vs, c) == Of(Turns(es[i..j]), c))
            && Play(Ahead(ys[i], ys[j]), vs) == Machine(ys[j].t, ys[j].calls)
  {
    hide Serialised, OnlyWritersOverlap, DisjointTurns, OneAtATime;
    PathBetween(ys, es, i, j);
    var zs, vs := ys[i..j + 1], es[i..j];
    forall p: nat, q: nat, r: nat | Between(vs, p, q, r) ensures DisjointTurns(zs, vs, p, q) {
      BothBusy(zs, vs, p, q, r);
    }
    StretchIsOneAtATime(ys, es, i, j);
  }

  lemma PlayAll(ys: seq<System>, es: seq<Event>)
    requires Path(ys, es)
    ensures Play(Ahead(ys[0], ys[|es|]), Turns(es)) == Machine(ys[|es|].t, ys[|es|].calls)
  {
    hide Play;
    PlayTurns(ys, es, |es|);
    assert es[..|es|] == es;
    assert Ahead(ys[|es|], ys[|es|]).calls == ys[|es|].calls;
  }
}
