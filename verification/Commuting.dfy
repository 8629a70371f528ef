/** Interleavings in which only calls on different appliances overlap equal some one-call-at-a-time order. */
module Commuting {
  import opened Wrappers
  import opened Tokens
  import opened Persistence
  import opened Protocol
  import opened Runs

  /** One step of call c; its clock reading, random value and fault are fixed in e. */
  datatype Move = Move(c: nat, e: Env)

  datatype Machine = Machine(t: Tables, calls: map<nat, Call>)

  function Advance(m: Machine, v: Move): Machine {
    if v.c !in m.calls then m
    else
      var k := m.calls[v.c];
      Machine(After(k.q, k.pc, m.t, v.e), m.calls[v.c := k.(pc := Goto(k.q, k.pc, m.t, v.e))])
  }

  function Play(m: Machine, vs: seq<Move>): Machine
    decreases vs
  {
    if vs == [] then m else Play(Advance(m, vs[0]), vs[1..])
  }

  predicate WriterCall(k: Call) {
    Writer(k.q) && FitCall(k)
  }

  ghost predicate InPlace(m: Machine) {
    forall c :: c in m.calls ==> FitCall(m.calls[c])
  }

  /** The request behind each call: what "same appliance" refers to. */
  type Requests = map<nat, Request>

  function RequestsOf(m: Machine): Requests {
    map c | c in m.calls :: m.calls[c].q
  }

  /** Calls that concern one existing appliance. */
  predicate Single(q: Request) {
    HasSubject(q) && !q.Reissue?
  }

  /** Those of them that have nothing to do with the login codes, one table for all appliances. */
  predicate Local(q: Request) {
    Writer(q) || q.CheckAccess?
  }

  /** Calls on two different appliances, not both of them on login codes. */
  predicate Disjoint(q: Request, r: Request) {
    Single(q) && Single(r) && Subject(q) != Subject(r) && (Local(q) || Local(r))
  }

  predicate Apart(qs: Requests, c: nat, d: nat) {
    c in qs && d in qs && Disjoint(qs[c], qs[d])
  }

  /** Whenever one call moves between two moves of another, they concern different appliances. */
  ghost predicate NonOverlapping(qs: Requests, vs: seq<Move>) {
    forall i, j, k :: 0 <= i < j < k < |vs| && vs[i].c == vs[k].c && vs[j].c != vs[i].c ==> Apart(qs, vs[i].c, vs[j].c)
  }

  /** One call at a time. */
  ghost predicate OneAtATime(vs: seq<Move>) {
    forall i, j, k :: 0 <= i < j < k < |vs| && vs[i].c == vs[k].c ==> vs[j].c == vs[i].c
  }

  // ---------- steps on different appliances commute ----------

  predicate SameAt(t: Tables, u: Tables, id: int) {
    && (id in t.rows <==> id in u.rows) && (id in t.rows ==> t.rows[id] == u.rows[id])
    && (id in t.claims <==> id in u.claims) && (id in t.claims ==> t.claims[id] == u.claims[id])
    && (id in t.codes <==> id in u.codes) && (id in t.codes ==> t.codes[id] == u.codes[id])
    && (id in t.secrets <==> id in u.secrets) && (id in t.secrets ==> t.secrets[id] == u.secrets[id])
  }

  predicate LocalTo(f: Effect, id: int) {
    match f
    case Nothing => true
    case SetStatus(i, _) => i == id
    case Activate(i, _) => i == id
    case SetHash(i, _) => i == id
    case DelClaim(i) => i == id
    case DelCode(i) => i == id
    case SetSecret(i, _) => i == id
    case DelSecret(i) => i == id
    case _ => false
  }

  predicate OnLogins(f: Effect) {
    f.PruneLogins? || f.AddLogin? || f.TakeLogin?
  }

  lemma GoesAlike(k: Call, t: Tables, u: Tables, e: Env)
    requires Single(k.q) && FitCall(k) && SameAt(t, u, Subject(k.q)) && (Local(k.q) || t.logins == u.logins)
    ensures Goto(k.q, k.pc, t, e) == Goto(k.q, k.pc, u, e)
    ensures Act(k.q, k.pc, t, e) == Act(k.q, k.pc, u, e)
  {
    hide Goto, Act, Fits, SameAt;
    if Writer(k.q) {
      WriterGoesLocally(k, t, u, e);
      WriterActsLocally(k, t, u, e);
    } else {
      AskerGoesAlike(k, t, u, e);
      AskerActsAlike(k, t, u, e);
    }
  }

  lemma AskerGoesAlike(k: Call, t: Tables, u: Tables, e: Env)
    requires Single(k.q) && !Writer(k.q) && FitCall(k) && SameAt(t, u, Subject(k.q))
    requires k.q.CheckAccess? || t.logins == u.logins
    ensures Goto(k.q, k.pc, t, e) == Goto(k.q, k.pc, u, e)
  {
    hide Act, Apply, Record, Do, Begin, BearerToken, ApplianceSecret, Listing, LabelTaken, Markable, Settable;
  }

  lemma AskerActsAlike(k: Call, t: Tables, u: Tables, e: Env)
    requires Single(k.q) && !Writer(k.q) && FitCall(k) && SameAt(t, u, Subject(k.q))
    requires k.q.CheckAccess? || t.logins == u.logins
    ensures Act(k.q, k.pc, t, e) == Act(k.q, k.pc, u, e)
  {
    hide Goto, Apply, Record, Do, Begin, BearerToken, ApplianceSecret, Listing, LabelTaken, Markable, Settable;
  }

  lemma WriterGoesLocally(k: Call, t: Tables, u: Tables, e: Env)
    requires WriterCall(k) && SameAt(t, u, Subject(k.q))
    ensures Goto(k.q, k.pc, t, e) == Goto(k.q, k.pc, u, e)
  {
    hide Goto, SameAt;
    if Rank(k.pc) < 6 {
      GoesLocallyLate(k, t, u, e);
    } else {
      GoesLocallyEarly(k, t, u, e);
    }
  }

  lemma GoesLocallyLate(k: Call, t: Tables, u: Tables, e: Env)
    requires WriterCall(k) && SameAt(t, u, Subject(k.q)) && Rank(k.pc) < 6
    ensures Goto(k.q, k.pc, t, e) == Goto(k.q, k.pc, u, e)
  {
    match k.pc
    case PutSecret(_, _) | PutHash(_, _) | PutActive(_, _) | DropClaim(_, _) | DropCode(_, _) =>
    case RevokeLoad | RevokeStatus | RevokeSecret | RevokeHash | RevokeClaim =>
    case ClaimDrop | CodeDrop | End(_) =>
  }

  lemma GoesLocallyEarly(k: Call, t: Tables, u: Tables, e: Env)
    requires WriterCall(k) && SameAt(t, u, Subject(k.q)) && Rank(k.pc) >= 6
    ensures Goto(k.q, k.pc, t, e) == Goto(k.q, k.pc, u, e)
  {
    hide ApplianceSecret, LabelTaken, Redeemable, Listing, Markable, Settable;
  }

  lemma WriterActsLocally(k: Call, t: Tables, u: Tables, e: Env)
    requires WriterCall(k) && SameAt(t, u, Subject(k.q))
    ensures Act(k.q, k.pc, t, e) == Act(k.q, k.pc, u, e)
  {
    hide Goto, Apply, Record, Do, Begin, BearerToken, ApplianceSecret, Listing, LabelTaken, Redeemable;
  }

  lemma SingleEffects(k: Call, t: Tables, e: Env)
    requires Single(k.q) && FitCall(k)
    ensures LocalTo(Act(k.q, k.pc, t, e), Subject(k.q)) || (!Local(k.q) && OnLogins(Act(k.q, k.pc, t, e)))
  {
    hide Goto, Apply, Record, Do, Begin, BearerToken, ApplianceSecret, Listing;
  }

  lemma LocalLeavesOthers(t: Tables, f: Effect, i: int, j: int)
    requires LocalTo(f, i) && i != j
    ensures SameAt(t, Apply(t, f), j)
  {}

  function Get<V>(m: map<int, V>, i: int): Option<V> {
    if i in m then Some(m[i]) else None
  }

  function Put<V>(m: map<int, V>, i: int, v: Option<V>): map<int, V> {
    if v.Some? then m[i := v.value] else m - {i}
  }

  lemma PutsCommute<V>(m: map<int, V>, i: int, v: Option<V>, j: int, w: Option<V>)
    requires i != j
    ensures Put(Put(m, i, v), j, w) == Put(Put(m, j, w), i, v)
  {
    var a, b := Put(Put(m, i, v), j, w), Put(Put(m, j, w), i, v);
    assert a.Keys == b.Keys;
  }

  lemma PutOwn<V>(m: map<int, V>, i: int)
    ensures Put(m, i, Get(m, i)) == m
  {
    assert Put(m, i, Get(m, i)).Keys == m.Keys;
  }

  /** A local effect rewrites one entry of each table. */
  lemma LocalPuts(t: Tables, f: Effect, i: int)
    requires LocalTo(f, i)
    ensures var u := Apply(t, f);
            && u.rows == Put(t.rows, i, Get(u.rows, i)) && u.claims == Put(t.claims, i, Get(u.claims, i))
            && u.codes == Put(t.codes, i, Get(u.codes, i)) && u.secrets == Put(t.secrets, i, Get(u.secrets, i))
            && u.logins == t.logins && u.nextId == t.nextId
  {
    PutOwn(t.rows, i);
    PutOwn(t.claims, i);
    PutOwn(t.codes, i);
    PutOwn(t.secrets, i);
  }

  lemma LocalEntries(t: Tables, u: Tables, f: Effect, i: int)
    requires LocalTo(f, i) && SameAt(t, u, i)
    ensures var a, b := Apply(t, f), Apply(u, f);
            && Get(a.rows, i) == Get(b.rows, i) && Get(a.claims, i) == Get(b.claims, i)
            && Get(a.codes, i) == Get(b.codes, i) && Get(a.secrets, i) == Get(b.secrets, i)
  {}

  lemma EffectsCommute(t: Tables, f: Effect, g: Effect, i: int, j: int)
    requires LocalTo(f, i) && LocalTo(g, j) && i != j
    ensures Apply(Apply(t, f), g) == Apply(Apply(t, g), f)
  {
    var u, w := Apply(t, f), Apply(t, g);
    LocalPuts(t, f, i);
    LocalPuts(t, g, j);
    LocalPuts(u, g, j);
    LocalPuts(w, f, i);
    LocalLeavesOthers(t, f, i, j);
    LocalLeavesOthers(t, g, j, i);
    LocalEntries(t, w, f, i);
    LocalEntries(t, u, g, j);
    PutsCommute(t.rows, i, Get(u.rows, i), j, Get(w.rows, j));
    PutsCommute(t.claims, i, Get(u.claims, i), j, Get(w.claims, j));
    PutsCommute(t.codes, i, Get(u.codes, i), j, Get(w.codes, j));
    PutsCommute(t.secrets, i, Get(u.secrets, i), j, Get(w.secrets, j));
  }

  lemma LoginEffectsCommute(t: Tables, f: Effect, g: Effect, i: int)
    requires LocalTo(f, i) && OnLogins(g)
    ensures Apply(Apply(t, f), g) == Apply(Apply(t, g), f)
  {}

  lemma LocalKeepsLogins(t: Tables, f: Effect, i: int)
    requires LocalTo(f, i)
    ensures Apply(t, f).logins == t.logins
  {}

  lemma OnLoginsKeepsRest(t: Tables, g: Effect, i: int)
    requires OnLogins(g)
    ensures SameAt(t, Apply(t, g), i)
  {}

  /** After a step of a disjoint call a call does exactly what it would have done before it. */
  lemma Undisturbed(k: Call, t: Tables, e: Env, g: Effect, j: int)
    requires Single(k.q) && FitCall(k) && Subject(k.q) != j && (LocalTo(g, j) || (OnLogins(g) && Local(k.q)))
    ensures Goto(k.q, k.pc, Apply(t, g), e) == Goto(k.q, k.pc, t, e)
    ensures Act(k.q, k.pc, Apply(t, g), e) == Act(k.q, k.pc, t, e)
  {
    hide Goto, Act, Apply, SameAt, LocalTo, OnLogins, Fits;
    if LocalTo(g, j) {
      LocalLeavesOthers(t, g, j, Subject(k.q));
      LocalKeepsLogins(t, g, j);
    } else {
      OnLoginsKeepsRest(t, g, Subject(k.q));
    }
    GoesAlike(k, t, Apply(t, g), e);
  }

  /** Steps of disjoint calls commute: same stores, same responses. */
  lemma MovesCommute(m: Machine, u: Move, v: Move)
    requires InPlace(m) && Apart(RequestsOf(m), u.c, v.c)
    ensures Advance(Advance(m, u), v) == Advance(Advance(m, v), u)
  {
    hide Goto, Act, Apply, LocalTo, OnLogins, Fits;
    var k, l := m.calls[u.c], m.calls[v.c];
    assert FitCall(k) && FitCall(l);
    var i, j := Subject(k.q), Subject(l.q);
    var f, g := Act(k.q, k.pc, m.t, u.e), Act(l.q, l.pc, m.t, v.e);
    SingleEffects(k, m.t, u.e);
    SingleEffects(l, m.t, v.e);
    Undisturbed(k, m.t, u.e, g, j);
    Undisturbed(l, m.t, v.e, f, i);
    if LocalTo(f, i) && LocalTo(g, j) {
      EffectsCommute(m.t, f, g, i, j);
    } else if LocalTo(f, i) {
      LoginEffectsCommute(m.t, f, g, i);
    } else {
      LoginEffectsCommute(m.t, g, f, j);
    }
    var p, q := k.(pc := Goto(k.q, k.pc, m.t, u.e)), l.(pc := Goto(l.q, l.pc, m.t, v.e));
    assert m.calls[u.c := p][v.c := q] == m.calls[v.c := q][u.c := p];
  }

  lemma AdvanceKeeps(m: Machine, v: Move)
    requires InPlace(m)
    ensures InPlace(Advance(m, v)) && RequestsOf(Advance(m, v)) == RequestsOf(m)
  {
    if v.c in m.calls {
      var k := m.calls[v.c];
      assert FitCall(k);
      FitsStays(k.q, k.pc, m.t, v.e);
      assert FitCall(k.(pc := Goto(k.q, k.pc, m.t, v.e)));
    }
  }

  // ---------- regrouping a schedule by call ----------

  /** The moves of one call, in order. */
  function Of(vs: seq<Move>, c: nat): seq<Move> {
    if vs == [] then [] else (if vs[0].c == c then [vs[0]] else []) + Of(vs[1..], c)
  }

  /** The moves of all other calls, in order. */
  function Except(vs: seq<Move>, c: nat): (ws: seq<Move>)
    ensures |ws| <= |vs|
  {
    if vs == [] then [] else (if vs[0].c == c then [] else [vs[0]]) + Except(vs[1..], c)
  }

  /** Calls in order of their first move, each call's moves together. */
  function Grouped(vs: seq<Move>): seq<Move>
    decreases |vs|
  {
    if vs == [] then [] else Of(vs, vs[0].c) + Grouped(Except(vs[1..], vs[0].c))
  }

  lemma {:induction false} PlayAppends(m: Machine, vs: seq<Move>, ws: seq<Move>)
    ensures Play(m, vs + ws) == Play(Play(m, vs), ws)
    decreases vs
  {
    if vs == [] {
      assert vs + ws == ws;
    } else {
      assert (vs + ws)[1..] == vs[1..] + ws;
      PlayAppends(Advance(m, vs[0]), vs[1..], ws);
    }
  }

  ghost predicate AllBy(vs: seq<Move>, c: nat) {
    forall i :: 0 <= i < |vs| ==> vs[i].c == c
  }

  lemma {:induction false} OfIsBy(vs: seq<Move>, c: nat)
    ensures AllBy(Of(vs, c), c)
  {
    if vs != [] {
      OfIsBy(vs[1..], c);
    }
  }

  /** A move slides past a block of moves of a call on another appliance. */
  lemma {:induction false} MoveSlides(m: Machine, v: Move, ws: seq<Move>, c: nat)
    requires InPlace(m) && Apart(RequestsOf(m), c, v.c) && AllBy(ws, c)
    ensures Play(Advance(m, v), ws) == Advance(Play(m, ws), v)
    decreases ws
  {
    if ws != [] {
      MovesCommute(m, v, ws[0]);
      AdvanceKeeps(m, ws[0]);
      MoveSlides(Advance(m, ws[0]), v, ws[1..], c);
    }
  }

  /** No call moves before a later move of c unless they concern different appliances. */
  ghost predicate Clears(qs: Requests, vs: seq<Move>, c: nat) {
    forall j, k :: 0 <= j < k < |vs| && vs[k].c == c && vs[j].c != c ==> Apart(qs, c, vs[j].c)
  }

  lemma {:induction false} OfEmpty(vs: seq<Move>, c: nat)
    ensures Of(vs, c) == [] ==> Except(vs, c) == vs
    ensures Of(vs, c) != [] ==> exists k :: 0 <= k < |vs| && vs[k].c == c
  {
    if vs != [] {
      OfEmpty(vs[1..], c);
      if vs[0].c != c && Of(vs, c) != [] {
        var k :| 0 <= k < |vs[1..]| && vs[1..][k].c == c;
        assert vs[k + 1].c == c;
      }
    }
  }

  /** A call's moves can be brought to the front. */
  lemma {:induction false} PullToFront(m: Machine, vs: seq<Move>, c: nat)
    requires InPlace(m) && Clears(RequestsOf(m), vs, c)
    ensures Play(m, vs) == Play(m, Of(vs, c) + Except(vs, c))
    decreases vs
  {
    if vs != [] {
      var v, rest := vs[0], vs[1..];
      AdvanceKeeps(m, v);
      assert Clears(RequestsOf(m), rest, c) by {
        assert forall j :: 0 <= j < |rest| ==> rest[j] == vs[j + 1];
      }
      PullToFront(Advance(m, v), rest, c);
      PlayAppends(Advance(m, v), Of(rest, c), Except(rest, c));
      assert vs == [v] + rest;
      if v.c == c {
        assert Of(vs, c) == [v] + Of(rest, c) && Except(vs, c) == Except(rest, c);
        assert Of(vs, c)[1..] == Of(rest, c);
        PlayAppends(m, Of(vs, c), Except(rest, c));
      } else {
        assert Of(vs, c) == Of(rest, c) && Except(vs, c) == [v] + Except(rest, c);
        PullPast(m, v, rest, c);
      }
    }
  }

  /** The case of a first move by another call. */
  lemma PullPast(m: Machine, v: Move, rest: seq<Move>, c: nat)
    requires InPlace(m) && v.c != c && Clears(RequestsOf(m), [v] + rest, c)
    requires Play(Advance(m, v), rest) == Play(Play(Advance(m, v), Of(rest, c)), Except(rest, c))
    ensures Play(Advance(m, v), rest) == Play(m, Of(rest, c) + ([v] + Except(rest, c)))
  {
    var ws := [v] + Except(rest, c);
    assert ws[0] == v && ws[1..] == Except(rest, c);
    PlayAppends(m, Of(rest, c), ws);
    OfIsBy(rest, c);
    OfEmpty(rest, c);
    if Of(rest, c) != [] {
      var k :| 0 <= k < |rest| && rest[k].c == c;
      assert ([v] + rest)[k + 1].c == c && ([v] + rest)[0] == v;
      MoveSlides(m, v, Of(rest, c), c);
    }
  }

  /** Except keeps moves in order: it is a selection of positions. */
  lemma {:induction false} ExceptSelects(vs: seq<Move>, c: nat) returns (at: seq<nat>)
    ensures |at| == |Except(vs, c)|
    ensures forall i :: 0 <= i < |at| ==> at[i] < |vs| && vs[at[i]] == Except(vs, c)[i]
    ensures forall i, j :: 0 <= i < j < |at| ==> at[i] < at[j]
    ensures forall i :: 0 <= i < |at| ==> Except(vs, c)[i].c != c
  {
    at := [];
    if vs != [] {
      var sub := ExceptSelects(vs[1..], c);
      var shifted := seq(|sub|, i requires 0 <= i < |sub| => sub[i] + 1);
      at := if vs[0].c == c then shifted else [0] + shifted;
    }
  }

  lemma NonOverlapSurvives(qs: Requests, vs: seq<Move>)
    requires vs != [] && NonOverlapping(qs, vs)
    ensures Clears(qs, vs[1..], vs[0].c)
    ensures NonOverlapping(qs, Except(vs[1..], vs[0].c))
  {
    var c, rest := vs[0].c, vs[1..];
    forall j, k | 0 <= j < k < |rest| && rest[k].c == c && rest[j].c != c ensures Apart(qs, c, rest[j].c) {
      assert vs[0].c == vs[k + 1].c && vs[j + 1].c != vs[0].c;
    }
    var at := ExceptSelects(rest, c);
    var ws := Except(rest, c);
    forall i, j, k | 0 <= i < j < k < |ws| && ws[i].c == ws[k].c && ws[j].c != ws[i].c
      ensures Apart(qs, ws[i].c, ws[j].c)
    {
      assert vs[at[i] + 1] == ws[i] && vs[at[j] + 1] == ws[j] && vs[at[k] + 1] == ws[k];
    }
  }

  /** Serialisation per appliance suffices: the interleaving and the one-at-a-time order leave the same
      stores and the same responses. */
  lemma {:induction false} InterleavingIsSerial(m: Machine, vs: seq<Move>)
    requires InPlace(m) && NonOverlapping(RequestsOf(m), vs)
    ensures Play(m, vs) == Play(m, Grouped(vs))
    decreases |vs|
  {
    if vs != [] {
      var v, rest, c := vs[0], vs[1..], vs[0].c;
      NonOverlapSurvives(RequestsOf(m), vs);
      AdvanceKeeps(m, v);
      PullToFront(Advance(m, v), rest, c);
      PlayAppends(Advance(m, v), Of(rest, c), Except(rest, c));
      var n := Play(Advance(m, v), Of(rest, c));
      PlayKeeps(Advance(m, v), Of(rest, c));
      InterleavingIsSerial(n, Except(rest, c));
      assert Of(vs, c) == [v] + Of(rest, c);
      assert Of(vs, c)[1..] == Of(rest, c);
      PlayAppends(m, Of(vs, c), Grouped(Except(rest, c)));
    }
  }

  lemma {:induction false} PlayKeeps(m: Machine, vs: seq<Move>)
    requires InPlace(m)
    ensures InPlace(Play(m, vs)) && RequestsOf(Play(m, vs)) == RequestsOf(m)
    decreases vs
  {
    if vs != [] {
      AdvanceKeeps(m, vs[0]);
      PlayKeeps(Advance(m, vs[0]), vs[1..]);
    }
  }

  // ---------- the order is one at a time, and keeps every call's own moves ----------

  lemma {:induction false} OfAppends(vs: seq<Move>, ws: seq<Move>, c: nat)
    ensures Of(vs + ws, c) == Of(vs, c) + Of(ws, c)
  {
    if vs == [] {
      assert vs + ws == ws;
    } else {
      assert (vs + ws)[0] == vs[0] && (vs + ws)[1..] == vs[1..] + ws;
      OfAppends(vs[1..], ws, c);
      var first := if vs[0].c == c then [vs[0]] else [];
      assert first + (Of(vs[1..], c) + Of(ws, c)) == first + Of(vs[1..], c) + Of(ws, c);
    }
  }

  lemma {:induction false} OfOf(vs: seq<Move>, c: nat, d: nat)
    ensures Of(Of(vs, c), d) == if d == c then Of(vs, c) else []
    ensures Of(Except(vs, c), d) == if d == c then [] else Of(vs, d)
  {
    if vs != [] {
      OfOf(vs[1..], c, d);
      OfAppends(if vs[0].c == c then [vs[0]] else [], Of(vs[1..], c), d);
      OfAppends(if vs[0].c == c then [] else [vs[0]], Except(vs[1..], c), d);
      assert Of([vs[0]], d) == if vs[0].c == d then [vs[0]] else [];
    }
  }

  /** The serial order takes every call's moves, all of them and in their own order. */
  lemma {:induction false} GroupedKeepsCalls(vs: seq<Move>, d: nat)
    ensures Of(Grouped(vs), d) == Of(vs, d)
    decreases |vs|
  {
    if vs != [] {
      var c, rest := vs[0].c, vs[1..];
      GroupedKeepsCalls(Except(rest, c), d);
      OfAppends(Of(vs, c), Grouped(Except(rest, c)), d);
      OfOf(vs, c, d);
      OfOf(rest, c, d);
    }
  }

  lemma {:induction false} GroupedHas(vs: seq<Move>, d: nat)
    requires exists i :: 0 <= i < |Grouped(vs)| && Grouped(vs)[i].c == d
    ensures Of(vs, d) != []
  {
    GroupedKeepsCalls(vs, d);
    var i :| 0 <= i < |Grouped(vs)| && Grouped(vs)[i].c == d;
    OfFinds(Grouped(vs), d, i);
  }

  lemma {:induction false} OfFinds(vs: seq<Move>, d: nat, i: nat)
    requires i < |vs| && vs[i].c == d
    ensures Of(vs, d) != []
  {
    if i > 0 {
      OfFinds(vs[1..], d, i - 1);
    }
  }

  lemma {:induction false} GroupedIsOneAtATime(vs: seq<Move>)
    ensures OneAtATime(Grouped(vs))
    decreases |vs|
  {
    if vs != [] {
      var c, rest := vs[0].c, Except(vs[1..], vs[0].c);
      var a, b := Of(vs, c), Grouped(rest);
      GroupedIsOneAtATime(rest);
      OfIsBy(vs, c);
      OfOf(vs[1..], c, c);
      forall i | 0 <= i < |b| ensures b[i].c != c {
        if b[i].c == c {
          GroupedHas(rest, c);
        }
      }
      var g := a + b;
      forall i, j, k | 0 <= i < j < k < |g| && g[i].c == g[k].c ensures g[j].c == g[i].c {
        if i < |a| {
          assert k < |a|;
        } else {
          assert g[i] == b[i - |a|] && g[j] == b[j - |a|] && g[k] == b[k - |a|];
        }
      }
    }
  }
}
