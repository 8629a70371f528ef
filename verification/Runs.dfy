/** Any number of calls in flight at once, interleaved step by step, and what has been observed so far. */
module Runs {
  import opened Tokens
  import opened Persistence
  import opened Protocol

  datatype Call = Call(q: Request, pc: Pc)

  /** Who was granted a login code, for which appliance and group, and until when. */
  datatype Grant = Grant(issuer: nat, login: LoginRow, group: int)

  /** Observations only: no step depends on them. */
  datatype History = History(
    drawn: set<string>,           // random values drawn so far
    published: set<Hash>,         // hashes written to a secret-hash, claim-token or login-code column
    grants: map<Hash, Grant>,     // login codes ever stored
    spent: map<Hash, nat>,        // login codes consumed, and by which call
    issued: map<int, seq<string>>,// secrets returned by successful responses, oldest first
    claimed: multiset<int>,       // successful Claim and EnrollRedeem responses
    stale: set<int>)              // appliances whose last hash write by a rotation failed

  const EMPTY_HISTORY := History({}, {}, map[], map[], map[], multiset{}, {})

  datatype System = System(t: Tables, calls: map<nat, Call>, clock: int, h: History)

  const INIT := System(EMPTY_TABLES, map[], 0, EMPTY_HISTORY)

  datatype Event = Open(c: nat, q: Request) | Turn(c: nat, e: Env)

  function Issued(h: History, id: int): seq<string> {
    if id in h.issued then h.issued[id] else []
  }

  function Publishes(f: Effect): set<Hash> {
    match f
    case SetHash(_, Some(x)) => {x}
    case SetClaim(_, row) => {row.tokenHash}
    case AddLogin(key, _) => {key}
    case _ => {}
  }

  predicate Rotating(k: Call) {
    k.pc.PutHash? && !Door(k.q)
  }

  function Record(h: History, c: nat, k: Call, f: Effect, p: Pc, e: Env): History {
    var id := Subject(k.q);
    var won := p.End? && p.response.Secret?;
    History(
      h.drawn + {e.nonce},
      h.published + Publishes(f),
      if f.AddLogin? && k.q.CreateLoginCode? then h.grants[f.key := Grant(c, f.login, k.q.group)] else h.grants,
      if f.TakeLogin? then h.spent[f.key := c] else h.spent,
      if won then h.issued[id := Issued(h, id) + [p.response.secret]] else h.issued,
      if won && Door(k.q) then h.claimed + multiset{id} else h.claimed,
      if !Rotating(k) then h.stale else if f.Nothing? then h.stale + {id} else h.stale - {id})
  }

  predicate Can(y: System, v: Event) {
    match v
    case Open(c, _) => c !in y.calls
    case Turn(c, e) =>
      c in y.calls && !y.calls[c].pc.End? && y.clock <= e.now && IsNonce(e.nonce) && e.nonce !in y.h.drawn
  }

  /** The system after call c moved to p with effect f. */
  function Moved(y: System, c: nat, p: Pc, f: Effect, e: Env): System
    requires c in y.calls
  {
    System(Apply(y.t, f), y.calls[c := y.calls[c].(pc := p)], e.now, Record(y.h, c, y.calls[c], f, p, e))
  }

  function Do(y: System, v: Event): System
    requires Can(y, v)
  {
    match v
    case Open(c, q) => y.(calls := y.calls[c := Call(q, Begin(q))])
    case Turn(c, e) =>
      var k := y.calls[c];
      Moved(y, c, Goto(k.q, k.pc, y.t, e), Act(k.q, k.pc, y.t, e), e)
  }

  /** ys are consecutive states, es the events between them. */
  ghost predicate Path(ys: seq<System>, es: seq<Event>) {
    && |ys| == |es| + 1
    && forall i :: 0 <= i < |es| ==> StepAt(ys, es, i)
  }

  /** A run starts from empty stores with no call in flight. */
  ghost predicate Run(ys: seq<System>, es: seq<Event>) {
    Path(ys, es) && ys[0] == INIT
  }

  ghost predicate StepAt(ys: seq<System>, es: seq<Event>, i: nat)
    requires |ys| == |es| + 1 && i < |es|
  {
    Can(ys[i], es[i]) && ys[i + 1] == Do(ys[i], es[i])
  }

  /** A call still changing, or about to change, an appliance's credentials or status. */
  predicate Busy(k: Call) {
    Writer(k.q) && !k.pc.End?
  }

  /** No two calls that change the same appliance overlap. */
  ghost predicate Exclusive(y: System) {
    forall c, d :: c in y.calls && d in y.calls && c != d && Busy(y.calls[c]) && Busy(y.calls[d])
      ==> Subject(y.calls[c].q) != Subject(y.calls[d].q)
  }

  ghost predicate Serialised(ys: seq<System>) {
    forall i :: 0 <= i < |ys| ==> Exclusive(ys[i])
  }

  /** What one event does to one call: it takes the call's own next step, opens it, or leaves it alone. */
  lemma CallStep(y: System, v: Event, c: nat)
    requires Can(y, v)
    ensures v.Turn? && v.c == c ==>
              c in Do(y, v).calls
              && Do(y, v).calls[c] == Call(y.calls[c].q, Goto(y.calls[c].q, y.calls[c].pc, y.t, v.e))
    ensures v.c != c ==> (c in Do(y, v).calls <==> c in y.calls) && (c in y.calls ==> Do(y, v).calls[c] == y.calls[c])
    ensures v.Open? && v.c == c ==> c in Do(y, v).calls && Do(y, v).calls[c] == Call(v.q, Begin(v.q))
  {}

  lemma {:induction false} Unmoved(ys: seq<System>, es: seq<Event>, c: nat, i: nat, k: nat)
    requires Path(ys, es) && i <= k < |ys|
    requires forall m :: i <= m < k ==> es[m].c != c
    ensures c in ys[k].calls <==> c in ys[i].calls
    ensures c in ys[k].calls ==> ys[k].calls[c] == ys[i].calls[c]
    decreases k
  {
    hide Goto, Act, Apply, Record, Do;
    if i < k {
      Unmoved(ys, es, c, i, k - 1);
      assert StepAt(ys, es, k - 1);
      CallStep(ys[k - 1], es[k - 1], c);
    }
  }

  /** A call stays, with its request, and nothing more happens to it once it has responded. */
  lemma {:induction false} CallsRemain(ys: seq<System>, es: seq<Event>, c: nat, i: nat, j: nat)
    requires Path(ys, es) && i <= j < |ys| && c in ys[i].calls
    ensures c in ys[j].calls && ys[j].calls[c].q == ys[i].calls[c].q
    ensures ys[i].calls[c].pc.End? ==> ys[j].calls[c] == ys[i].calls[c]
    decreases j
  {
    hide Goto, Act, Apply, Record;
    if i < j {
      CallsRemain(ys, es, c, i, j - 1);
      assert StepAt(ys, es, j - 1);
      CallStep(ys[j - 1], es[j - 1], c);
    }
  }

  lemma PathBetween(ys: seq<System>, es: seq<Event>, i: nat, j: nat)
    requires Path(ys, es) && i <= j < |ys|
    ensures Path(ys[i..j + 1], es[i..j])
  {
    hide Goto, Act, Apply, Record, Do, Can;
    var zs, vs := ys[i..j + 1], es[i..j];
    forall k | 0 <= k < |vs| ensures StepAt(zs, vs, k) {
      assert StepAt(ys, es, i + k);
    }
  }

  /** The last event of a call before j. */
  lemma {:induction false} LastEvent(ys: seq<System>, es: seq<Event>, c: nat, j: nat) returns (i: nat)
    requires Run(ys, es) && j < |ys| && c in ys[j].calls
    ensures i < j && es[i].c == c && forall m :: i < m < j ==> es[m].c != c
    decreases j
  {
    assert INIT.calls == map[];
    if es[j - 1].c == c {
      i := j - 1;
    } else {
      Unmoved(ys, es, c, j - 1, j);
      i := LastEvent(ys, es, c, j - 1);
    }
  }

  /** The step a call last took: the one that brought it to where it now stands. */
  lemma Arrival(ys: seq<System>, es: seq<Event>, c: nat, j: nat) returns (i: nat)
    requires Run(ys, es) && j < |ys|
    requires c in ys[j].calls && ys[j].calls[c].pc != Begin(ys[j].calls[c].q)
    ensures i < j && es[i].Turn? && es[i].c == c
    ensures c in ys[i].calls && ys[i].calls[c].q == ys[j].calls[c].q
    ensures Goto(ys[i].calls[c].q, ys[i].calls[c].pc, ys[i].t, es[i].e) == ys[j].calls[c].pc
    ensures Can(ys[i], es[i]) && ys[i + 1] == Do(ys[i], es[i])
    ensures forall m :: i < m < j ==> es[m].c != c
  {
    hide Goto, Act, Apply, Record, Do;
    i := LastEvent(ys, es, c, j);
    assert StepAt(ys, es, i);
    CallStep(ys[i], es[i], c);
    Unmoved(ys, es, c, i + 1, j);
  }

  predicate FitCall(k: Call) {
    Fits(k.q, k.pc)
  }

  ghost predicate AllFit(y: System) {
    forall c :: c in y.calls ==> FitCall(y.calls[c])
  }

  lemma FitStep(y: System, v: Event)
    requires Can(y, v) && AllFit(y)
    ensures AllFit(Do(y, v))
  {
    match v
    case Open(c, q) => FitsFromBegin(q);
    case Turn(c, e) =>
      var k := y.calls[c];
      assert FitCall(k);
      FitsStays(k.q, k.pc, y.t, e);
      var k' := k.(pc := Goto(k.q, k.pc, y.t, e));
      assert FitCall(k');
      assert Do(y, v).calls == y.calls[c := k'];
  }

  /** Every call stands at a program point of its own handler. */
  lemma {:induction false} CallsFit(ys: seq<System>, es: seq<Event>, j: nat)
    requires Run(ys, es) && j < |ys|
    ensures AllFit(ys[j])
    decreases j
  {
    hide Goto, Act, Apply, Record, Do;
    if j > 0 {
      CallsFit(ys, es, j - 1);
      assert StepAt(ys, es, j - 1);
      FitStep(ys[j - 1], es[j - 1]);
    }
  }
}
