/** Creating appliances, whatever else is in flight: one row per call, and the row a call returns is its own. */
module Creation {
  import opened Wrappers
  import opened Persistence
  import opened Protocol
  import opened Runs
  import opened Lifecycle

  /** Event v adds a row. */
  predicate Adds(y: System, v: Event) {
    v.Turn? && v.c in y.calls && Act(y.calls[v.c].q, y.calls[v.c].pc, y.t, v.e).AddRow?
  }

  lemma AddMeans(k: Call, t: Tables, e: Env)
    requires Act(k.q, k.pc, t, e).AddRow?
    ensures k.pc.Insert? && (k.q.Register? || k.q.Enroll?) && !LabelTaken(t.rows, e.hostLabel)
    ensures Act(k.q, k.pc, t, e) == AddRow(k.q.name, e.hostLabel, k.q.group)
    ensures Goto(k.q, k.pc, t, e) == Inserted(t.nextId)
  {}

  lemma NoInsertAgain(k: Call, t: Tables, e: Env)
    requires Goto(k.q, k.pc, t, e).Insert?
    ensures k.pc.Insert?
    ensures !k.pc.End? ==> k.pc.attempt < MAX_LABEL_ATTEMPTS - 1 && Goto(k.q, k.pc, t, e).attempt == k.pc.attempt + 1
  {}

  lemma {:induction false} InsertedForGood(ys: seq<System>, es: seq<Event>, c: nat, i: nat, j: nat)
    requires Run(ys, es) && i <= j < |ys| && c in ys[i].calls && !ys[i].calls[c].pc.Insert?
    ensures c in ys[j].calls && !ys[j].calls[c].pc.Insert?
    decreases j
  {
    hide Goto, Act, Apply, Record;
    if i < j {
      InsertedForGood(ys, es, c, i, j - 1);
      assert StepAt(ys, es, j - 1);
      CallStep(ys[j - 1], es[j - 1], c);
      var k := ys[j - 1].calls[c];
      if es[j - 1].c == c && Goto(k.q, k.pc, ys[j - 1].t, es[j - 1].e).Insert? {
        NoInsertAgain(k, ys[j - 1].t, es[j - 1].e);
      }
    }
  }

  lemma AddsNoMore(ys: seq<System>, es: seq<Event>, i: nat, k: nat)
    requires Run(ys, es) && i < k < |es| && Adds(ys[i], es[i])
    ensures !(Adds(ys[k], es[k]) && es[k].c == es[i].c)
  {
    hide Goto, Act, Apply, Record;
    assert StepAt(ys, es, i);
    CallStep(ys[i], es[i], es[i].c);
    AddMeans(ys[i].calls[es[i].c], ys[i].t, es[i].e);
    InsertedForGood(ys, es, es[i].c, i + 1, k);
    if Adds(ys[k], es[k]) && es[k].c == es[i].c {
      AddMeans(ys[k].calls[es[k].c], ys[k].t, es[k].e);
    }
  }

  /** A call adds at most one row. */
  lemma OneRowPerCall(ys: seq<System>, es: seq<Event>, i: nat, k: nat)
    requires Run(ys, es) && i < |es| && k < |es|
    requires Adds(ys[i], es[i]) && Adds(ys[k], es[k]) && es[i].c == es[k].c
    ensures i == k
  {
    hide Adds;
    if i < k {
      AddsNoMore(ys, es, i, k);
    } else if k < i {
      AddsNoMore(ys, es, k, i);
    }
  }

  // ---------- five attempts ----------

  /** How often call c has tried to insert a row by state j. */
  function InsertTurns(ys: seq<System>, es: seq<Event>, c: nat, j: nat): nat
    requires |ys| == |es| + 1 && j < |ys|
  {
    if j == 0 then 0
    else
      var y, v := ys[j - 1], es[j - 1];
      InsertTurns(ys, es, c, j - 1) + if v.Turn? && v.c == c && c in y.calls && y.calls[c].pc.Insert? then 1 else 0
  }

  /** What the count says of where the call stands. */
  predicate Counted(y: System, c: nat, n: nat) {
    if c !in y.calls then n == 0
    else if y.calls[c].pc.Insert? then n == y.calls[c].pc.attempt < MAX_LABEL_ATTEMPTS
    else n <= MAX_LABEL_ATTEMPTS
  }

  lemma {:induction false} FiveAttempts(ys: seq<System>, es: seq<Event>, c: nat, j: nat)
    requires Run(ys, es) && j < |ys|
    ensures Counted(ys[j], c, InsertTurns(ys, es, c, j))
    ensures InsertTurns(ys, es, c, j) <= 5
    decreases j
  {
    hide Goto, Act, Apply, Record, Begin;
    if j > 0 {
      FiveAttempts(ys, es, c, j - 1);
      var y, v := ys[j - 1], es[j - 1];
      assert StepAt(ys, es, j - 1);
      CallStep(y, v, c);
      match v
      case Open(_, q) => BeginsAtZero(q);
      case Turn(_, e) =>
        if v.c == c && Goto(y.calls[c].q, y.calls[c].pc, y.t, e).Insert? {
          NoInsertAgain(y.calls[c], y.t, e);
        }
    }
  }

  lemma BeginsAtZero(q: Request)
    ensures Begin(q).Insert? ==> Begin(q) == Insert(0)
  {}

  // ---------- the row a call returns ----------

  /** The id of the appliance that a creating call works on, or has returned. */
  function IdMade(p: Pc): Option<int> {
    match p
    case Inserted(id) => Some(id)
    case IssueNow(id, _) => Some(id)
    case SaveClaim(id, _, _, _) => Some(id)
    case CodeNow(id, _, _) => Some(id)
    case SaveCode(id, _, _, _, _) => Some(id)
    case End(Registered(id, _, _, _)) => Some(id)
    case End(Enrolled(id, _, _)) => Some(id)
    case _ => None
  }

  function LabelMade(p: Pc): Option<string> {
    match p
    case IssueNow(_, l) => Some(l)
    case SaveClaim(_, _, _, l) => Some(l)
    case End(Registered(_, l, _, _)) => Some(l)
    case _ => None
  }

  predicate Creator(q: Request) {
    q.Register? || q.Enroll?
  }

  lemma IdComesFrom(k: Call, t: Tables, e: Env, id: int)
    requires Creator(k.q) && Fits(k.q, k.pc) && !k.pc.End? && IdMade(Goto(k.q, k.pc, t, e)) == Some(id)
    ensures IdMade(k.pc) == Some(id) || (Act(k.q, k.pc, t, e).AddRow? && t.nextId == id)
  {}

  lemma LabelComesFrom(k: Call, t: Tables, e: Env, l: string)
    requires Creator(k.q) && Fits(k.q, k.pc) && !k.pc.End? && LabelMade(Goto(k.q, k.pc, t, e)) == Some(l)
    ensures LabelMade(k.pc) == Some(l) || (k.pc.Inserted? && k.pc.id in t.rows && t.rows[k.pc.id].hostLabel == l)
  {}

  lemma NotYetMade(q: Request)
    requires Creator(q)
    ensures IdMade(Begin(q)) == None && LabelMade(Begin(q)) == None
  {}

  /** The insert behind the id a call works on. */
  lemma {:induction false} InsertBehind(ys: seq<System>, es: seq<Event>, c: nat, j: nat) returns (i: nat)
    requires Run(ys, es) && j < |ys| && c in ys[j].calls && Creator(ys[j].calls[c].q) && IdMade(ys[j].calls[c].pc).Some?
    ensures i < j && Adds(ys[i], es[i]) && es[i].c == c && ys[i].calls[c].q == ys[j].calls[c].q
    ensures IdMade(ys[j].calls[c].pc) == Some(ys[i].t.nextId)
    decreases j
  {
    hide Goto, Act, Apply, Record, Begin;
    NotYetMade(ys[j].calls[c].q);
    i := Arrival(ys, es, c, j);
    CallsFit(ys, es, i);
    assert FitCall(ys[i].calls[c]);
    IdComesFrom(ys[i].calls[c], ys[i].t, es[i].e, IdMade(ys[j].calls[c].pc).value);
    if Adds(ys[i], es[i]) {
      AddMeans(ys[i].calls[c], ys[i].t, es[i].e);
    } else {
      i := InsertBehind(ys, es, c, i);
    }
  }

  /** The label a call carries is its row's. */
  lemma {:induction false} LabelIsItsRows(ys: seq<System>, es: seq<Event>, c: nat, j: nat)
    requires Run(ys, es) && j < |ys| && c in ys[j].calls && Creator(ys[j].calls[c].q)
        && LabelMade(ys[j].calls[c].pc).Some?
    ensures IdMade(ys[j].calls[c].pc).Some? && IdMade(ys[j].calls[c].pc).value in ys[j].t.rows
    ensures ys[j].t.rows[IdMade(ys[j].calls[c].pc).value].hostLabel == LabelMade(ys[j].calls[c].pc).value
    decreases j
  {
    hide Goto, Act, Apply, Record, Begin;
    var q, p := ys[j].calls[c].q, ys[j].calls[c].pc;
    NotYetMade(q);
    var i := Arrival(ys, es, c, j);
    CallsFit(ys, es, i);
    assert FitCall(ys[i].calls[c]);
    LabelComesFrom(ys[i].calls[c], ys[i].t, es[i].e, LabelMade(p).value);
    IdComesFrom(ys[i].calls[c], ys[i].t, es[i].e, IdMade(p).value);
    if Act(q, ys[i].calls[c].pc, ys[i].t, es[i].e).AddRow? {
      AddMeans(ys[i].calls[c], ys[i].t, es[i].e);
    } else if LabelMade(ys[i].calls[c].pc).Some? {
      LabelIsItsRows(ys, es, c, i);
    }
    RowsKeepIdentity(ys, es, IdMade(p).value, i, j);
  }

  lemma RowAdded(ys: seq<System>, es: seq<Event>, i: nat)
    requires Run(ys, es) && i < |es| && Adds(ys[i], es[i])
    ensures var q, id := ys[i].calls[es[i].c].q, ys[i].t.nextId;
            && Creator(q) && id !in ys[i].t.rows && !LabelTaken(ys[i].t.rows, es[i].e.hostLabel)
            && ys[i + 1].t == Apply(ys[i].t, AddRow(q.name, es[i].e.hostLabel, q.group))
            && id in ys[i + 1].t.rows
            && ys[i + 1].t.rows[id] == Row(q.name, es[i].e.hostLabel, q.group, Pending, None, None)
  {
    hide Goto, Act, Record, LabelTaken;
    assert StepAt(ys, es, i);
    AlwaysRegistry(ys, es, i);
    AddMeans(ys[i].calls[es[i].c], ys[i].t, es[i].e);
  }

  /** A Register or Enroll that succeeds returns the one row it added: pending, of its own name and group, under
      a label that no row held; that row keeps all three, and the label returned is its label. */
  lemma ReturnsItsRow(ys: seq<System>, es: seq<Event>, c: nat, j: nat) returns (i: nat)
    requires Run(ys, es) && j < |ys| && c in ys[j].calls && Creator(ys[j].calls[c].q)
    requires ys[j].calls[c].pc.End? && (ys[j].calls[c].pc.response.Registered? || ys[j].calls[c].pc.response.Enrolled?)
    ensures i < j && es[i].c == c && Adds(ys[i], es[i])
    ensures var q, r := ys[j].calls[c].q, ys[j].calls[c].pc.response;
            && r.id !in ys[i].t.rows && !LabelTaken(ys[i].t.rows, es[i].e.hostLabel)
            && ys[i + 1].t == Apply(ys[i].t, AddRow(q.name, es[i].e.hostLabel, q.group))
            && r.id in ys[i + 1].t.rows
            && ys[i + 1].t.rows[r.id] == Row(q.name, es[i].e.hostLabel, q.group, Pending, None, None)
            && r.id in ys[j].t.rows && ys[j].t.rows[r.id].name == q.name && ys[j].t.rows[r.id].group == q.group
            && ys[j].t.rows[r.id].hostLabel == es[i].e.hostLabel
            && (r.Registered? ==> r.hostLabel == es[i].e.hostLabel)
  {
    hide Goto, Act, Apply, LabelTaken, Adds;
    i := InsertBehind(ys, es, c, j);
    RowAdded(ys, es, i);
    RowsKeepIdentity(ys, es, ys[i].t.nextId, i + 1, j);
    if ys[j].calls[c].pc.response.Registered? {
      LabelIsItsRows(ys, es, c, j);
    }
  }
}
