/** The service beside one that never deletes for expiry: what relates the two, step by step. */
module Expiry {
  import opened Tokens
  import opened Persistence
  import opened Protocol
  import opened Runs
  import opened Freshness

  // ---------- the service without deletion on expiry ----------

  /** An expired claim token or exchange code is refused on the spot instead of being deleted first. */
  function Erase(p: Pc): Pc {
    if p.ClaimDrop? || p.CodeDrop? then End(Fail(401)) else p
  }

  function KeepGoto(q: Request, p: Pc, t: Tables, e: Env): Pc {
    Erase(Goto(q, p, t, e))
  }

  /** The pruning statement runs, and may fail, but deletes nothing. */
  function KeepAct(q: Request, p: Pc, t: Tables, e: Env): Effect {
    if p.LoginPrune? then Nothing else Act(q, p, t, e)
  }

  datatype Keeper = Keeper(t: Tables, calls: map<nat, Call>)

  function KeepStep(n: Keeper, c: nat, e: Env): Keeper {
    if c !in n.calls || n.calls[c].pc.End? then n
    else
      var k := n.calls[c];
      Keeper(Apply(n.t, KeepAct(k.q, k.pc, n.t, e)), n.calls[c := k.(pc := KeepGoto(k.q, k.pc, n.t, e))])
  }

  /** The keeper follows an event of the real service. It has one step fewer to take where the service
      deletes an expired row, and one more where the service misses a row that it still finds expired. */
  function KeepDo(n: Keeper, v: Event, finished: bool): Keeper {
    match v
    case Open(c, q) => n.(calls := n.calls[c := Call(q, Begin(q))])
    case Turn(c, e) =>
      var m := KeepStep(n, c, e);
      if finished then KeepStep(m, c, e) else m
  }

  predicate Finished(y: System, c: nat) {
    c in y.calls && y.calls[c].pc.End?
  }

  /** The keeper's state alongside state j of a run. */
  function KeepAt(ys: seq<System>, es: seq<Event>, j: nat): Keeper
    requires |ys| == |es| + 1 && j < |ys|
  {
    if j == 0 then Keeper(EMPTY_TABLES, map[])
    else KeepDo(KeepAt(ys, es, j - 1), es[j - 1], Finished(ys[j], es[j - 1].c))
  }

  // ---------- the relation between the two ----------

  predicate ClaimKept(y: System, n: Keeper, id: int) {
    && (id in y.t.claims ==> id in n.t.claims && n.t.claims[id] == y.t.claims[id])
    && (id in n.t.claims && id !in y.t.claims ==> n.t.claims[id].expiresAt < y.clock)
    && (id in n.t.claims ==> id < y.t.nextId)
  }

  predicate CodeKept(y: System, n: Keeper, id: int) {
    && (id in y.t.codes ==> id in n.t.codes && n.t.codes[id] == y.t.codes[id])
    && (id in n.t.codes && id !in y.t.codes ==> n.t.codes[id].expiresAt < y.clock)
    && (id in n.t.codes ==> id < y.t.nextId)
    && (id in n.t.codes ==>
          PinMatches(n.t, id, n.t.codes[id].pin) ==> n.t.codes[id].expiresAt <= n.t.claims[id].expiresAt)
  }

  predicate LoginKept(y: System, n: Keeper, h: Hash) {
    && (h in y.t.logins ==> h in n.t.logins && n.t.logins[h] == y.t.logins[h])
    && (h in n.t.logins && h !in y.t.logins ==> n.t.logins[h].expiresAt < y.clock)
    && (h in n.t.logins ==> h in y.h.published)
  }

  /** A call that has read the claim token, or the exchange code, of the appliance in its path. */
  predicate ReadsClaim(p: Pc) {
    p.ClaimCheck? || p.ClaimDrop?
  }

  predicate ReadsCode(p: Pc) {
    p.CodeCheck? || p.CodeDrop? || p.CodePin?
  }

  /** A Register or Enroll before it saves the claim token, or between that and saving the exchange code. */
  predicate MakesClaim(p: Pc) {
    p.Inserted? || p.IssueNow? || p.SaveClaim?
  }

  predicate MakesCode(p: Pc) {
    p.CodeNow? || p.SaveCode?
  }

  predicate PinMatches(t: Tables, id: int, pin: Hash) {
    id in t.claims && t.claims[id].tokenHash == pin
  }

  /** What a call has read or will write is consistent with what the keeper holds. */
  predicate Holds(y: System, n: Keeper, k: Call) {
    var id := Subject(k.q);
    && !k.q.Reissue?
    && (ReadsClaim(k.pc) || ReadsCode(k.pc) ==> id < y.t.nextId)
    && match k.pc
       case ClaimCheck(_, row) => id in n.t.claims ==> n.t.claims[id] == row
       case ClaimDrop => id in n.t.claims ==> n.t.claims[id].expiresAt < y.clock
       case CodeCheck(_, row) =>
         && (id in n.t.codes ==> n.t.codes[id] == row)
         && (PinMatches(n.t, id, row.pin) ==> row.expiresAt <= n.t.claims[id].expiresAt)
       case CodeDrop => id in n.t.codes ==> n.t.codes[id].expiresAt < y.clock
       case LoginPrune(cutoff, _, _, _) => cutoff <= y.clock
       case Inserted(i) => i < y.t.nextId && i !in n.t.claims && i !in n.t.codes
       case IssueNow(i, _) => i < y.t.nextId && i !in n.t.claims && i !in n.t.codes
       case SaveClaim(i, _, _, _) => i < y.t.nextId && i !in n.t.claims && i !in n.t.codes
       case CodeNow(i, pin, until) =>
         i < y.t.nextId && i !in n.t.codes && (PinMatches(n.t, i, pin) ==> n.t.claims[i].expiresAt == until)
       case SaveCode(i, pin, until, _, _) =>
         i < y.t.nextId && i !in n.t.codes && (PinMatches(n.t, i, pin) ==> n.t.claims[i].expiresAt == until)
       case _ => true
  }

  /** k is about to create for an appliance something that l has already read, or is creating too. */
  predicate Clash(k: Call, l: Call) {
    || ((MakesClaim(k.pc) || MakesCode(k.pc)) && (MakesClaim(l.pc) || MakesCode(l.pc)) && k.pc.id == l.pc.id)
    || (MakesClaim(k.pc) && (ReadsClaim(l.pc) || ReadsCode(l.pc)) && k.pc.id == Subject(l.q))
    || (MakesCode(k.pc) && ReadsCode(l.pc) && k.pc.id == Subject(l.q))
  }

  ghost predicate Alike(y: System, n: Keeper) {
    && n.calls.Keys == y.calls.Keys
    && (forall c :: c in y.calls ==> n.calls[c] == y.calls[c].(pc := Erase(y.calls[c].pc)))
    && n.t.rows == y.t.rows && n.t.secrets == y.t.secrets && n.t.nextId == y.t.nextId
  }

  ghost predicate Shadows(y: System, n: Keeper) {
    && Alike(y, n)
    && (forall id :: ClaimKept(y, n, id) && CodeKept(y, n, id))
    && (forall h :: LoginKept(y, n, h))
    && (forall c :: c in y.calls ==> Holds(y, n, y.calls[c]))
    && (forall c, d :: c in y.calls && d in y.calls && c != d ==> !Clash(y.calls[c], y.calls[d]))
  }

  // ---------- one step of one call, in both services ----------

  /** What is kept of the rows that call k may look at. */
  predicate KeptFor(y: System, n: Keeper, k: Call) {
    && ClaimKept(y, n, Subject(k.q)) && CodeKept(y, n, Subject(k.q)) && Holds(y, n, k)
    && (k.q.RedeemLoginCode? ==> LoginKept(y, n, Sha256(k.q.code)))
    && (k.pc.LoginInsert? ==> LoginKept(y, n, Sha256(k.pc.raw)) && Sha256(k.pc.raw) !in y.h.published)
    && n.t.rows == y.t.rows && n.t.nextId == y.t.nextId
  }

  /** An EnrollRedeem about to compare its pin with a claim token that was deleted, for expiry, since it
      checked its code. */
  predicate Stranded(y: System, n: Keeper, k: Call) {
    k.pc.CodePin? && Subject(k.q) !in y.t.claims && PinMatches(n.t, Subject(k.q), k.pc.pin)
  }

  /** The steps whose outcome depends on rows that may have been deleted for expiry. */
  predicate Looks(p: Pc) {
    p.ClaimRead? || p.CodeRead? || p.CodePin? || p.Consume?
  }

  lemma FollowLook(y: System, n: Keeper, k: Call, e: Env)
    requires KeptFor(y, n, k) && y.clock <= e.now && Looks(k.pc) && !(Stranded(y, n, k) && !e.fail)
    ensures var p, p' := Goto(k.q, k.pc, y.t, e), KeepGoto(k.q, k.pc, n.t, e);
            p' == Erase(p) || (p == End(Fail(401)) && RefusesExpired(k.q, p', e))
  {
    hide Listing, LabelTaken, Markable, Settable, ApplianceSecret, Door;
  }

  lemma FollowBlind(y: System, n: Keeper, k: Call, e: Env)
    requires KeptFor(y, n, k) && !Looks(k.pc) && !k.pc.ClaimDrop? && !k.pc.CodeDrop?
    ensures KeepGoto(k.q, k.pc, n.t, e) == Erase(Goto(k.q, k.pc, y.t, e))
  {
    hide KeptFor, Goto;
    BlindKept(y, n, k);
    if Rank(k.pc) < 3 {
      BlindLate(k, y.t, n.t, e);
    } else if Rank(k.pc) < 5 {
      BlindMidway(k, y.t, n.t, e);
    } else {
      BlindEarly(k, y.t, n.t, e);
    }
  }

  lemma BlindKept(y: System, n: Keeper, k: Call)
    requires KeptFor(y, n, k)
    ensures n.t.rows == y.t.rows && n.t.nextId == y.t.nextId
    ensures k.pc.LoginInsert? ==> (Sha256(k.pc.raw) in n.t.logins <==> Sha256(k.pc.raw) in y.t.logins)
  {}

  lemma BlindLate(k: Call, t: Tables, u: Tables, e: Env)
    requires !Looks(k.pc) && !k.pc.ClaimDrop? && !k.pc.CodeDrop? && Rank(k.pc) < 3
    requires u.rows == t.rows && u.nextId == t.nextId
    requires k.pc.LoginInsert? ==> (Sha256(k.pc.raw) in u.logins <==> Sha256(k.pc.raw) in t.logins)
    ensures KeepGoto(k.q, k.pc, u, e) == Erase(Goto(k.q, k.pc, t, e))
  {
    hide Redeemable, LabelTaken, ApplianceSecret, Markable, Settable, Door;
  }

  lemma BlindMidway(k: Call, t: Tables, u: Tables, e: Env)
    requires !Looks(k.pc) && 3 <= Rank(k.pc) < 5 && u.rows == t.rows && u.nextId == t.nextId
    ensures KeepGoto(k.q, k.pc, u, e) == Erase(Goto(k.q, k.pc, t, e))
  {
    hide Redeemable, LabelTaken, ApplianceSecret, Listing, Markable, Settable, Door;
  }

  lemma BlindEarly(k: Call, t: Tables, u: Tables, e: Env)
    requires !Looks(k.pc) && Rank(k.pc) >= 5 && u.rows == t.rows && u.nextId == t.nextId
    ensures KeepGoto(k.q, k.pc, u, e) == Erase(Goto(k.q, k.pc, t, e))
  {
    hide Redeemable, LabelTaken, ApplianceSecret, Listing, Markable, Settable, Door;
  }

  /** Call q at p has read a row that e finds expired. */
  predicate RefusesExpired(q: Request, p: Pc, e: Env) {
    match p
    case ClaimCheck(_, claim) => e.now > claim.expiresAt
    case CodeCheck(_, code) => e.now > code.expiresAt
    case ConsumeCheck(login, _) => e.now > login.expiresAt
    case _ => false
  }

  lemma RefusalFollows(q: Request, p: Pc, t: Tables, e: Env)
    requires RefusesExpired(q, p, e)
    ensures KeepGoto(q, p, t, e) == End(Fail(401)) && KeepAct(q, p, t, e) == Nothing && !p.End?
  {}

  /** Where the keeper ends up when the service moves call k with e. */
  lemma FollowGoto(y: System, n: Keeper, k: Call, e: Env)
    requires KeptFor(y, n, k) && y.clock <= e.now
    requires !k.pc.End? && !k.pc.ClaimDrop? && !k.pc.CodeDrop? && !(Stranded(y, n, k) && !e.fail)
    ensures var p, p' := Goto(k.q, k.pc, y.t, e), KeepGoto(k.q, k.pc, n.t, e);
            p' == Erase(p) || (p == End(Fail(401)) && RefusesExpired(k.q, p', e))
  {
    hide Goto, KeptFor;
    if Looks(k.pc) {
      FollowLook(y, n, k, e);
    } else {
      FollowBlind(y, n, k, e);
    }
  }

  lemma FollowAct(y: System, n: Keeper, k: Call, e: Env)
    requires KeptFor(y, n, k) && !k.pc.ClaimDrop? && !k.pc.CodeDrop?
    ensures Follows(y, n, k, Act(k.q, k.pc, y.t, e), KeepAct(k.q, k.pc, n.t, e))
  {}

  /** The keeper's effect for the service's: the same, except where the service deletes for expiry. */
  ghost predicate Follows(y: System, n: Keeper, k: Call, f: Effect, g: Effect) {
    || (g == f && !k.pc.ClaimDrop? && !k.pc.CodeDrop? && !k.pc.LoginPrune?)
    || (k.pc.ClaimDrop? && g == Nothing && (f == DelClaim(Subject(k.q)) || f == Nothing))
    || (k.pc.CodeDrop? && g == Nothing && (f == DelCode(Subject(k.q)) || f == Nothing))
    || (k.pc.LoginPrune? && g == Nothing && (f == PruneLogins(k.pc.cutoff) || f == Nothing))
    || (k.pc.Consume? && f == Nothing && g.TakeLogin? && g.key !in y.t.logins)
  }

  /** Which program points write or delete claim tokens and exchange codes, and what they write. */
  predicate Writes(k: Call, f: Effect) {
    && (f.SetClaim? ==> k.pc.SaveClaim? && f.id == k.pc.id && f.claim.expiresAt == k.pc.expiresAt
                        && f.claim.tokenHash == Sha256(k.pc.raw))
    && (f.SetCode? ==>
          k.pc.SaveCode? && f.id == k.pc.id && f.code.pin == k.pc.pin && f.code.expiresAt == k.pc.expiresAt)
    && (f.DelClaim? || f.DelCode? ==> f.id == Subject(k.q))
    && (f.AddLogin? ==> k.pc.LoginInsert? && f.key == Sha256(k.pc.raw))
  }

  lemma StepWrites(k: Call, t: Tables, e: Env)
    ensures Writes(k, Act(k.q, k.pc, t, e))
  {}

  /** Every exchange code about to be saved expires no later than the claim token it is pinned to. */
  ghost predicate PinsOutlive(y: System) {
    forall c :: c in y.calls && y.calls[c].pc.SaveCode? ==> y.calls[c].pc.expiresAt <= y.calls[c].pc.until
  }

  lemma ClaimAfter(t: Tables, f: Effect, id: int)
    ensures id in Apply(t, f).claims <==>
              (f.SetClaim? && f.id == id) || (id in t.claims && !(f.DelClaim? && f.id == id))
    ensures id in Apply(t, f).claims ==>
              Apply(t, f).claims[id] == if f.SetClaim? && f.id == id then f.claim else t.claims[id]
    ensures t.nextId <= Apply(t, f).nextId
  {}

  lemma CodeAfter(t: Tables, f: Effect, id: int)
    ensures id in Apply(t, f).codes <==>
              (f.SetCode? && f.id == id) || (id in t.codes && !(f.DelCode? && f.id == id))
    ensures id in Apply(t, f).codes ==>
              Apply(t, f).codes[id] == if f.SetCode? && f.id == id then f.code else t.codes[id]
  {}

  lemma ClaimFollows(y: System, n: Keeper, z: System, u: Tables, k: Call, f: Effect, g: Effect, id: int)
    requires ClaimKept(y, n, id) && Holds(y, n, k) && Follows(y, n, k, f, g) && Writes(k, f)
    requires z.t == Apply(y.t, f) && u == Apply(n.t, g) && y.clock <= z.clock
    ensures ClaimKept(z, Keeper(u, n.calls), id)
  {
    hide Apply;
    ClaimAfter(y.t, f, id);
    ClaimAfter(n.t, g, id);
  }

  lemma CodeSaved(y: System, n: Keeper, z: System, u: Tables, k: Call, f: Effect)
    requires f.SetCode? && Holds(y, n, k) && Writes(k, f) && k.pc.expiresAt <= k.pc.until
    requires z.t == Apply(y.t, f) && u == Apply(n.t, f)
    ensures CodeKept(z, Keeper(u, n.calls), f.id)
  {
    assert u.claims == n.t.claims && u.codes[f.id] == f.code;
  }

  lemma CodeStays(y: System, n: Keeper, z: System, u: Tables, k: Call, f: Effect, g: Effect, id: int)
    requires CodeKept(y, n, id) && Follows(y, n, k, f, g) && y.clock <= z.clock
    requires !(f.SetCode? && f.id == id) && !(f.SetClaim? && f.id == id)
    requires f.DelClaim? || f.DelCode? ==> f.id == Subject(k.q)
    requires k.pc.CodeDrop? && id in n.t.codes && id == Subject(k.q) ==> n.t.codes[id].expiresAt < y.clock
    requires z.t == Apply(y.t, f) && u == Apply(n.t, g)
    ensures CodeKept(z, Keeper(u, n.calls), id)
  {
    hide Apply, Subject;
    CodeAfter(y.t, f, id);
    CodeAfter(n.t, g, id);
    ClaimAfter(y.t, f, id);
    ClaimAfter(n.t, g, id);
  }

  lemma CodeFollows(y: System, n: Keeper, z: System, u: Tables, k: Call, f: Effect, g: Effect, id: int)
    requires CodeKept(y, n, id) && Holds(y, n, k) && Follows(y, n, k, f, g) && Writes(k, f)
    requires z.t == Apply(y.t, f) && u == Apply(n.t, g) && y.clock <= z.clock
    requires k.pc.SaveCode? ==> k.pc.expiresAt <= k.pc.until
    ensures CodeKept(z, Keeper(u, n.calls), id)
  {
    if f.SetCode? && f.id == id {
      CodeSaved(y, n, z, u, k, f);
    } else if f.SetClaim? && f.id == id {
      assert id !in u.codes && id !in z.t.codes;
    } else {
      CodeStays(y, n, z, u, k, f, g, id);
    }
  }

  lemma LoginAfter(t: Tables, f: Effect, h: Hash)
    ensures h in Apply(t, f).logins <==>
              || (f.AddLogin? && f.key == h)
              || (h in t.logins && !(f.TakeLogin? && f.key == h)
                && !(f.PruneLogins? && t.logins[h].expiresAt < f.cutoff))
    ensures h in Apply(t, f).logins ==>
              Apply(t, f).logins[h] == if f.AddLogin? && f.key == h then f.login else t.logins[h]
  {}

  lemma LoginFollows(y: System, n: Keeper, z: System, u: Tables, k: Call, f: Effect, g: Effect, h: Hash)
    requires LoginKept(y, n, h) && Holds(y, n, k) && Follows(y, n, k, f, g) && Writes(k, f)
    requires f.TakeLogin? ==> g == f
    requires z.t == Apply(y.t, f) && u == Apply(n.t, g) && y.clock <= z.clock
    requires y.h.published + Publishes(f) <= z.h.published
    ensures LoginKept(z, Keeper(u, n.calls), h)
  {
    hide Apply;
    LoginAfter(y.t, f, h);
    LoginAfter(n.t, g, h);
  }

  /** The entries of the appliance that a call relies on. */
  function Relied(k: Call): int {
    if MakesClaim(k.pc) || MakesCode(k.pc) then k.pc.id else Subject(k.q)
  }

  predicate SameEntries(y: System, n: Keeper, z: System, u: Tables, id: int) {
    && (id in n.t.claims <==> id in u.claims) && (id in n.t.claims ==> n.t.claims[id] == u.claims[id])
    && (id in n.t.codes <==> id in u.codes) && (id in n.t.codes ==> n.t.codes[id] == u.codes[id])
    && (id in y.t.claims ==> id in z.t.claims)
  }

  lemma EntriesStay(t: Tables, f: Effect, id: int)
    requires f.SetClaim? || f.DelClaim? || f.SetCode? || f.DelCode? ==> f.id != id
    ensures var u := Apply(t, f);
            && (id in t.claims <==> id in u.claims) && (id in t.claims ==> t.claims[id] == u.claims[id])
            && (id in t.codes <==> id in u.codes) && (id in t.codes ==> t.codes[id] == u.codes[id])
    ensures t.nextId <= Apply(t, f).nextId
  {}

  lemma HoldsIfSame(y: System, n: Keeper, z: System, u: Tables, l: Call)
    requires Holds(y, n, l) && SameEntries(y, n, z, u, Relied(l)) && y.clock <= z.clock && y.t.nextId <= z.t.nextId
    ensures Holds(z, Keeper(u, n.calls), l)
  {}

  /** Deleting rows from either side never hurts. */
  lemma HoldsIfFewer(y: System, n: Keeper, z: System, u: Tables, l: Call, f: Effect, g: Effect)
    requires Holds(y, n, l) && z.t == Apply(y.t, f) && u == Apply(n.t, g) && y.clock <= z.clock
    requires f.DelClaim? || f.DelCode?
    requires g == f || g == Nothing
    ensures Holds(z, Keeper(u, n.calls), l)
  {}

  /** What another call relies on survives, given that the two do not clash. */
  lemma OthersHold(y: System, n: Keeper, z: System, u: Tables, k: Call, l: Call, f: Effect, g: Effect)
    requires Holds(y, n, k) && Holds(y, n, l) && !Clash(k, l)
    requires Follows(y, n, k, f, g) && Writes(k, f)
    requires z.t == Apply(y.t, f) && u == Apply(n.t, g) && y.clock <= z.clock
    ensures Holds(z, Keeper(u, n.calls), l)
  {
    hide Goto, Act, Apply, Record, Do, Begin;
    if f.DelClaim? || f.DelCode? {
      HoldsIfFewer(y, n, z, u, l, f, g);
    } else if (f.SetClaim? || f.SetCode?) && f.id == Relied(l) {
      HoldsUnread(y, n, z, u, k, l, f);
    } else {
      EntriesStay(y.t, f, Relied(l));
      EntriesStay(n.t, g, Relied(l));
      HoldsIfSame(y, n, z, u, l);
    }
  }

  lemma HoldsUnread(y: System, n: Keeper, z: System, u: Tables, k: Call, l: Call, f: Effect)
    requires Holds(y, n, l) && !Clash(k, l) && Writes(k, f) && (f.SetClaim? || f.SetCode?) && f.id == Relied(l)
    requires z.t == Apply(y.t, f) && u == Apply(n.t, f) && y.clock <= z.clock
    ensures Holds(z, Keeper(u, n.calls), l)
  {}

  predicate Reading(p: Pc) {
    p.ClaimRead? || p.ClaimCheck? || p.CodeRead? || p.CodeCheck?
  }

  /** Reading a row: what was read is what the keeper holds, and an unexpired code still has its claim token. */
  lemma ReaderHolds(y: System, n: Keeper, z: System, k: Call, e: Env, p: Pc)
    requires KeptFor(y, n, k) && Reading(k.pc) && p == Goto(k.q, k.pc, y.t, e)
    requires z.t == y.t && y.clock <= e.now == z.clock
    ensures Holds(z, n, k.(pc := p))
  {}

  predicate Making(p: Pc) {
    p.Insert? || MakesClaim(p) || p.CodeNow?
  }

  lemma SaverHolds(y: System, n: Keeper, z: System, u: Tables, k: Call, e: Env, p: Pc, f: Effect)
    requires Holds(y, n, k) && k.pc.SaveClaim? && p == Goto(k.q, k.pc, y.t, e) && f == Act(k.q, k.pc, y.t, e)
    requires z.t == Apply(y.t, f) && u == Apply(n.t, f)
    ensures Holds(z, Keeper(u, n.calls), k.(pc := p))
  {
    if p.CodeNow? {
      assert f == SetClaim(k.pc.id, ClaimRow(Sha256(k.pc.raw), k.pc.expiresAt));
      assert u.claims[p.id].expiresAt == p.until;
    }
  }

  lemma InserterHolds(y: System, n: Keeper, z: System, u: Tables, k: Call, e: Env, p: Pc, f: Effect)
    requires Holds(y, n, k) && k.pc.Insert? && p == Goto(k.q, k.pc, y.t, e) && f == Act(k.q, k.pc, y.t, e)
    requires ClaimKept(y, n, y.t.nextId) && CodeKept(y, n, y.t.nextId) && (k.q.Register? || k.q.Enroll?)
    requires z.t == Apply(y.t, f) && u == Apply(n.t, f)
    ensures Holds(z, Keeper(u, n.calls), k.(pc := p))
  {
    if p.Inserted? {
      assert f.AddRow? && p.id == y.t.nextId;
    }
  }

  lemma CarrierHolds(y: System, n: Keeper, z: System, k: Call, e: Env, p: Pc)
    requires Holds(y, n, k) && (k.pc.Inserted? || k.pc.IssueNow? || k.pc.CodeNow?) && p == Goto(k.q, k.pc, y.t, e)
    requires z.t == y.t
    ensures Holds(z, n, k.(pc := p))
  {
    match k.pc
    case Inserted(_) =>
    case IssueNow(_, _) =>
    case CodeNow(_, _, _) =>
  }

  lemma MakerHolds(y: System, n: Keeper, z: System, u: Tables, k: Call, e: Env, p: Pc, f: Effect)
    requires Holds(y, n, k) && Making(k.pc) && p == Goto(k.q, k.pc, y.t, e) && f == Act(k.q, k.pc, y.t, e)
    requires ClaimKept(y, n, y.t.nextId) && CodeKept(y, n, y.t.nextId) && (k.q.Register? || k.q.Enroll?)
    requires z.t == Apply(y.t, f) && u == Apply(n.t, f)
    ensures Holds(z, Keeper(u, n.calls), k.(pc := p))
  {
    hide Goto, Record, Do, Begin, BearerToken, ApplianceSecret, Listing, LabelTaken, Redeemable;
    if k.pc.Insert? {
      InserterHolds(y, n, z, u, k, e, p, f);
    } else if k.pc.SaveClaim? {
      SaverHolds(y, n, z, u, k, e, p, f);
    } else {
      assert z.t == y.t && u == n.t;
      CarrierHolds(y, n, z, k, e, p);
    }
  }

  lemma OtherwiseHolds(y: System, n: Keeper, z: System, u: Tables, k: Call, e: Env, p: Pc)
    requires Holds(y, n, k) && !Reading(k.pc) && !Making(k.pc) && p == Goto(k.q, k.pc, y.t, e) && !k.pc.End?
    requires z.clock == e.now
    ensures Holds(z, Keeper(u, n.calls), k.(pc := p))
  {
    hide Goto;
    OtherwisePlain(k, y.t, e);
  }

  lemma OtherwisePlain(k: Call, t: Tables, e: Env)
    requires !Reading(k.pc) && !Making(k.pc) && !k.pc.End?
    ensures var p := Goto(k.q, k.pc, t, e);
            && !ReadsClaim(p) && !ReadsCode(p) && !MakesClaim(p) && !MakesCode(p)
            && (p.LoginPrune? ==> p.cutoff == e.now)
  {
    hide Listing, LabelTaken, Redeemable, Markable, Settable, ApplianceSecret, Door;
  }

  lemma IdleRoles(k: Call, t: Tables, e: Env)
    requires Fits(k.q, k.pc)
    ensures Reading(k.pc) ==> Act(k.q, k.pc, t, e) == Nothing
    ensures Making(k.pc) ==> k.q.Register? || k.q.Enroll? || k.q.Reissue?
  {}

  lemma MoverHolds(y: System, n: Keeper, z: System, u: Tables, k: Call, e: Env, p: Pc, f: Effect, g: Effect)
    requires KeptFor(y, n, k) && ClaimKept(y, n, y.t.nextId) && CodeKept(y, n, y.t.nextId)
    requires Fits(k.q, k.pc) && !k.pc.End? && Follows(y, n, k, f, g)
    requires f == Act(k.q, k.pc, y.t, e) && p == Goto(k.q, k.pc, y.t, e)
    requires z.t == Apply(y.t, f) && u == Apply(n.t, g) && y.clock <= e.now == z.clock
    ensures Holds(z, Keeper(u, n.calls), k.(pc := p))
  {
    hide Goto, Listing, Record, Do, Begin;
    IdleRoles(k, y.t, e);
    if Reading(k.pc) {
      assert z.t == y.t && Keeper(u, n.calls) == n;
      ReaderHolds(y, n, z, k, e, p);
    } else if Making(k.pc) {
      MakerHolds(y, n, z, u, k, e, p, f);
    } else {
      OtherwiseHolds(y, n, z, u, k, e, p);
    }
  }

  /** A call starts to read, or to create, only what no other call is about to create. */
  lemma MoverClashes(y: System, n: Keeper, k: Call, l: Call, e: Env, p: Pc)
    requires KeptFor(y, n, k) && Holds(y, n, l) && Fits(k.q, k.pc) && !k.pc.End?
    requires !Clash(k, l) && !Clash(l, k) && p == Goto(k.q, k.pc, y.t, e)
    ensures !Clash(k.(pc := p), l) && !Clash(l, k.(pc := p))
  {
    hide Goto, Act, Apply, Record, Do, Begin, Holds, KeptFor, Fits, MakesClaim, MakesCode, ReadsClaim, ReadsCode,
      Subject;
    StepRoles(k, y.t, e, p);
    KeptHolds(y, n, k);
    MakersAhead(y, n, k);
    MakersAhead(y, n, l);
    OnlyOneRole(p);
    OnlyOneRole(k.pc);
    OnlyOneRole(l.pc);
  }

  lemma KeptHolds(y: System, n: Keeper, k: Call)
    requires KeptFor(y, n, k)
    ensures Holds(y, n, k)
    ensures Subject(k.q) in y.t.claims ==> Subject(k.q) in n.t.claims
    ensures Subject(k.q) in y.t.codes ==> Subject(k.q) in n.t.codes
  {}

  /** Who is about to create works on a new appliance, who reads on an old one. */
  lemma MakersAhead(y: System, n: Keeper, k: Call)
    requires Holds(y, n, k)
    ensures MakesClaim(k.pc) ==> k.pc.id < y.t.nextId && k.pc.id !in n.t.claims && k.pc.id !in n.t.codes
    ensures MakesCode(k.pc) ==> k.pc.id < y.t.nextId && k.pc.id !in n.t.codes
    ensures ReadsClaim(k.pc) || ReadsCode(k.pc) ==> Subject(k.q) < y.t.nextId
  {}

  lemma OnlyOneRole(p: Pc)
    ensures MakesClaim(p) || MakesCode(p) ==> !p.Insert? && !ReadsClaim(p) && !ReadsCode(p)
    ensures MakesClaim(p) ==> !MakesCode(p)
  {}

  lemma StepReads(k: Call, t: Tables, e: Env, p: Pc)
    requires p == Goto(k.q, k.pc, t, e) && Fits(k.q, k.pc) && !k.pc.End?
    ensures ReadsClaim(p) ==> ReadsClaim(k.pc) || Subject(k.q) in t.claims
    ensures ReadsCode(p) ==> ReadsCode(k.pc) || Subject(k.q) in t.codes
  {}

  lemma StepMakes(k: Call, t: Tables, e: Env, p: Pc)
    requires p == Goto(k.q, k.pc, t, e) && Fits(k.q, k.pc) && !k.pc.End?
    ensures MakesClaim(p) ==> (MakesClaim(k.pc) && p.id == k.pc.id) || (k.pc.Insert? && p.id == t.nextId)
    ensures MakesCode(p) ==> (MakesClaim(k.pc) || MakesCode(k.pc)) && p.id == k.pc.id
  {}

  /** How a call comes to read or to create. */
  lemma StepRoles(k: Call, t: Tables, e: Env, p: Pc)
    requires p == Goto(k.q, k.pc, t, e) && Fits(k.q, k.pc) && !k.pc.End?
    ensures ReadsClaim(p) ==> ReadsClaim(k.pc) || Subject(k.q) in t.claims
    ensures ReadsCode(p) ==> ReadsCode(k.pc) || Subject(k.q) in t.codes
    ensures MakesClaim(p) ==> (MakesClaim(k.pc) && p.id == k.pc.id) || (k.pc.Insert? && p.id == t.nextId)
    ensures MakesCode(p) ==> (MakesClaim(k.pc) || MakesCode(k.pc)) && p.id == k.pc.id
  {
    hide Goto, ReadsClaim, ReadsCode;
    StepReads(k, t, e, p);
    StepMakes(k, t, e, p);
  }

  // ---------- the simulation ----------

  /** A stranded EnrollRedeem reads the claim table, and the read does not fail. */
  predicate StrandedTurn(y: System, n: Keeper, v: Event) {
    v.Turn? && v.c in y.calls && Stranded(y, n, y.calls[v.c]) && !v.e.fail
  }

  /** The keeper after following the service's step, in one or two steps. */
  lemma KeeperCatchesUp(y: System, n: Keeper, c: nat, e: Env)
    requires Shadows(y, n) && Fresh(y) && Can(y, Turn(c, e)) && !StrandedTurn(y, n, Turn(c, e))
    requires !y.calls[c].pc.ClaimDrop? && !y.calls[c].pc.CodeDrop?
    ensures var z, k := Do(y, Turn(c, e)), y.calls[c];
            KeepDo(n, Turn(c, e), Finished(z, c)) ==
            Keeper(Apply(n.t, KeepAct(k.q, k.pc, n.t, e)), n.calls[c := k.(pc := Erase(z.calls[c].pc))])
  {
    hide Goto, Act, Apply, Record, Do, KeepDo, KeepAct, KeepGoto, Fresh, Holds, KeptFor, RefusesExpired, ClaimKept,
         CodeKept, LoginKept, Clash;
    var k := y.calls[c];
    RelatedCallKept(y, n, c);
    FollowGoto(y, n, k, e);
    assert n.calls[c] == k;
    CallStep(y, Turn(c, e), c);
    CatchUp(n, c, e, Goto(k.q, k.pc, y.t, e));
  }

  /** Following a step to p takes the keeper one step, or two where it still has a row to refuse. */
  lemma CatchUp(n: Keeper, c: nat, e: Env, p: Pc)
    requires c in n.calls && !n.calls[c].pc.End?
    requires var k := n.calls[c]; var p' := KeepGoto(k.q, k.pc, n.t, e);
             p' == Erase(p) || (p == End(Fail(401)) && RefusesExpired(k.q, p', e))
    ensures var k := n.calls[c];
            KeepDo(n, Turn(c, e), p.End?) ==
            Keeper(Apply(n.t, KeepAct(k.q, k.pc, n.t, e)), n.calls[c := k.(pc := Erase(p))])
  {
    hide KeepGoto, KeepAct, Apply, RefusesExpired;
    var m := KeepStep(n, c, e);
    var w := m.calls[c];
    if w.pc != Erase(p) {
      RefusalFollows(w.q, w.pc, m.t, e);
      NothingApplies(m.t);
    }
  }

  lemma NothingApplies(t: Tables)
    ensures Apply(t, Nothing) == t
  {}

  lemma InsertsUnpublished(y: System, c: nat)
    requires Fresh(y) && c in y.calls && y.calls[c].pc.LoginInsert?
    ensures Sha256(y.calls[c].pc.raw) !in y.h.published
  {
    assert HeldFresh(y, c) && Sha256(y.calls[c].pc.raw) in Held(y.calls[c].pc);
  }

  lemma RelatedCallKept(y: System, n: Keeper, c: nat)
    requires Shadows(y, n) && Fresh(y) && c in y.calls
    ensures KeptFor(y, n, y.calls[c])
  {
    hide ClaimKept, CodeKept, LoginKept, Holds, Fresh, HeldFresh;
    var k := y.calls[c];
    assert ClaimKept(y, n, Subject(k.q)) && CodeKept(y, n, Subject(k.q));
    if k.q.RedeemLoginCode? {
      assert LoginKept(y, n, Sha256(k.q.code));
    }
    if k.pc.LoginInsert? {
      InsertsUnpublished(y, c);
      assert LoginKept(y, n, Sha256(k.pc.raw));
    }
  }

  /** The keeper's own effect in a step of call c. */
  function KeeperEffect(n: Keeper, k: Call, e: Env): Effect {
    if k.pc.ClaimDrop? || k.pc.CodeDrop? then Nothing else KeepAct(k.q, k.pc, n.t, e)
  }

  lemma KeeperFollows(y: System, n: Keeper, c: nat, e: Env)
    requires Shadows(y, n) && Fresh(y) && Can(y, Turn(c, e)) && !StrandedTurn(y, n, Turn(c, e))
    ensures var z, k := Do(y, Turn(c, e)), y.calls[c];
            && Follows(y, n, k, Act(k.q, k.pc, y.t, e), KeeperEffect(n, k, e))
            && KeepDo(n, Turn(c, e), Finished(z, c)) ==
               Keeper(Apply(n.t, KeeperEffect(n, k, e)), n.calls[c := k.(pc := Erase(z.calls[c].pc))])
  {
    hide Goto, Act, Apply, Record, Do, KeepAct, Fresh, Holds, KeptFor, Follows, ClaimKept, CodeKept, LoginKept, Clash;
    var k := y.calls[c];
    RelatedCallKept(y, n, c);
    if k.pc.ClaimDrop? || k.pc.CodeDrop? {
      CallStep(y, Turn(c, e), c);
      FollowDrop(y, n, k, e);
      NothingApplies(n.t);
      assert n.calls[c := n.calls[c]] == n.calls;
    } else {
      FollowAct(y, n, k, e);
      KeeperCatchesUp(y, n, c, e);
    }
  }

  lemma FollowDrop(y: System, n: Keeper, k: Call, e: Env)
    requires k.pc.ClaimDrop? || k.pc.CodeDrop?
    ensures Follows(y, n, k, Act(k.q, k.pc, y.t, e), Nothing) && Goto(k.q, k.pc, y.t, e) == End(Fail(401))
  {}

  lemma RowsUntouched(t: Tables, f: Effect)
    requires f.Nothing? || f.DelClaim? || f.DelCode? || f.PruneLogins? || f.TakeLogin?
    ensures var u := Apply(t, f); u.rows == t.rows && u.secrets == t.secrets && u.nextId == t.nextId
  {}

  lemma RowsAlike(t: Tables, u: Tables, f: Effect)
    requires u.rows == t.rows && u.secrets == t.secrets && u.nextId == t.nextId
    ensures var a, b := Apply(t, f), Apply(u, f); b.rows == a.rows && b.secrets == a.secrets && b.nextId == a.nextId
  {}

  lemma RowsFollow(y: System, n: Keeper, k: Call, f: Effect, g: Effect)
    requires Follows(y, n, k, f, g)
    requires n.t.rows == y.t.rows && n.t.secrets == y.t.secrets && n.t.nextId == y.t.nextId
    ensures var a, b := Apply(y.t, f), Apply(n.t, g);
            b.rows == a.rows && b.secrets == a.secrets && b.nextId == a.nextId
  {
    hide Apply;
    if g == f {
      RowsAlike(y.t, n.t, f);
    } else {
      RowsUntouched(y.t, f);
      RowsUntouched(n.t, g);
    }
  }

  lemma EntriesFollow(y: System, n: Keeper, c: nat, e: Env, z: System, m: Keeper)
    requires Shadows(y, n) && Fresh(y) && Can(y, Turn(c, e)) && !StrandedTurn(y, n, Turn(c, e)) && PinsOutlive(y)
    requires z == Do(y, Turn(c, e)) && m == KeepDo(n, Turn(c, e), Finished(z, c))
    ensures forall id :: ClaimKept(z, m, id) && CodeKept(z, m, id)
  {
    var k := y.calls[c];
    var f, g := Act(k.q, k.pc, y.t, e), KeeperEffect(n, k, e);
    KeeperFollows(y, n, c, e);
    StepWrites(k, y.t, e);
    assert Holds(y, n, k);
    forall id ensures ClaimKept(z, m, id) && CodeKept(z, m, id) {
      assert ClaimKept(y, n, id) && CodeKept(y, n, id);
      ClaimFollows(y, n, z, m.t, k, f, g, id);
      CodeFollows(y, n, z, m.t, k, f, g, id);
    }
  }

  lemma CodesOfLoginFollow(y: System, n: Keeper, c: nat, e: Env, z: System, m: Keeper)
    requires Shadows(y, n) && Fresh(y) && Can(y, Turn(c, e)) && !StrandedTurn(y, n, Turn(c, e))
    requires z == Do(y, Turn(c, e)) && m == KeepDo(n, Turn(c, e), Finished(z, c))
    ensures forall h :: LoginKept(z, m, h)
  {
    var k := y.calls[c];
    var f, g := Act(k.q, k.pc, y.t, e), KeeperEffect(n, k, e);
    KeeperFollows(y, n, c, e);
    StepWrites(k, y.t, e);
    assert Holds(y, n, k);
    assert z.h.published == y.h.published + Publishes(f);
    forall h ensures LoginKept(z, m, h) {
      assert LoginKept(y, n, h);
      LoginFollows(y, n, z, m.t, k, f, g, h);
    }
  }

  lemma AlikeFollows(y: System, n: Keeper, c: nat, e: Env, z: System, m: Keeper)
    requires Shadows(y, n) && Fresh(y) && Can(y, Turn(c, e)) && !StrandedTurn(y, n, Turn(c, e))
    requires z == Do(y, Turn(c, e)) && m == KeepDo(n, Turn(c, e), Finished(z, c))
    ensures Alike(z, m)
  {
    hide Goto, Act, Apply, Record, KeepDo, KeeperEffect, Follows, Holds, Fresh;
    var k := y.calls[c];
    KeeperFollows(y, n, c, e);
    RowsFollow(y, n, k, Act(k.q, k.pc, y.t, e), KeeperEffect(n, k, e));
    CallStep(y, Turn(c, e), c);
  }

  lemma CallsFollow(y: System, n: Keeper, c: nat, e: Env, z: System, m: Keeper)
    requires Shadows(y, n) && Fresh(y) && Can(y, Turn(c, e)) && !StrandedTurn(y, n, Turn(c, e))
    requires z == Do(y, Turn(c, e)) && m == KeepDo(n, Turn(c, e), Finished(z, c))
    ensures forall d :: d in z.calls ==> Holds(z, m, z.calls[d])
  {
    var k := y.calls[c];
    var f, g := Act(k.q, k.pc, y.t, e), KeeperEffect(n, k, e);
    KeeperFollows(y, n, c, e);
    StepWrites(k, y.t, e);
    RelatedCallKept(y, n, c);
    assert FitCall(k);
    forall d | d in z.calls ensures Holds(z, m, z.calls[d]) {
      CallStep(y, Turn(c, e), d);
      if d == c {
        assert ClaimKept(y, n, y.t.nextId) && CodeKept(y, n, y.t.nextId);
        MoverHolds(y, n, z, m.t, k, e, z.calls[c].pc, f, g);
      } else {
        var l := y.calls[d];
        assert FitCall(l) && Holds(y, n, l) && !Clash(k, l);
        OthersHold(y, n, z, m.t, k, l, f, g);
      }
      HoldsIgnoresCalls(z, Keeper(m.t, n.calls), m, z.calls[d]);
    }
  }

  lemma HoldsIgnoresCalls(y: System, n: Keeper, m: Keeper, k: Call)
    requires n.t == m.t
    ensures Holds(y, n, k) <==> Holds(y, m, k)
  {}

  lemma NoClashes(y: System, n: Keeper, c: nat, e: Env)
    requires Shadows(y, n) && Fresh(y) && Can(y, Turn(c, e))
    ensures var z := Do(y, Turn(c, e));
            forall a, b :: a in z.calls && b in z.calls && a != b ==> !Clash(z.calls[a], z.calls[b])
  {
    var z, k := Do(y, Turn(c, e)), y.calls[c];
    RelatedCallKept(y, n, c);
    CallStep(y, Turn(c, e), c);
    assert FitCall(k);
    forall a, b | a in z.calls && b in z.calls && a != b ensures !Clash(z.calls[a], z.calls[b]) {
      CallStep(y, Turn(c, e), a);
      CallStep(y, Turn(c, e), b);
      if a == c {
        assert Holds(y, n, y.calls[b]) && !Clash(k, y.calls[b]) && !Clash(y.calls[b], k);
        MoverClashes(y, n, k, y.calls[b], e, z.calls[c].pc);
      } else if b == c {
        assert Holds(y, n, y.calls[a]) && !Clash(k, y.calls[a]) && !Clash(y.calls[a], k);
        MoverClashes(y, n, k, y.calls[a], e, z.calls[c].pc);
      }
    }
  }

  lemma BeginsUnread(y: System, n: Keeper, q: Request)
    requires !q.Reissue?
    ensures var k := Call(q, Begin(q));
            && !ReadsClaim(k.pc) && !ReadsCode(k.pc) && !MakesClaim(k.pc) && !MakesCode(k.pc)
            && Erase(k.pc) == k.pc && Holds(y, n, k)
  {}

  /** Opening a call leaves all stores alone. */
  lemma KeptIfSame(y: System, n: Keeper, z: System, m: Keeper)
    requires z.t == y.t && z.clock == y.clock && z.h == y.h && m.t == n.t
    ensures forall id :: (ClaimKept(y, n, id) ==> ClaimKept(z, m, id)) && (CodeKept(y, n, id) ==> CodeKept(z, m, id))
    ensures forall h :: LoginKept(y, n, h) ==> LoginKept(z, m, h)
    ensures forall k :: Holds(y, n, k) ==> Holds(z, m, k)
  {}

  lemma ShadowsOpen(y: System, n: Keeper, v: Event, finished: bool)
    requires Shadows(y, n) && v.Open? && Can(y, v) && !v.q.Reissue?
    ensures Shadows(Do(y, v), KeepDo(n, v, finished))
  {
    hide Begin, Erase, Holds, ClaimKept, CodeKept, LoginKept, ReadsClaim, ReadsCode, MakesClaim, MakesCode;
    var z, m := Do(y, v), KeepDo(n, v, finished);
    var k := Call(v.q, Begin(v.q));
    BeginsUnread(z, m, v.q);
    KeptIfSame(y, n, z, m);
    assert z.calls == y.calls[v.c := k] && m.calls == n.calls[v.c := k];
    forall c, d | c in z.calls && d in z.calls && c != d ensures !Clash(z.calls[c], z.calls[d]) {
      if c != v.c && d != v.c {
        assert !Clash(y.calls[c], y.calls[d]);
      }
    }
  }

  lemma ShadowsStep(y: System, n: Keeper, v: Event)
    requires Shadows(y, n) && Fresh(y) && Can(y, v) && !StrandedTurn(y, n, v)
    requires PinsOutlive(y) && (v.Open? ==> !v.q.Reissue?)
    ensures Shadows(Do(y, v), KeepDo(n, v, Finished(Do(y, v), v.c)))
  {
    match v
    case Open(_, _) => ShadowsOpen(y, n, v, Finished(Do(y, v), v.c));
    case Turn(c, e) =>
      var z, m := Do(y, v), KeepDo(n, v, Finished(Do(y, v), v.c));
      EntriesFollow(y, n, c, e, z, m);
      CodesOfLoginFollow(y, n, c, e, z, m);
      AlikeFollows(y, n, c, e, z, m);
      CallsFollow(y, n, c, e, z, m);
      NoClashes(y, n, c, e);
  }
}
