/** Secret hashes, claim tokens and exchange-code pins over whole runs, under unrestricted interleaving. */
module Credentials {
  import opened Wrappers
  import opened Tokens
  import opened Persistence
  import opened Protocol
  import opened Runs
  import opened Freshness

  predicate SecretIs(y: System, id: int, h: Hash) {
    id in y.t.rows && y.t.rows[id].secretHash == Some(h)
  }

  predicate TokenIs(y: System, id: int, h: Hash) {
    id in y.t.claims && y.t.claims[id].tokenHash == h
  }

  predicate CodePinnedTo(y: System, id: int, h: Hash) {
    id in y.t.codes && y.t.codes[id].pin == h
  }

  /** A step that makes a hash current writes it for the first time. */
  lemma StepWritesNewHashes(y: System, v: Event, id: int, h: Hash)
    requires Can(y, v) && Fresh(y)
    ensures y.h.published <= Do(y, v).h.published
    ensures SecretIs(Do(y, v), id, h) ==> SecretIs(y, id, h) || h !in y.h.published
    ensures TokenIs(Do(y, v), id, h) ==> TokenIs(y, id, h) || h !in y.h.published
  {
    if v.Turn? {
      var k := y.calls[v.c];
      assert HeldFresh(y, v.c);
      StepPublishes(k, y.t, v.e);
      WritesWhatItPublishes(y.t, Act(k.q, k.pc, y.t, v.e), id, h);
    }
  }

  lemma WritesWhatItPublishes(t: Tables, f: Effect, id: int, h: Hash)
    ensures id in Apply(t, f).rows && Apply(t, f).rows[id].secretHash == Some(h) ==>
              (id in t.rows && t.rows[id].secretHash == Some(h)) || h in Publishes(f)
    ensures id in Apply(t, f).claims && Apply(t, f).claims[id].tokenHash == h ==>
              (id in t.claims && t.claims[id].tokenHash == h) || h in Publishes(f)
  {}

  lemma {:induction false} PublishedGrows(ys: seq<System>, es: seq<Event>, i: nat, j: nat)
    requires Run(ys, es) && i <= j < |ys|
    ensures ys[i].h.published <= ys[j].h.published
    decreases j
  {
    hide Goto, Act, Apply;
    if i < j {
      PublishedGrows(ys, es, i, j - 1);
      assert StepAt(ys, es, j - 1);
    }
  }

  /** A published hash that is not the current one never becomes current again. */
  lemma {:induction false} NeverReturns(ys: seq<System>, es: seq<Event>, id: int, h: Hash, i: nat, j: nat)
    requires Run(ys, es) && i <= j < |ys|
    requires h in ys[i].h.published
    ensures !SecretIs(ys[i], id, h) ==> !SecretIs(ys[j], id, h)
    ensures !TokenIs(ys[i], id, h) ==> !TokenIs(ys[j], id, h)
    decreases j
  {
    hide Goto, Act, Apply, Record, Do, Fresh, SecretIs, TokenIs;
    if i < j {
      NeverReturns(ys, es, id, h, i, j - 1);
      PublishedGrows(ys, es, i, j - 1);
      AlwaysFresh(ys, es, j - 1);
      assert StepAt(ys, es, j - 1);
      StepWritesNewHashes(ys[j - 1], es[j - 1], id, h);
    }
  }

  /** An overwritten or cleared secret hash never reappears, at its own appliance or at any other. */
  lemma RetiredSecretStaysRetired(ys: seq<System>, es: seq<Event>, id: int, h: Hash, i: nat, k: nat, j: nat, other: int)
    requires Run(ys, es) && i <= k <= j < |ys|
    requires SecretIs(ys[i], id, h) && !SecretIs(ys[k], id, h)
    ensures !SecretIs(ys[j], other, h)
  {
    AlwaysFresh(ys, es, i);
    assert RowHashFits(ys[i], id);
    if other == id {
      PublishedGrows(ys, es, i, k);
      NeverReturns(ys, es, id, h, k, j);
    } else {
      HashesDoNotCross(ys, es, j, other, id, h);
    }
  }

  /** A stored hash is that of a secret generated for its own appliance. */
  lemma HashesDoNotCross(ys: seq<System>, es: seq<Event>, j: nat, id: int, owner: int, h: Hash)
    requires Run(ys, es) && j < |ys|
    requires id != owner && SecretFor(owner, h.preimage) && IsNonce(NonceOf(h.preimage))
    ensures !SecretIs(ys[j], id, h)
  {
    AlwaysFresh(ys, es, j);
    assert RowHashFits(ys[j], id);
    if SecretIs(ys[j], id, h) {
      ApplianceSecretInjective(id, NonceOf(h.preimage), owner, NonceOf(h.preimage));
    }
  }

  predicate Authenticating(q: Request) {
    q.RotateOwnSecret? || q.RedeemLoginCode? || q.CheckAccess?
  }

  /** However calls interleave, a secret generated for one appliance is never accepted by another. */
  lemma {:induction false} ForeignSecretRefused(ys: seq<System>, es: seq<Event>, c: nat, j: nat, owner: int,
      nonce: string)
    requires Run(ys, es) && j < |ys| && c in ys[j].calls
    requires Authenticating(ys[j].calls[c].q) && IsNonce(nonce) && owner != ys[j].calls[c].q.id
    requires BearerToken(ys[j].calls[c].q.auth) == Some(ApplianceSecret(owner, nonce))
    ensures ys[j].calls[c].pc == AuthHash(ApplianceSecret(owner, nonce))
            || (ys[j].calls[c].pc.End? && ys[j].calls[c].pc.response.Fail?)
    decreases j
  {
    hide Act, Apply, Record, Do, BearerToken, ApplianceSecret, Listing, LabelTaken;
    var q := ys[j].calls[c].q;
    var x := ApplianceSecret(owner, nonce);
    if ys[j].calls[c].pc != Begin(q) {
      var i := Arrival(ys, es, c, j);
      ForeignSecretRefused(ys, es, c, i, owner, nonce);
      assert StepAt(ys, es, i);
      NonceOfGenerated(owner, nonce);
      HashesDoNotCross(ys, es, i, q.id, owner, Sha256(x));
      assert !SecretIs(ys[i], q.id, Sha256(x));
    }
  }

  // ---------- exchange codes and the claim token they are pinned to ----------

  predicate PinPublished(y: System, p: Pc) {
    match p
    case CodeCheck(_, code) => code.pin in y.h.published
    case CodePin(pin) => pin in y.h.published
    case CodeNow(_, pin, _) => pin in y.h.published
    case SaveCode(_, pin, _, _, _) => pin in y.h.published
    case _ => true
  }

  ghost predicate PinsPublished(y: System) {
    && (forall c :: c in y.calls ==> PinPublished(y, y.calls[c].pc))
    && (forall id :: id in y.t.codes ==> y.t.codes[id].pin in y.h.published)
  }

  lemma PinStep(k: Call, t: Tables, e: Env, p: Pc, f: Effect)
    requires p == Goto(k.q, k.pc, t, e) && f == Act(k.q, k.pc, t, e)
    ensures p.CodeCheck? ==> Subject(k.q) in t.codes && p.code == t.codes[Subject(k.q)]
    ensures p.CodePin? ==> k.pc.CodeCheck? && p.pin == k.pc.code.pin
    ensures p.CodeNow? ==> p.pin in Publishes(f)
    ensures p.SaveCode? ==> k.pc.CodeNow? && p.pin == k.pc.pin
    ensures f.SetCode? ==> k.pc.SaveCode? && f.code.pin == k.pc.pin
  {
    hide Goto, Act, Publishes;
    PinRead(k, t, e, p);
    PinWritten(k, t, e, p, f);
  }

  lemma PinRead(k: Call, t: Tables, e: Env, p: Pc)
    requires p == Goto(k.q, k.pc, t, e)
    ensures p.CodeCheck? ==> Subject(k.q) in t.codes && p.code == t.codes[Subject(k.q)]
    ensures p.CodePin? ==> k.pc.CodeCheck? && p.pin == k.pc.code.pin
  {
    hide ApplianceSecret, Listing, LabelTaken, Redeemable, Markable, Settable, Door;
  }

  lemma PinWritten(k: Call, t: Tables, e: Env, p: Pc, f: Effect)
    requires p == Goto(k.q, k.pc, t, e) && f == Act(k.q, k.pc, t, e)
    ensures p.CodeNow? ==> p.pin in Publishes(f)
    ensures p.SaveCode? ==> k.pc.CodeNow? && p.pin == k.pc.pin
    ensures f.SetCode? ==> k.pc.SaveCode? && f.code.pin == k.pc.pin
  {
    hide ApplianceSecret, Listing, LabelTaken, Redeemable, Markable, Settable, Door;
  }

  lemma {:induction false} AlwaysPinned(ys: seq<System>, es: seq<Event>, j: nat)
    requires Run(ys, es) && j < |ys|
    ensures PinsPublished(ys[j])
    decreases j
  {
    hide Goto, Act, Apply, Record, Do;
    if j > 0 {
      AlwaysPinned(ys, es, j - 1);
      assert StepAt(ys, es, j - 1);
      PinsMove(ys[j - 1], es[j - 1]);
    }
  }

  lemma PinsMove(y: System, v: Event)
    requires Can(y, v) && PinsPublished(y)
    ensures PinsPublished(Do(y, v))
  {
    hide Goto, Act, Apply, Record, Publishes, Do;
    match v
    case Open(c, q) => PinsOpen(y, c, q);
    case Turn(c, e) =>
      var k := y.calls[c];
      PinStep(k, y.t, e, Goto(k.q, k.pc, y.t, e), Act(k.q, k.pc, y.t, e));
      PinsTurn(y, c, e, Goto(k.q, k.pc, y.t, e), Act(k.q, k.pc, y.t, e));
      TurnMoves(y, c, e);
  }

  lemma PinsOpen(y: System, c: nat, q: Request)
    requires Can(y, Open(c, q)) && PinsPublished(y)
    ensures PinsPublished(Do(y, Open(c, q)))
  {
    hide BearerToken;
    assert PinPublished(Do(y, Open(c, q)), Begin(q));
  }

  lemma TurnMoves(y: System, c: nat, e: Env)
    requires Can(y, Turn(c, e))
    ensures var k := y.calls[c]; Do(y, Turn(c, e)) == Moved(y, c, Goto(k.q, k.pc, y.t, e), Act(k.q, k.pc, y.t, e), e)
  {}

  lemma PinsTurn(y: System, c: nat, e: Env, p: Pc, f: Effect)
    requires Can(y, Turn(c, e)) && PinsPublished(y)
    requires p.CodeCheck? ==> Subject(y.calls[c].q) in y.t.codes && p.code == y.t.codes[Subject(y.calls[c].q)]
    requires p.CodePin? ==> y.calls[c].pc.CodeCheck? && p.pin == y.calls[c].pc.code.pin
    requires p.CodeNow? ==> p.pin in Publishes(f)
    requires p.SaveCode? ==> y.calls[c].pc.CodeNow? && p.pin == y.calls[c].pc.pin
    requires f.SetCode? ==> y.calls[c].pc.SaveCode? && f.code.pin == y.calls[c].pc.pin
    ensures PinsPublished(Moved(y, c, p, f, e))
  {
    hide Apply, Publishes, Subject;
    var z := Moved(y, c, p, f, e);
    assert PinPublished(y, y.calls[c].pc);
    assert PinPublished(z, p);
    forall id | id in z.t.codes ensures z.t.codes[id].pin in z.h.published {
      PinAfter(y.t, f, id);
    }
  }

  lemma PinAfter(t: Tables, f: Effect, id: int)
    ensures id in Apply(t, f).codes ==>
              (id in t.codes && Apply(t, f).codes[id] == t.codes[id]) || (f.SetCode? && Apply(t, f).codes[id] == f.code)
  {}

  /** A code works only while the claim token it was pinned to has stayed in place ever since. */
  lemma PinnedThroughout(ys: seq<System>, es: seq<Event>, id: int, pin: Hash, i: nat, j: nat, k: nat)
    requires Run(ys, es) && i <= k <= j < |ys|
    requires CodePinnedTo(ys[i], id, pin) && TokenIs(ys[j], id, pin)
    ensures TokenIs(ys[k], id, pin)
  {
    AlwaysPinned(ys, es, i);
    PublishedGrows(ys, es, i, k);
    NeverReturns(ys, es, id, pin, k, j);
  }

  /** Where a successful EnrollRedeem read its code (at r) and compared its pin (at i). */
  lemma {:induction false} Redemption(ys: seq<System>, es: seq<Event>, c: nat, j: nat) returns (r: nat, i: nat)
    requires Run(ys, es) && j < |ys| && c in ys[j].calls && ys[j].calls[c].q.EnrollRedeem?
    requires ys[j].calls[c].pc.End? && ys[j].calls[c].pc.response.Secret?
    ensures r < i < j && es[r].Turn? && es[r].c == c && es[i].Turn? && es[i].c == c
    ensures var q := ys[j].calls[c].q;
            && q.id in ys[r].t.codes
            && BearerToken(q.auth) == Some(ys[r].t.codes[q.id].codeHash.preimage)
            && TokenIs(ys[i], q.id, ys[r].t.codes[q.id].pin)
  {
    hide Goto, Act, Apply, Record, Do, BearerToken;
    var l := PassedCheck(ys, es, c, j);
    assert StepAt(ys, es, l);
    i := Arrival(ys, es, c, l);
    ReachLoadPending(ys[i].calls[c], ys[i].t, es[i].e);
    CallsFit(ys, es, i);
    assert FitCall(ys[i].calls[c]);
    var m := Arrival(ys, es, c, i);
    ReachCodePin(ys[m].calls[c], ys[m].t, es[m].e);
    r := Arrival(ys, es, c, m);
    ReachCodeCheck(ys[r].calls[c], ys[r].t, es[r].e);
    CallsFit(ys, es, r);
    RawIsBearer(ys, es, c, r);
  }

  lemma ReachLoadPending(k: Call, t: Tables, e: Env)
    requires Goto(k.q, k.pc, t, e) == LoadPending
    ensures k.pc.ClaimCheck?
      || (k.pc.CodePin? && Subject(k.q) in t.claims && t.claims[Subject(k.q)].tokenHash == k.pc.pin)
  {}

  lemma ReachCodePin(k: Call, t: Tables, e: Env)
    requires Goto(k.q, k.pc, t, e).CodePin?
    ensures k.pc.CodeCheck? && Sha256(k.pc.raw) == k.pc.code.codeHash && Goto(k.q, k.pc, t, e).pin == k.pc.code.pin
    ensures e.now <= k.pc.code.expiresAt
  {}

  lemma ReachCodeCheck(k: Call, t: Tables, e: Env)
    requires Goto(k.q, k.pc, t, e).CodeCheck?
    ensures k.pc.CodeRead? && Subject(k.q) in t.codes
    ensures Goto(k.q, k.pc, t, e) == CodeCheck(k.pc.raw, t.codes[Subject(k.q)])
  {}

  lemma RawIsBearer(ys: seq<System>, es: seq<Event>, c: nat, j: nat)
    requires Run(ys, es) && j < |ys| && c in ys[j].calls && ys[j].calls[c].pc.CodeRead?
        && ys[j].calls[c].q.EnrollRedeem?
    ensures BearerToken(ys[j].calls[c].q.auth) == Some(ys[j].calls[c].pc.raw)
  {
    hide Goto, Act, Apply, Record, Do, BearerToken;
    if ys[j].calls[c].pc != Begin(ys[j].calls[c].q) {
      var i := Arrival(ys, es, c, j);
      NoneReachesCodeRead(ys[i].calls[c], ys[i].t, es[i].e);
    }
  }

  lemma NoneReachesCodeRead(k: Call, t: Tables, e: Env)
    requires !k.pc.End?
    ensures !Goto(k.q, k.pc, t, e).CodeRead?
  {}

  predicate PastCheck(p: Pc) {
    p.PutSecret? || p.PutHash? || p.PutActive? || p.DropClaim? || p.DropCode? || (p.End? && p.response.Secret?)
  }

  lemma ReachPastCheck(k: Call, t: Tables, e: Env)
    requires Door(k.q) && Fits(k.q, k.pc) && !k.pc.End? && PastCheck(Goto(k.q, k.pc, t, e))
    ensures PastCheck(k.pc) ||
            (k.pc.LoadPending? && Subject(k.q) in t.rows && t.rows[Subject(k.q)].status == Pending)
  {}

  /** A Claim or EnrollRedeem that publishes a secret has itself read the appliance as pending. */
  lemma {:induction false} PassedCheck(ys: seq<System>, es: seq<Event>, c: nat, j: nat) returns (i: nat)
    requires Run(ys, es) && j < |ys| && c in ys[j].calls && Door(ys[j].calls[c].q)
    requires PastCheck(ys[j].calls[c].pc)
    ensures i < j && es[i].Turn? && es[i].c == c
    ensures c in ys[i].calls && ys[i].calls[c] == Call(ys[j].calls[c].q, LoadPending)
    ensures Subject(ys[j].calls[c].q) in ys[i].t.rows && ys[i].t.rows[Subject(ys[j].calls[c].q)].status == Pending
    decreases j
  {
    hide Goto, Act, Apply, Record, Do;
    var k := Arrival(ys, es, c, j);
    assert StepAt(ys, es, k);
    CallsFit(ys, es, k);
    assert FitCall(ys[k].calls[c]);
    ReachPastCheck(ys[k].calls[c], ys[k].t, es[k].e);
    if ys[k].calls[c].pc.LoadPending? {
      i := k;
    } else {
      i := PassedCheck(ys, es, c, k);
    }
  }

  /** Exchange-code pinning, end to end: from any state in which the redeemed code was stored up to
      the redeemer's comparison, the claim token it is pinned to was in place at every state. */
  lemma RedeemedCodeWasPinned(ys: seq<System>, es: seq<Event>, c: nat, j: nat) returns (r: nat, i: nat)
    requires Run(ys, es) && j < |ys| && c in ys[j].calls && ys[j].calls[c].q.EnrollRedeem?
    requires ys[j].calls[c].pc.End? && ys[j].calls[c].pc.response.Secret?
    ensures var q := ys[j].calls[c].q;
            && r < i < j && es[r].Turn? && es[r].c == c && es[i].Turn? && es[i].c == c
            && q.id in ys[r].t.codes
            && BearerToken(q.auth) == Some(ys[r].t.codes[q.id].codeHash.preimage)
            && forall s, k :: 0 <= s <= k <= i && CodePinnedTo(ys[s], q.id, ys[r].t.codes[q.id].pin)
                 ==> TokenIs(ys[k], q.id, ys[r].t.codes[q.id].pin)
  {
    r, i := Redemption(ys, es, c, j);
    var id := ys[j].calls[c].q.id;
    var pin := ys[r].t.codes[id].pin;
    forall s, k | 0 <= s <= k <= i && CodePinnedTo(ys[s], id, pin) ensures TokenIs(ys[k], id, pin) {
      PinnedThroughout(ys, es, id, pin, s, i, k);
    }
  }

  /** Once the pinned claim token has been replaced or deleted, no comparison with that pin succeeds again. */
  lemma SupersededCodeIsDead(ys: seq<System>, es: seq<Event>, c: nat, id: int, pin: Hash, s: nat, k: nat, j: nat)
    requires Run(ys, es) && s <= k <= j < |es|
    requires CodePinnedTo(ys[s], id, pin) && !TokenIs(ys[k], id, pin)
    requires es[j].Turn? && es[j].c == c && c in ys[j].calls && Subject(ys[j].calls[c].q) == id
    requires ys[j].calls[c].pc == CodePin(pin)
    ensures c in ys[j + 1].calls && ys[j + 1].calls[c].pc.End? && ys[j + 1].calls[c].pc.response.Fail?
  {
    hide Act, Apply, Record;
    assert StepAt(ys, es, j);
    if TokenIs(ys[j], id, pin) {
      PinnedThroughout(ys, es, id, pin, s, j, k);
    }
  }
}
