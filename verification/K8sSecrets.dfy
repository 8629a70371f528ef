/** internal/k8ssecrets: the cluster's appliance secrets, and why writing one behaves as one atomic put. */
module K8sSecrets {
  import opened Wrappers
  import Text

  /** A Secret object; the API server gives every write a new version. */
  datatype Object = Object(data: map<string, string>, version: nat)

  /** The namespace's objects by name, and the next version to be given out. */
  datatype Cluster = Cluster(objects: map<string, Object>, next: nat)

  ghost predicate Versioned(c: Cluster) {
    forall n :: n in c.objects ==> c.objects[n].version < c.next
  }

  function SecretName(id: int): string {
    "cloud-connect-secret-" + Text.Decimal(id)
  }

  /** The object's name reads: a literal prefix, then the appliance's id in decimal. */
  lemma SecretNameReads(id: nat)
    ensures |SecretName(id)| > 21 && SecretName(id)[..21] == "cloud-connect-secret-"
    ensures Text.IsNumeral(SecretName(id)[21..], id)
  {
    assert SecretName(id)[21..] == Text.Decimal(id);
    Text.DecimalIsNumeral(id);
  }

  lemma SecretNameInjective(i: int, j: int)
    requires SecretName(i) == SecretName(j)
    ensures i == j
  {
    assert SecretName(i)[21..] == Text.Decimal(i) && SecretName(j)[21..] == Text.Decimal(j);
    Text.DecimalInjective(i, j);
  }

  /** What the writer is supposed to do: set the "auth" key of one object, keeping its other keys. */
  function PutAuth(c: Cluster, name: string, auth: string): Cluster {
    var data := (if name in c.objects then c.objects[name].data else map[])["auth" := auth];
    Cluster(c.objects[name := Object(data, c.next)], c.next + 1)
  }

  /** The put sets the key "auth" of the named object to the value; all else stays: its other keys, whatever they
      hold, and every other object. */
  lemma PutSetsOneKey(c: Cluster, name: string, auth: string)
    ensures var d := PutAuth(c, name, auth);
            && d.objects.Keys == c.objects.Keys + {name}
            && "auth" in d.objects[name].data && d.objects[name].data["auth"] == auth
            && (forall key :: key != "auth" && name in c.objects ==>
                  (key in d.objects[name].data <==> key in c.objects[name].data)
                  && (key in c.objects[name].data ==> d.objects[name].data[key] == c.objects[name].data[key]))
            && (forall n :: n in c.objects && n != name ==> d.objects[n] == c.objects[n])
            && (name !in c.objects ==> d.objects[name].data.Keys == {"auth"})
  {}

  /** The value an appliance's tunnel server would read. */
  function AuthOf(c: Cluster, name: string): Option<string> {
    if name in c.objects && "auth" in c.objects[name].data then Some(c.objects[name].data["auth"]) else None
  }

  // ---------- WriteApplianceSecret, one API call at a time ----------

  datatype Writer = Creating | Getting | Updating(seen: Object) | Returned(ok: bool)

  /** Update is refused when the object has changed or gone since it was read. */
  predicate Updatable(c: Cluster, name: string, seen: Object) {
    name in c.objects && c.objects[name].version == seen.version
  }

  function NextCall(w: Writer, c: Cluster, name: string, fail: bool): Writer {
    match w
    case Creating => if fail then Returned(false) else if name in c.objects then Getting else Returned(true)
    case Getting => if fail || name !in c.objects then Returned(false) else Updating(c.objects[name])
    case Updating(seen) => Returned(!fail && Updatable(c, name, seen))
    case Returned(_) => w
  }

  function Called(w: Writer, c: Cluster, name: string, auth: string, fail: bool): Cluster {
    if fail then c
    else match w
      case Creating =>
        if name in c.objects then c
        else Cluster(c.objects[name := Object(map["auth" := auth], c.next)], c.next + 1)
      case Updating(seen) =>
        if Updatable(c, name, seen)
        then Cluster(c.objects[name := Object(seen.data["auth" := auth], c.next)], c.next + 1)
        else c
      case _ => c
  }

  /** Whatever the cluster holds at the call's three steps: creating succeeds at once if the name is free; otherwise
      the object must still be there at the second step and unchanged at the third. */
  lemma WriteSucceedsIff(c: Cluster, d: Cluster, e: Cluster, name: string, f: bool, g: bool, h: bool)
    ensures var w := NextCall(NextCall(NextCall(Creating, c, name, f), d, name, g), e, name, h);
            w == Returned(!f && (name in c.objects ==>
              && !g && !h && name in d.objects && name in e.objects
              && e.objects[name].version == d.objects[name].version))
  {}

  /** Any other clients' creates, updates and deletes: every object they write carries a new version. */
  ghost predicate Interferes(c: Cluster, d: Cluster) {
    && c.next <= d.next && Versioned(d)
    && forall n :: n in d.objects ==>
         (n in c.objects && d.objects[n] == c.objects[n]) || c.next <= d.objects[n].version
  }

  /** A step of the call, or of everyone else. */
  datatype Turn = Mine(fail: bool) | Theirs

  ghost predicate CallRuns(cs: seq<Cluster>, ws: seq<Writer>, ts: seq<Turn>, name: string, auth: string) {
    && |cs| == |ws| == |ts| + 1
    && Versioned(cs[0]) && ws[0] == Creating
    && forall i :: 0 <= i < |ts| ==> CallStep(cs, ws, ts, name, auth, i)
  }

  ghost predicate CallStep(cs: seq<Cluster>, ws: seq<Writer>, ts: seq<Turn>, name: string, auth: string, i: nat)
    requires |cs| == |ws| == |ts| + 1 && i < |ts|
  {
    match ts[i]
    case Mine(fail) =>
      && ws[i + 1] == NextCall(ws[i], cs[i], name, fail)
      && cs[i + 1] == Called(ws[i], cs[i], name, auth, fail)
    case Theirs => ws[i + 1] == ws[i] && Interferes(cs[i], cs[i + 1])
  }

  /** A version identifies what was read: the object seen is the object there, or it is out of date. */
  ghost predicate SeenIsCurrentOrOld(c: Cluster, w: Writer, name: string) {
    w.Updating? ==> w.seen.version < c.next && (Updatable(c, name, w.seen) ==> c.objects[name] == w.seen)
  }

  lemma {:induction false} SeenStays(cs: seq<Cluster>, ws: seq<Writer>, ts: seq<Turn>, name: string, auth: string,
      j: nat)
    requires CallRuns(cs, ws, ts, name, auth) && j < |cs|
    ensures Versioned(cs[j]) && SeenIsCurrentOrOld(cs[j], ws[j], name)
    decreases j
  {
    if j > 0 {
      SeenStays(cs, ws, ts, name, auth, j - 1);
      assert CallStep(cs, ws, ts, name, auth, j - 1);
    }
  }

  /** The call's own step i is the put. */
  ghost predicate PutsAt(cs: seq<Cluster>, ts: seq<Turn>, name: string, auth: string, i: nat)
    requires |cs| == |ts| + 1
  {
    i < |ts| && ts[i].Mine? && cs[i + 1] == PutAuth(cs[i], name, auth)
  }

  /** The call's own step i changes nothing. */
  ghost predicate IdleAt(cs: seq<Cluster>, ts: seq<Turn>, i: nat)
    requires |cs| == |ts| + 1
  {
    i < |ts| && (ts[i].Mine? ==> cs[i + 1] == cs[i])
  }

  lemma OwnStep(c: Cluster, w: Writer, name: string, auth: string, fail: bool)
    requires SeenIsCurrentOrOld(c, w, name) && !w.Returned?
    ensures if NextCall(w, c, name, fail) == Returned(true)
            then Called(w, c, name, auth, fail) == PutAuth(c, name, auth)
            else Called(w, c, name, auth, fail) == c
  {
    if w.Updating? && Updatable(c, name, w.seen) {
      assert c.objects[name].data == w.seen.data;
    }
  }

  /** Whatever other clients do meanwhile: a call that returns nil has put the secret exactly once, at
      some instant within it; a call that returns an error, or has not returned, has changed nothing. */
  lemma {:induction false} WriteRefinesPut(cs: seq<Cluster>, ws: seq<Writer>, ts: seq<Turn>, name: string,
      auth: string, j: nat)
    returns (at: nat)
    requires CallRuns(cs, ws, ts, name, auth) && j < |cs|
    ensures if ws[j] == Returned(true)
            then at < j && PutsAt(cs, ts, name, auth, at) && AuthOf(cs[at + 1], name) == Some(auth)
                 && forall i :: 0 <= i < j && i != at ==> IdleAt(cs, ts, i)
            else forall i :: 0 <= i < j ==> IdleAt(cs, ts, i)
    decreases j
  {
    at := 0;
    if j > 0 {
      var before := WriteRefinesPut(cs, ws, ts, name, auth, j - 1);
      at := before;
      assert CallStep(cs, ws, ts, name, auth, j - 1);
      SeenStays(cs, ws, ts, name, auth, j - 1);
      if ts[j - 1].Mine? && !ws[j - 1].Returned? {
        OwnStep(cs[j - 1], ws[j - 1], name, auth, ts[j - 1].fail);
        if ws[j] == Returned(true) {
          at := j - 1;
        }
      }
    }
  }

  /** Writing one appliance's secret never touches another's. */
  lemma OwnStepsTouchOneAppliance(c: Cluster, w: Writer, id: int, other: int, auth: string, fail: bool)
    requires id != other
    ensures AuthOf(Called(w, c, SecretName(id), auth, fail), SecretName(other)) == AuthOf(c, SecretName(other))
  {
    if SecretName(id) == SecretName(other) {
      SecretNameInjective(id, other);
    }
  }

  // ---------- left undisturbed ----------

  /** After n steps of the call alone. */
  function Undisturbed(c: Cluster, name: string, auth: string, fails: nat -> bool, n: nat): (Writer, Cluster) {
    if n == 0 then (Creating, c)
    else
      var (w, d) := Undisturbed(c, name, auth, fails, n - 1);
      (NextCall(w, d, name, fails(n - 1)), Called(w, d, name, auth, fails(n - 1)))
  }

  lemma AfterThree(c: Cluster, name: string, auth: string, fails: nat -> bool)
    ensures var (w, d) := Undisturbed(c, name, auth, fails, 3);
            && w == Returned(!fails(0) && (name in c.objects ==> !fails(1) && !fails(2)))
            && d == if w.ok then PutAuth(c, name, auth) else c
  {
    assert Undisturbed(c, name, auth, fails, 0) == (Creating, c);
    var (w, d) := Undisturbed(c, name, auth, fails, 1);
    var (x, f) := Undisturbed(c, name, auth, fails, 2);
    assert w.Getting? ==> f == c && (!fails(1) ==> x == Updating(c.objects[name]));
  }

  /** These are a run of the call with no step by others. */
  lemma UndisturbedRuns(c: Cluster, name: string, auth: string, fails: nat -> bool,
      cs: seq<Cluster>, ws: seq<Writer>, ts: seq<Turn>)
    requires Versioned(c) && |cs| == |ws| == |ts| + 1
    requires forall i: nat :: i < |cs| ==> Undisturbed(c, name, auth, fails, i) == (ws[i], cs[i])
    requires forall i: nat :: i < |ts| ==> ts[i] == Mine(fails(i))
    ensures CallRuns(cs, ws, ts, name, auth)
  {
    hide NextCall, Called, Versioned;
    assert Undisturbed(c, name, auth, fails, 0) == (ws[0], cs[0]);
    forall i: nat | i < |ts| ensures CallStep(cs, ws, ts, name, auth, i) {
      assert Undisturbed(c, name, auth, fails, i + 1) == (ws[i + 1], cs[i + 1]);
    }
  }

  // ---------- the cluster as the appliances' secrets ----------

  predicate ShowsAt(c: Cluster, secrets: map<int, string>, id: int) {
    AuthOf(c, SecretName(id)) == if id in secrets then Some(secrets[id]) else None
  }

  /** The secrets by appliance that the namespace shows. */
  ghost predicate Shows(c: Cluster, secrets: map<int, string>) {
    forall id :: ShowsAt(c, secrets, id)
  }

  /** A put on one name, seen by appliance, sets that appliance's secret and no other. */
  lemma PutShows(c: Cluster, id: int, auth: string, secrets: map<int, string>)
    requires Shows(c, secrets)
    ensures Shows(PutAuth(c, SecretName(id), auth), secrets[id := auth])
  {
    var d, after := PutAuth(c, SecretName(id), auth), secrets[id := auth];
    forall i ensures ShowsAt(d, after, i) {
      assert ShowsAt(c, secrets, i);
      if SecretName(i) == SecretName(id) {
        SecretNameInjective(i, id);
      }
    }
  }

  lemma DeleteShows(c: Cluster, id: int, secrets: map<int, string>)
    requires Shows(c, secrets)
    ensures Shows(c.(objects := c.objects - {SecretName(id)}), secrets - {id})
  {
    var d, rest := c.(objects := c.objects - {SecretName(id)}), secrets - {id};
    forall i ensures ShowsAt(d, rest, i) {
      assert ShowsAt(c, secrets, i);
      if SecretName(i) == SecretName(id) {
        SecretNameInjective(i, id);
      }
    }
  }

  /** WriteRefinesPut in terms of appliances: within a call that returns nil there is one instant at which the
      appliance's secret is set, the others staying; the call's other steps change nothing. */
  lemma WriteSetsOneSecret(cs: seq<Cluster>, ws: seq<Writer>, ts: seq<Turn>, id: int, auth: string)
    returns (at: nat)
    requires CallRuns(cs, ws, ts, SecretName(id), auth) && ws[|ts|] == Returned(true)
    ensures at < |ts| && ts[at].Mine?
    ensures forall m :: Shows(cs[at], m) ==> Shows(cs[at + 1], m[id := auth])
    ensures forall i :: 0 <= i < |ts| && i != at ==> IdleAt(cs, ts, i)
  {
    at := WriteRefinesPut(cs, ws, ts, SecretName(id), auth, |ts|);
    forall m | Shows(cs[at], m) ensures Shows(cs[at + 1], m[id := auth]) {
      PutShows(cs[at], id, auth, m);
    }
  }

  // ---------- the writer itself, over an API server ----------

  /** The typed client: each method is one API call, failing without effect when told to. */
  class Client {
    var cluster: Cluster

    constructor (c: Cluster)
      ensures cluster == c
    {
      cluster := c;
    }

    method Create(name: string, data: map<string, string>, fail: bool) returns (ok: bool, taken: bool)
      modifies this
      ensures ok <==> !fail && name !in old(cluster).objects
      ensures taken <==> !fail && name in old(cluster).objects
      ensures ok ==>
          cluster == Cluster(old(cluster).objects[name := Object(data, old(cluster).next)], old(cluster).next + 1)
      ensures !ok ==> cluster == old(cluster)
    {
      taken := !fail && name in cluster.objects;
      ok := !fail && !taken;
      if ok {
        cluster := Cluster(cluster.objects[name := Object(data, cluster.next)], cluster.next + 1);
      }
    }

    method Get(name: string, fail: bool) returns (found: Option<Object>)
      ensures found == if !fail && name in cluster.objects then Some(cluster.objects[name]) else None
    {
      found := if !fail && name in cluster.objects then Some(cluster.objects[name]) else None;
    }

    method Update(name: string, updated: Object, fail: bool) returns (ok: bool)
      modifies this
      ensures ok <==> !fail && Updatable(old(cluster), name, updated)
      ensures ok ==> cluster == Cluster(old(cluster).objects[name := updated.(version := old(cluster).next)],
                                        old(cluster).next + 1)
      ensures !ok ==> cluster == old(cluster)
    {
      ok := !fail && Updatable(cluster, name, updated);
      if ok {
        cluster := Cluster(cluster.objects[name := updated.(version := cluster.next)], cluster.next + 1);
      }
    }

    method Delete(name: string, fail: bool) returns (ok: bool, missing: bool)
      modifies this
      ensures ok <==> !fail && name in old(cluster).objects
      ensures missing <==> !fail && name !in old(cluster).objects
      ensures cluster == if ok then old(cluster).(objects := old(cluster).objects - {name}) else old(cluster)
    {
      missing := !fail && name !in cluster.objects;
      ok := !fail && !missing;
      if ok {
        cluster := cluster.(objects := cluster.objects - {name});
      }
    }

    /** Create, or get then update: the steps of the call left undisturbed. It sets that appliance's secret. */
    method WriteApplianceSecret(id: int, auth: string, fails: nat -> bool) returns (ok: bool)
      modifies this
      ensures ok ==> cluster == PutAuth(old(cluster), SecretName(id), auth)
      ensures !ok ==> cluster == old(cluster)
      ensures ok <==> !fails(0) && (SecretName(id) in old(cluster).objects ==> !fails(1) && !fails(2))
      ensures Undisturbed(old(cluster), SecretName(id), auth, fails, 3) == (Returned(ok), cluster)
      ensures forall m :: Shows(old(cluster), m) ==> Shows(cluster, if ok then m[id := auth] else m)
    {
      AfterThree(cluster, SecretName(id), auth, fails);
      ghost var before := cluster;
      forall m | Shows(before, m) ensures Shows(PutAuth(before, SecretName(id), auth), m[id := auth]) {
        PutShows(before, id, auth, m);
      }
      var name := SecretName(id);
      var present: bool;
      ok, present := Create(name, map["auth" := auth], fails(0));
      if !ok && present {
        var existing := Get(name, fails(1));
        if existing.None? {
          return false;
        }
        ok := Update(name, existing.value.(data := existing.value.data["auth" := auth]), fails(2));
      }
    }

    /** A missing Secret is not an error. */
    method DeleteApplianceSecret(id: int, fail: bool) returns (ok: bool)
      modifies this
      ensures ok <==> !fail
      ensures ok ==> cluster == old(cluster).(objects := old(cluster).objects - {SecretName(id)})
      ensures !ok ==> cluster == old(cluster)
      ensures forall m :: Shows(old(cluster), m) ==> Shows(cluster, if ok then m - {id} else m)
    {
      ghost var before := cluster;
      forall m | Shows(before, m)
        ensures Shows(before.(objects := before.objects - {SecretName(id)}), m - {id})
      {
        DeleteShows(before, id, m);
      }
      var missing: bool;
      ok, missing := Delete(SecretName(id), fail);
      assert missing ==> cluster.objects - {SecretName(id)} == cluster.objects;
      ok := ok || missing;
    }
  }

  // ---------- the writer as its callers see it ----------

  /** The cluster's secrets by appliance: by WriteSetsOneSecret, writing one sets it at a single instant. */
  class SecretStore {
    var secrets: map<int, string>

    constructor ()
      ensures secrets == map[]
    {
      secrets := map[];
    }

    method WriteApplianceSecret(id: int, auth: string, fail: bool) returns (ok: bool)
      modifies this
      ensures ok <==> !fail
      ensures secrets == if ok then old(secrets)[id := auth] else old(secrets)
    {
      ok := !fail;
      if ok { secrets := secrets[id := auth]; }
    }

    method DeleteApplianceSecret(id: int, fail: bool) returns (ok: bool)
      modifies this
      ensures ok <==> !fail
      ensures secrets == if ok then old(secrets) - {id} else old(secrets)
    {
      ok := !fail;
      if ok { secrets := secrets - {id}; }
    }
  }
}
