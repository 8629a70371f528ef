/** internal/persistence: the stored records, and the one change each statement makes to them. */
module Persistence {
  import opened Wrappers
  import opened Tokens

  datatype Status = Pending | Active | Revoked

  datatype Row = Row(name: string, hostLabel: string, group: int, status: Status,
                     claimedAt: Option<int>, secretHash: Option<Hash>)

  datatype ClaimRow = ClaimRow(tokenHash: Hash, expiresAt: int)

  /** pin is the hash of the claim token that existed when the code was issued. */
  datatype CodeRow = CodeRow(codeHash: Hash, pin: Hash, expiresAt: int)

  datatype LoginRow = LoginRow(appliance: int, user: int, expiresAt: int)

  /** The database tables by primary key, and the cluster's appliance secrets by appliance id. */
  datatype Tables = Tables(
    rows: map<int, Row>,
    claims: map<int, ClaimRow>,
    codes: map<int, CodeRow>,
    logins: map<Hash, LoginRow>,
    secrets: map<int, string>,
    nextId: int)

  const EMPTY_TABLES := Tables(map[], map[], map[], map[], map[], 1)

  predicate LabelTaken(rows: map<int, Row>, hostLabel: string) {
    exists id :: id in rows && rows[id].hostLabel == hostLabel
  }

  /** Whether MarkApplianceClaimed changes the row; zero rows changed is reported as ErrNoRows. */
  predicate Markable(rows: map<int, Row>, id: int, now: int) {
    id in rows && !(rows[id].status == Active && rows[id].claimedAt == Some(now))
  }

  /** Whether SetApplianceStatus changes the row. */
  predicate Settable(rows: map<int, Row>, id: int, status: Status) {
    id in rows && rows[id].status != status
  }

  datatype Effect =
    | Nothing
    | AddRow(name: string, hostLabel: string, group: int)
    | SetStatus(id: int, status: Status)
    | Activate(id: int, now: int)
    | SetHash(id: int, hash: Option<Hash>)
    | SetClaim(id: int, claim: ClaimRow)
    | DelClaim(id: int)
    | SetCode(id: int, code: CodeRow)
    | DelCode(id: int)
    | PruneLogins(cutoff: int)
    | AddLogin(key: Hash, login: LoginRow)
    | TakeLogin(key: Hash)
    | SetSecret(id: int, value: string)
    | DelSecret(id: int)

  function Unexpired(logins: map<Hash, LoginRow>, cutoff: int): (kept: map<Hash, LoginRow>)
    ensures forall h :: h in kept <==> h in logins && cutoff <= logins[h].expiresAt
    ensures forall h :: h in kept ==> kept[h] == logins[h]
  {
    map h | h in logins && !(logins[h].expiresAt < cutoff) :: logins[h]
  }

  function Apply(t: Tables, f: Effect): Tables {
    match f
    case Nothing => t
    case AddRow(name, hostLabel, group) =>
      t.(rows := t.rows[t.nextId := Row(name, hostLabel, group, Pending, None, None)], nextId := t.nextId + 1)
    case SetStatus(id, status) =>
      if id in t.rows then t.(rows := t.rows[id := t.rows[id].(status := status)]) else t
    case Activate(id, now) =>
      if id in t.rows then t.(rows := t.rows[id := t.rows[id].(status := Active, claimedAt := Some(now))]) else t
    case SetHash(id, hash) =>
      if id in t.rows then t.(rows := t.rows[id := t.rows[id].(secretHash := hash)]) else t
    case SetClaim(id, claim) => t.(claims := t.claims[id := claim])
    case DelClaim(id) => t.(claims := t.claims - {id})
    case SetCode(id, code) => t.(codes := t.codes[id := code])
    case DelCode(id) => t.(codes := t.codes - {id})
    case PruneLogins(cutoff) => t.(logins := Unexpired(t.logins, cutoff))
    case AddLogin(key, login) => t.(logins := t.logins[key := login])
    case TakeLogin(key) => t.(logins := t.logins - {key})
    case SetSecret(id, value) => t.(secrets := t.secrets[id := value])
    case DelSecret(id) => t.(secrets := t.secrets - {id})
  }

  /** The ids below a bound with a given status, ascending: ListAppliancesByStatus. */
  function WithStatus(rows: map<int, Row>, status: Status, bound: nat): (ids: seq<int>)
    ensures forall id :: id in ids <==> 0 <= id < bound && id in rows && rows[id].status == status
    ensures forall i, j :: 0 <= i < j < |ids| ==> ids[i] < ids[j]
  {
    if bound == 0 then []
    else
      var rest := WithStatus(rows, status, bound - 1);
      assert forall i :: 0 <= i < |rest| ==> rest[i] in rest;
      if bound - 1 in rows && rows[bound - 1].status == status then rest + [bound - 1] else rest
  }
}
