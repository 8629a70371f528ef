/** internal/persistence/mariadb: tables changed in place, one statement at a time.
    A statement told to fail does nothing. */
module Mariadb {
  import opened Wrappers
  import opened Tokens
  import opened Persistence

  /** The row as MarkApplianceClaimed writes it, whatever its status was. */
  function Stamped(row: Row, now: int): Row {
    row.(status := Active, claimedAt := Some(now))
  }

  datatype Error = Nil | NoRows | Duplicate | Fault

  class Database {
    var rows: map<int, Row>
    var claims: map<int, ClaimRow>
    var codes: map<int, CodeRow>
    var logins: map<Hash, LoginRow>
    var nextId: int

    /** The tables, with the cluster's secrets beside them. */
    function Tables(secrets: map<int, string>): Tables
      reads this
    {
      Persistence.Tables(rows, claims, codes, logins, secrets, nextId)
    }

    /** The database has undergone exactly effect f, whatever the cluster holds. */
    twostate predicate Changes(f: Effect)
      reads this
    {
      forall secrets :: Tables(secrets) == Apply(old(Tables(secrets)), f)
    }

    constructor ()
      ensures Tables(map[]) == EMPTY_TABLES
    {
      rows, claims, codes, logins, nextId := map[], map[], map[], map[], 1;
    }

    /** The INSERT of CreateAppliance; its SELECT is GetAppliance. */
    method InsertAppliance(name: string, hostLabel: string, group: int, fail: bool) returns (err: Error, id: int)
      modifies `rows, `nextId
      ensures err == if fail then Fault else if LabelTaken(old(rows), hostLabel) then Duplicate else Nil
      ensures err.Duplicate? <==> !fail && exists i :: i in old(rows) && old(rows)[i].hostLabel == hostLabel
      ensures err.Nil? ==>
          && id == old(nextId) && nextId == old(nextId) + 1
          && rows == old(rows)[id := Row(name, hostLabel, group, Pending, None, None)]
      ensures !err.Nil? ==> rows == old(rows) && nextId == old(nextId)
      ensures Changes(if err.Nil? then AddRow(name, hostLabel, group) else Nothing)
    {
      if fail { return Fault, 0; }
      if LabelTaken(rows, hostLabel) { return Duplicate, 0; }
      id := nextId;
      rows := rows[id := Row(name, hostLabel, group, Pending, None, None)];
      nextId := nextId + 1;
      err := Nil;
    }

    method GetAppliance(id: int, fail: bool) returns (err: Error, row: Row)
      ensures err == if fail then Fault else if id !in rows then NoRows else Nil
      ensures err.Nil? ==> row == rows[id]
    {
      row := Row("", "", 0, Pending, None, None);
      if fail { return Fault, row; }
      if id !in rows { return NoRows, row; }
      return Nil, rows[id];
    }

    /** The cursor loop over rows in id order. */
    method ListAppliancesByStatus(status: Status, fail: bool) returns (err: Error, ids: seq<int>)
      ensures err == if fail then Fault else Nil
      ensures err.Nil? ==> ids == WithStatus(rows, status, if nextId < 0 then 0 else nextId)
      ensures err.Nil? ==> forall id :: id in ids <==> 0 <= id < nextId && id in rows && rows[id].status == status
    {
      ids := [];
      if fail { return Fault, ids; }
      var bound: nat := if nextId < 0 then 0 else nextId;
      var i: nat := 0;
      while i < bound
        invariant i <= bound && ids == WithStatus(rows, status, i)
      {
        if i in rows && rows[i].status == status {
          ids := ids + [i];
        }
        i := i + 1;
      }
      err := Nil;
    }

    method SetApplianceStatus(id: int, status: Status, fail: bool) returns (err: Error)
      modifies `rows
      ensures err == if fail then Fault
                     else if id !in old(rows) || old(rows)[id].status == status then NoRows else Nil
      ensures err.Nil? <==> !fail && Settable(old(rows), id, status)
      ensures rows == if err.Nil? then old(rows)[id := old(rows)[id].(status := status)] else old(rows)
      ensures Changes(if err.Nil? then SetStatus(id, status) else Nothing)
    {
      if fail { return Fault; }
      var changed := 0;
      if id in rows && rows[id].status != status {
        rows := rows[id := rows[id].(status := status)];
        changed := 1;
      }
      err := if changed == 0 then NoRows else Nil;
    }

    method MarkApplianceClaimed(id: int, now: int, fail: bool) returns (err: Error)
      modifies `rows
      ensures err == if fail then Fault
                     else if id !in old(rows) || Stamped(old(rows)[id], now) == old(rows)[id] then NoRows else Nil
      ensures err.Nil? <==> !fail && Markable(old(rows), id, now)
      ensures rows == if err.Nil? then old(rows)[id := Stamped(old(rows)[id], now)] else old(rows)
      ensures Changes(if err.Nil? then Activate(id, now) else Nothing)
    {
      if fail { return Fault; }
      var changed := 0;
      if id in rows {
        var claimed := Stamped(rows[id], now);
        if claimed != rows[id] {
          rows := rows[id := claimed];
          changed := 1;
        }
      }
      err := if changed == 0 then NoRows else Nil;
    }

    method SaveClaimToken(id: int, claim: ClaimRow, fail: bool) returns (err: Error)
      modifies `claims
      ensures err == if fail || id !in rows then Fault else Nil
      ensures claims == if err.Nil? then old(claims)[id := claim] else old(claims)
      ensures Changes(if err.Nil? then SetClaim(id, claim) else Nothing)
    {
      if fail || id !in rows { return Fault; }  // the foreign key
      claims := claims[id := claim];
      err := Nil;
    }

    method GetClaimToken(id: int, fail: bool) returns (err: Error, claim: ClaimRow)
      ensures err == if fail then Fault else if id !in claims then NoRows else Nil
      ensures err.Nil? ==> claim == claims[id]
    {
      claim := ClaimRow(Sha256(""), 0);
      if fail { return Fault, claim; }
      if id !in claims { return NoRows, claim; }
      return Nil, claims[id];
    }

    method DeleteClaimToken(id: int, fail: bool) returns (err: Error)
      modifies `claims
      ensures err == if fail then Fault else Nil
      ensures claims == if err.Nil? then old(claims) - {id} else old(claims)
      ensures Changes(if err.Nil? then DelClaim(id) else Nothing)
    {
      if fail { return Fault; }
      claims := claims - {id};
      err := Nil;
    }

    method SaveEnrollExchangeCode(id: int, code: CodeRow, fail: bool) returns (err: Error)
      modifies `codes
      ensures err == if fail || id !in rows then Fault else Nil
      ensures codes == if err.Nil? then old(codes)[id := code] else old(codes)
      ensures Changes(if err.Nil? then SetCode(id, code) else Nothing)
    {
      if fail || id !in rows { return Fault; }
      codes := codes[id := code];
      err := Nil;
    }

    method GetEnrollExchangeCode(id: int, fail: bool) returns (err: Error, code: CodeRow)
      ensures err == if fail then Fault else if id !in codes then NoRows else Nil
      ensures err.Nil? ==> code == codes[id]
    {
      code := CodeRow(Sha256(""), Sha256(""), 0);
      if fail { return Fault, code; }
      if id !in codes { return NoRows, code; }
      return Nil, codes[id];
    }

    method DeleteEnrollExchangeCode(id: int, fail: bool) returns (err: Error)
      modifies `codes
      ensures err == if fail then Fault else Nil
      ensures codes == if err.Nil? then old(codes) - {id} else old(codes)
      ensures Changes(if err.Nil? then DelCode(id) else Nothing)
    {
      if fail { return Fault; }
      codes := codes - {id};
      err := Nil;
    }

    /** Zero rows changed is no error when the row exists: an unchanged hash counts as stored. */
    method SetApplianceSecretHash(id: int, hash: Option<Hash>, fail: bool) returns (err: Error)
      modifies `rows
      ensures err == if fail then Fault else if id in old(rows) then Nil else NoRows
      ensures rows == if err.Nil? then old(rows)[id := old(rows)[id].(secretHash := hash)] else old(rows)
      ensures Changes(if err.Nil? then SetHash(id, hash) else Nothing)
    {
      if fail { return Fault; }
      var changed := 0;
      if id in rows && rows[id].secretHash != hash {
        rows := rows[id := rows[id].(secretHash := hash)];
        changed := 1;
      }
      if changed == 0 && id !in rows { return NoRows; }
      assert changed == 0 ==> rows == rows[id := rows[id].(secretHash := hash)];
      err := Nil;
    }

    method GetApplianceSecretHash(id: int, fail: bool) returns (err: Error, hash: Option<Hash>)
      ensures err == if fail then Fault else if id !in rows then NoRows else Nil
      ensures err.Nil? ==> hash == rows[id].secretHash
    {
      if fail { return Fault, None; }
      if id !in rows { return NoRows, None; }
      return Nil, rows[id].secretHash;
    }

    /** The first statement of SaveLoginCode. */
    method PruneLoginCodes(cutoff: int, fail: bool) returns (err: Error)
      modifies `logins
      ensures err == if fail then Fault else Nil
      ensures forall h :: h in logins <==> h in old(logins) && (fail || cutoff <= old(logins)[h].expiresAt)
      ensures forall h :: h in logins ==> logins[h] == old(logins)[h]
      ensures Changes(if err.Nil? then PruneLogins(cutoff) else Nothing)
    {
      if fail { return Fault; }
      logins := map h | h in logins && !(logins[h].expiresAt < cutoff) :: logins[h];
      err := Nil;
    }

    /** The second statement of SaveLoginCode. */
    method InsertLoginCode(key: Hash, login: LoginRow, fail: bool) returns (err: Error)
      modifies `logins
      ensures err == if fail || login.appliance !in rows then Fault else if key in old(logins) then Duplicate else Nil
      ensures logins == if err.Nil? then old(logins)[key := login] else old(logins)
      ensures Changes(if err.Nil? then AddLogin(key, login) else Nothing)
    {
      if fail || login.appliance !in rows { return Fault; }
      if key in logins { return Duplicate; }
      logins := logins[key := login];
      err := Nil;
    }

    /** One transaction: select for update, delete, commit. */
    method ConsumeLoginCode(key: Hash, appliance: int, fail: bool) returns (err: Error, login: LoginRow)
      modifies `logins
      ensures err == if fail then Fault
                     else if key in old(logins) && old(logins)[key].appliance == appliance then Nil else NoRows
      ensures err.Nil? ==> login == old(logins)[key]
      ensures logins == if err.Nil? then old(logins) - {key} else old(logins)
      ensures Changes(if err.Nil? then TakeLogin(key) else Nothing)
    {
      login := LoginRow(0, 0, 0);
      if fail { return Fault, login; }
      if key !in logins || logins[key].appliance != appliance { return NoRows, login; }
      login := logins[key];
      logins := logins - {key};
      err := Nil;
    }
  }
}
