/**
 * The users table behind `create_user`, `find_user_by_account` and
 * `find_user_by_id`. The SQL is abstracted as a map from id to row with
 * auto-increment ids and unique usernames and emails; a database failure
 * other than a unique-key violation is an injected `fault`.
 */
module UserService {
  import opened Wrappers

  datatype UserRow = UserRow(id: int, username: string, email: string, passwordHash: string)

  /** A database error; MySQL reports a unique-index violation with code "1062". */
  datatype DbError = Database(code: Option<string>) | Unavailable

  const DuplicateKeyCode: string := "1062"

  predicate IsDuplicateKey(e: DbError) {
    e.Database? && e.code == Some(DuplicateKeyCode)
  }

  /** `WHERE username = ? OR email = ?` */
  predicate AccountMatches(u: UserRow, account: string) {
    u.username == account || u.email == account
  }

  /** Some row of `rows` already holds this username or this email. */
  predicate TakenIn(rows: map<int, UserRow>, username: string, email: string) {
    exists id :: id in rows && (rows[id].username == username || rows[id].email == email)
  }

  /** What `create_user` returns against `rows`: an injected fault, the duplicate-key error, or the next id. */
  function CreateOutcome(rows: map<int, UserRow>, nextId: int, username: string, email: string, fault: Option<DbError>): (r: Result<int, DbError>)
    ensures r.Success? ==> r.value == nextId && !TakenIn(rows, username, email)
    ensures r.Failure? && fault.None? ==> IsDuplicateKey(r.error)
  {
    if fault.Some? then Failure(fault.value)
    else if TakenIn(rows, username, email) then Failure(Database(Some(DuplicateKeyCode)))
    else Success(nextId)
  }

  /** What `find_user_by_account` may return: the injected fault, a matching row, or none when no row matches. */
  predicate LookupAgrees(rows: map<int, UserRow>, account: string, fault: Option<DbError>, r: Result<Option<UserRow>, DbError>) {
    if fault.Some? then r == Failure(fault.value)
    else
      && r.Success?
      && (r.value.None? ==> forall id :: id in rows ==> !AccountMatches(rows[id], account))
      && (r.value.Some? ==> r.value.value.id in rows && rows[r.value.value.id] == r.value.value && AccountMatches(r.value.value, account))
  }

  class UserTable {
    var rows: map<int, UserRow>
    var nextId: int

    /** Rows are keyed by their own positive id, below the next auto-increment value; usernames and emails are unique. */
    ghost predicate Valid()
      reads this
    {
      && 0 < nextId
      && (forall id :: id in rows ==> rows[id].id == id && 0 < id < nextId)
      && (forall a, b :: a in rows && b in rows && a != b ==>
            rows[a].username != rows[b].username && rows[a].email != rows[b].email)
    }

    constructor ()
      ensures Valid() && rows == map[] && nextId == 1
    {
      rows := map[];
      nextId := 1;
    }

    /** `create_user`: inserts a row and returns its new id, or fails without writing. */
    method CreateUser(username: string, email: string, passwordHash: string, fault: Option<DbError>)
      returns (r: Result<int, DbError>)
      requires Valid()
      modifies this
      ensures Valid()
      ensures r == CreateOutcome(old(rows), old(nextId), username, email, fault)
      ensures r.Failure? ==> rows == old(rows) && nextId == old(nextId)
      ensures r.Success? ==>
                && rows == old(rows)[old(nextId) := UserRow(old(nextId), username, email, passwordHash)]
                && nextId == old(nextId) + 1
    {
      if fault.Some? {
        return Failure(fault.value);
      }
      if TakenIn(rows, username, email) {
        return Failure(Database(Some(DuplicateKeyCode)));
      }
      r := Success(nextId);
      rows := rows[nextId := UserRow(nextId, username, email, passwordHash)];
      nextId := nextId + 1;
    }

    /** `find_user_by_account`: some row whose username or email is `account` (which one is unspecified), or none. */
    method FindUserByAccount(account: string, fault: Option<DbError>) returns (r: Result<Option<UserRow>, DbError>)
      requires Valid()
      ensures LookupAgrees(rows, account, fault, r)
    {
      if fault.Some? {
        return Failure(fault.value);
      }
      if exists id :: id in rows && AccountMatches(rows[id], account) {
        var id :| id in rows && AccountMatches(rows[id], account);
        r := Success(Some(rows[id]));
      } else {
        r := Success(None);
      }
    }

    /** `find_user_by_id`. */
    method FindUserById(id: int, fault: Option<DbError>) returns (r: Result<Option<UserRow>, DbError>)
      ensures fault.Some? ==> r == Failure(fault.value)
      ensures fault.None? ==> r == Success(if id in rows then Some(rows[id]) else None)
    {
      if fault.Some? {
        return Failure(fault.value);
      }
      r := Success(if id in rows then Some(rows[id]) else None);
    }
  }
}
