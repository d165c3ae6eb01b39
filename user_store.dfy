/** The users table and `UserService.CreateUser` (backend/internal/services/user.go). */
module UserStore {
  import opened Wrappers
  import Json

  /**
   * `models.User`. In a stored row `password` holds the bcrypt hash; a user
   * handed back to callers has whatever the query scanned into it.
   */
  datatype User = User(id: int, name: string, email: string, phone: string,
                       password: string, role: string, createdAt: int, updatedAt: int)

  /** The row `INSERT INTO users` writes: the submitted profile, the hash, fresh id and timestamps. */
  function StoredRow(id: int, user: User, hashed: string, now: int): User {
    User(id, user.name, user.email, user.phone, hashed, user.role, now, now)
  }

  /** What `RETURNING id, name, email, phone, role, created_at, updated_at` scans: no password. */
  function Returned(row: User): User {
    User(row.id, row.name, row.email, row.phone, "", row.role, row.createdAt, row.updatedAt)
  }

  /** `c.JSON` of a `models.User`: the `json:"-"` tag keeps the password out. */
  function ToJson(u: User): (obj: Json.Object)
    ensures obj.Keys == {"id", "name", "email", "phone", "role", "created_at", "updated_at"}
    ensures "password" !in obj
    ensures obj["name"] == Json.Str(u.name) && obj["email"] == Json.Str(u.email)
    ensures obj["phone"] == Json.Str(u.phone) && obj["role"] == Json.Str(u.role)
    ensures obj["id"] == Json.Number(u.id)
  {
    map["id" := Json.Number(u.id), "name" := Json.Str(u.name), "email" := Json.Str(u.email),
        "phone" := Json.Str(u.phone), "role" := Json.Str(u.role),
        "created_at" := Json.Number(u.createdAt), "updated_at" := Json.Number(u.updatedAt)]
  }

  /** What a successful `CreateUser` hands back: the submitted profile, a fresh id, no password. */
  lemma CreatedUserProjection(id: int, user: User, hashed: string, now: int)
    ensures var u := Returned(StoredRow(id, user, hashed, now));
      && u.id == id && u.name == user.name && u.email == user.email
      && u.phone == user.phone && u.role == user.role && u.password == ""
      && "password" !in ToJson(u)
  {
  }

  class UserTable {
    var rows: map<int, User>
    var nextId: int

    ghost predicate Valid()
      reads this
    {
      nextId >= 1 && forall id :: id in rows ==> 1 <= id < nextId && rows[id].id == id
    }

    constructor ()
      ensures Valid() && rows == map[] && nextId == 1
    {
      rows := map[];
      nextId := 1;
    }

    /**
     * Hash the password (`hash` stands for bcrypt, which may fail), then
     * insert. A hashing failure inserts nothing.
     */
    method CreateUser(user: User, hash: string -> Result<string>, now: int, dbError: Option<string>)
      returns (r: Result<User>)
      requires Valid()
      modifies this
      ensures Valid()
      ensures hash(user.password).Err? ==>
        r == Err("failed to hash password: " + hash(user.password).msg) && rows == old(rows) && nextId == old(nextId)
      ensures hash(user.password).Ok? && dbError.Some? ==>
        r == Err("failed to create user: " + dbError.value) && rows == old(rows) && nextId == old(nextId)
      ensures hash(user.password).Ok? && dbError.None? ==>
        && rows == old(rows)[old(nextId) := StoredRow(old(nextId), user, hash(user.password).value, now)]
        && nextId == old(nextId) + 1
        && r == Ok(Returned(rows[old(nextId)]))
    {
      var hashed := hash(user.password);
      if hashed.Err? {
        return Err("failed to hash password: " + hashed.msg);
      }
      if dbError.Some? {
        return Err("failed to create user: " + dbError.value);
      }
      var row := StoredRow(nextId, user, hashed.value, now);
      rows := rows[nextId := row];
      nextId := nextId + 1;
      r := Ok(Returned(row));
    }
  }
}
