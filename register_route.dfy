/** `POST /api/auth/register` (src/app/api/auth/register/route.ts): creating an account. */
module RegisterRoute {
  import opened Js
  import opened Store

  /** `bcrypt.hash(password, 10)`: a foreign call, taken as a parameter. */
  type Hasher = string -> string

  /** `prisma.user.findUnique({ where: { email } })` finds a user. */
  predicate Registered(users: Table<UserRow>, email: string) {
    exists id | id in users.rows :: users.rows[id].email == email
  }

  /** The 201 response (src/app/api/auth/register/route.ts:29-38). */
  function Account(id: int, u: UserRow): Value {
    Obj(map[
      "id" := Num(id), "email" := Str(u.email), "full_name" := Str(u.fullName),
      "is_active" := Bool(u.isActive), "created_at" := IsoText(u.createdAt)])
  }

  /** The response echoes the email and the full name and carries no credential. */
  lemma AccountShape(id: int, u: UserRow)
    ensures Get(Account(id, u), "email") == Str(u.email) && Get(Account(id, u), "full_name") == Str(u.fullName)
    ensures Account(id, u).Obj? && Account(id, u).fields.Keys == {"id", "email", "full_name", "is_active", "created_at"}
  {
  }

  /** `POST /api/auth/register`. The three fields are checked before the store is consulted; a
      registered email is refused and nothing is written. Otherwise exactly one user is added, with
      `hash(password)` as the stored credential; `now` and `active` are the values the database fills
      in for `createdAt` and `isActive`. Emails stay unique. */
  method Register(db: Db, email: Option<string>, password: Option<string>, fullName: Option<string>,
                  hash: Hasher, now: Instant, active: bool) returns (r: Response)
    requires db.Valid()
    modifies db
    ensures db.Valid()
    ensures !(Given(email) && Given(password) && Given(fullName)) ==>
      r == Detail(400, "Email, password, and full_name are required") && unchanged(db)
    ensures Given(email) && Given(password) && Given(fullName) && Registered(old(db.users), email.value) ==>
      r == Detail(400, "Email already registered") && unchanged(db)
    ensures Given(email) && Given(password) && Given(fullName) && !Registered(old(db.users), email.value) ==>
      var row := UserRow(email.value, hash(password.value), fullName.value, active, now);
      var created := Insert(old(db.users), row);
      && db.users == created.table
      && db.personas == old(db.personas) && db.scripts == old(db.scripts)
      && db.sections == old(db.sections) && db.sessions == old(db.sessions)
      && r == Response(201, Account(created.id, row))
  {
    if !Given(email) || !Given(password) || !Given(fullName) {
      return Detail(400, "Email, password, and full_name are required");
    }
    var existing := Registered(db.users, email.value);
    if existing {
      return Detail(400, "Email already registered");
    }
    var hashedPassword := hash(password.value);
    var row := UserRow(email.value, hashedPassword, fullName.value, active, now);
    var created := Insert(db.users, row);
    db.users := created.table;
    r := Response(201, Account(created.id, row));
  }

  /** After a registration the email is taken, so a second registration with it is refused. */
  lemma RegisteredAfterInsert(users: Table<UserRow>, email: string, hashed: string, fullName: string, active: bool, now: Instant)
    requires TableValid(users)
    ensures Registered(Insert(users, UserRow(email, hashed, fullName, active, now)).table, email)
  {
    var created := Insert(users, UserRow(email, hashed, fullName, active, now));
    assert created.table.rows[created.id].email == email;
  }
}
