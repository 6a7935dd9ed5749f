/**
 * Account registration: the request's fields are checked in a fixed order
 * (presence, password length, email uniqueness) and only a request that
 * passes all three inserts a user.
 *
 * The users table is a class holding the rows; the id the database
 * generates and the bcrypt hash (salted at random) are parameters.
 */
module Register {
  import opened Wrappers

  const MinPasswordLength := 8

  /** A row of the users table, as far as registration writes it. */
  datatype User = User(id: string, name: Option<string>, email: string, passwordHash: string)

  /** The JSON reply: an error message, or the new user's id. */
  datatype Body = Error(message: string) | Created(id: string)

  datatype Reply = Reply(status: nat, body: Body)

  /** `!value` for an optional string: missing and `""` are both falsy. */
  predicate Blank(value: Option<string>) {
    value.None? || value.value == ""
  }

  predicate EmailTaken(users: seq<User>, email: string) {
    exists i :: 0 <= i < |users| && users[i].email == email
  }

  /** No two rows share an email. */
  predicate UniqueEmails(users: seq<User>) {
    forall i, j :: 0 <= i < j < |users| ==> users[i].email != users[j].email
  }

  /**
   * The verdict on a request before anything is written: `None` when the
   * request may insert, otherwise the error reply, the first failing check
   * deciding.
   */
  function Rejection(users: seq<User>, email: Option<string>, password: Option<string>): (r: Option<Reply>)
    ensures (Blank(email) || Blank(password)) ==> r == Some(Reply(400, Error("Email and password are required")))
    ensures !Blank(email) && !Blank(password) && |password.value| < MinPasswordLength ==>
      r == Some(Reply(400, Error("Password must be at least 8 characters")))
    ensures r.None? <==> !Blank(email) && !Blank(password) && |password.value| >= MinPasswordLength && !EmailTaken(users, email.value)
    ensures r.Some? && r.value.status == 409 <==>
      !Blank(email) && !Blank(password) && |password.value| >= MinPasswordLength && EmailTaken(users, email.value)
  {
    if Blank(email) || Blank(password) then Some(Reply(400, Error("Email and password are required")))
    else if |password.value| < MinPasswordLength then Some(Reply(400, Error("Password must be at least 8 characters")))
    else if EmailTaken(users, email.value) then Some(Reply(409, Error("An account with this email already exists")))
    else None
  }

  class UserTable {
    var users: seq<User>

    constructor()
      ensures users == []
    {
      users := [];
    }

    /**
     * `POST /api/auth/register`.  `newId` is the id the insert returns and
     * `passwordHash` the bcrypt hash of the password.
     */
    method Register(name: Option<string>, email: Option<string>, password: Option<string>,
                    newId: string, passwordHash: string) returns (reply: Reply)
      modifies this
      ensures Rejection(old(users), email, password).Some? ==>
        reply == Rejection(old(users), email, password).value && users == old(users)
      ensures Rejection(old(users), email, password).None? ==>
        && reply == Reply(201, Created(newId))
        && users == old(users) + [User(newId, if Blank(name) then None else name, email.value, passwordHash)]
      ensures UniqueEmails(old(users)) ==> UniqueEmails(users)
    {
      if email.None? || email.value == "" || password.None? || password.value == "" {
        return Reply(400, Error("Email and password are required"));
      }
      if |password.value| < MinPasswordLength {
        return Reply(400, Error("Password must be at least 8 characters"));
      }
      if EmailTaken(users, email.value) {
        return Reply(409, Error("An account with this email already exists"));
      }
      users := users + [User(newId, if name.None? || name.value == "" then None else name, email.value, passwordHash)];
      return Reply(201, Created(newId));
    }
  }

  /** Registering twice with the same email: the second attempt is refused with 409 and inserts nothing. */
  lemma SecondRegistrationConflicts(users: seq<User>, name: Option<string>, email: string, password: string,
                                    newId: string, passwordHash: string)
    requires Rejection(users, Some(email), Some(password)).None?
    ensures Rejection(users + [User(newId, name, email, passwordHash)], Some(email), Some(password))
         == Some(Reply(409, Error("An account with this email already exists")))
  {
    var after := users + [User(newId, name, email, passwordHash)];
    assert after[|users|].email == email;
  }
}
