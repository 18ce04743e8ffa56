/**
 Accounts and the likes table. `users` enforces unique usernames and unique emails
 (models.py), and `likes` has the pair (user_id, track_id) as its primary key; the
 database rejects a row that breaks either with an IntegrityError. `register`
 checks the email itself before inserting and leaves the username to the database.
 */
module Accounts {
  import opened Base
  import opened Models
  import opened Tables

  /** The user table, by id. */
  type Users = map<nat, User>

  /** No two users share a username or an email. */
  predicate UniqueAccounts(users: Users)
  {
    forall a, b :: a in users && b in users && a != b ==>
      users[a].username != users[b].username && users[a].email != users[b].email
  }

  predicate EmailTaken(users: Users, email: string)
  {
    exists id :: id in users && users[id].email == email
  }

  predicate UsernameTaken(users: Users, username: string)
  {
    exists id :: id in users && users[id].username == username
  }

  datatype RegisterOutcome =
    | EmailAlreadyRegistered   // flash "Email already registered.", form shown again
    | IntegrityError           // the commit breaks the username constraint and raises
    | Registered(id: nat)

  datatype Registration = Registration(outcome: RegisterOutcome, users: Users)

  /**
   The POST branch of `register` for a validated form. `newId` is the id the insert
   is given, `hash` what `set_password` stores. The new user has the column
   defaults: an empty bio and no avatar.
   */
  function Register(users: Users, newId: nat, username: string, email: string, hash: string): (r: Registration)
    requires newId !in users
    ensures r.outcome == EmailAlreadyRegistered <==> EmailTaken(users, email)
    ensures r.outcome == IntegrityError <==> !EmailTaken(users, email) && UsernameTaken(users, username)
    ensures !r.outcome.Registered? ==> r.users == users
    ensures r.outcome.Registered? ==>
      && r.outcome.id == newId
      && r.users == users[newId := User(username, email, hash, "", None, None)]
  {
    if EmailTaken(users, email) then Registration(EmailAlreadyRegistered, users)
    else if UsernameTaken(users, username) then Registration(IntegrityError, users)
    else Registration(Registered(newId), users[newId := User(username, email, hash, "", None, None)])
  }

  /** Registration keeps usernames and emails unique. */
  lemma RegisterPreservesUnique(users: Users, newId: nat, username: string, email: string, hash: string)
    requires newId !in users && UniqueAccounts(users)
    ensures UniqueAccounts(Register(users, newId, username, email, hash).users)
  {
    var r := Register(users, newId, username, email, hash);
    if r.outcome.Registered? {
      forall a, b | a in r.users && b in r.users && a != b
        ensures r.users[a].username != r.users[b].username && r.users[a].email != r.users[b].email
      {
        if a == newId {
          assert r.users[b] == users[b];
        } else if b == newId {
          assert r.users[a] == users[a];
        }
      }
    }
  }

  /** With a registered email, registering again creates nobody, whatever the username. */
  lemma RegisterWithTakenEmailCreatesNoUser(users: Users, newId: nat, username: string, email: string, hash: string)
    requires newId !in users
    requires exists id :: id in users && users[id].email == email
    ensures Register(users, newId, username, email, hash) == Registration(EmailAlreadyRegistered, users)
  {
  }

  /** A row of `likes` is inserted unless its primary key is already there. */
  datatype LikeInsert = LikeInsert(inserted: bool, rows: seq<LikeRow>)

  /** An insert into `likes`: a duplicate key raises an IntegrityError and changes nothing. */
  function InsertLike(rows: seq<LikeRow>, row: LikeRow): (r: LikeInsert)
    ensures r.inserted <==> row !in rows
    ensures r.inserted ==> r.rows == rows + [row]
    ensures !r.inserted ==> r.rows == rows
    ensures row in r.rows
  {
    if row in rows then LikeInsert(false, rows) else LikeInsert(true, rows + [row])
  }

  /** The primary key keeps each pair to one row, however many inserts are attempted. */
  lemma {:induction false} LikesStayKeyed(rows: seq<LikeRow>, attempts: seq<LikeRow>)
    requires NoDuplicates(rows)
    ensures NoDuplicates(InsertAll(rows, attempts))
    decreases |attempts|
  {
    if |attempts| > 0 {
      var r := InsertLike(rows, attempts[0]).rows;
      if attempts[0] !in rows {
        AppendFresh(rows, attempts[0]);
      }
      LikesStayKeyed(r, attempts[1..]);
    }
  }

  /** The table after attempting each insert in turn. */
  function InsertAll(rows: seq<LikeRow>, attempts: seq<LikeRow>): seq<LikeRow>
    decreases |attempts|
  {
    if |attempts| == 0 then rows else InsertAll(InsertLike(rows, attempts[0]).rows, attempts[1..])
  }
}
