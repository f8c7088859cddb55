/** The two tables (`models.py`) as record types, and the key constraints of
    the `users` table as an invariant over an in-memory table. */
module Models {

  /** A row of `users`. `name` and `email` are non-null; `id` is the
      integer primary key. */
  datatype User = User(id: int, name: string, email: string, isVerified: bool)

  /** A row of `content_history`. The owner is named only by `userEmail`;
      there is no foreign key to `User.id`. `createdAt` is the insertion
      time in seconds. */
  datatype ContentHistory = ContentHistory(
    id: int, userEmail: string, title: string, contentType: string, tone: string,
    audience: string, purpose: string, wordLimit: int, generatedContent: string, createdAt: int)

  /** A new `User` row: `is_verified` takes its column default. */
  function NewUser(id: int, name: string, email: string): (u: User)
    ensures u.id == id && u.name == name && u.email == email && !u.isVerified
  {
    User(id, name, email, false)
  }

  /** The `users` table held as a map keyed by the unique `email` column:
      ids are handed out from 1 upwards, every row is stored under its own
      address, every `id` is below `nextId`, and no two rows share an `id`. */
  ghost predicate UsersTable(users: map<string, User>, nextId: int)
  {
    && 1 <= nextId
    && (forall e :: e in users ==> users[e].email == e && 1 <= users[e].id < nextId)
    && (forall e, f :: e in users && f in users && e != f ==> users[e].id != users[f].id)
  }

  /** Inserting a new address with the next id keeps the table well formed. */
  lemma InsertKeepsTable(users: map<string, User>, nextId: int, name: string, email: string)
    requires UsersTable(users, nextId)
    requires email !in users
    ensures UsersTable(users[email := NewUser(nextId, name, email)], nextId + 1)
  {
    var updated := users[email := NewUser(nextId, name, email)];
    forall e, f | e in updated && f in updated && e != f
      ensures updated[e].id != updated[f].id
    {
      if e == email {
        assert updated[f] == users[f];
      } else if f == email {
        assert updated[e] == users[e];
      }
    }
  }

  /** Changing a row's fields other than `id` and `email` keeps the table well formed. */
  lemma UpdateKeepsTable(users: map<string, User>, nextId: int, email: string, u: User)
    requires UsersTable(users, nextId)
    requires email in users && u.id == users[email].id && u.email == email
    ensures UsersTable(users[email := u], nextId)
  {
  }
}
