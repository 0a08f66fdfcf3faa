/** The user records the authentication routes read and write. The mongoose
    model (models/user.ts) is not part of this model; the routes only use a
    user's id, name, email and stored password, and look users up by email. */
module Users {
  import opened Base

  datatype User = User(id: string, name: string, email: string, password: string)

  /** The user collection, keyed by email: `User.findOne({ email })` is a
      lookup in this map. */
  type Store = map<string, User>

  /** Every user is filed under its own email. */
  predicate WellKeyed(store: Store) {
    forall e :: e in store ==> store[e].email == e
  }

  /** `bcrypt.compare(plain, hashed)`. */
  type Comparer = (string, string) -> bool

  /** `bcrypt.hash(plain, saltRounds)`. */
  type Hasher = (string, int) -> string

  /** The `{ userId: user._id }` payload both routes answer with. */
  datatype UserIdData = UserIdData(userId: string)

  /** `User.findOne({ email })`: the user with that email, if any. */
  function FindByEmail(store: Store, email: string): (u: Option<User>)
    requires WellKeyed(store)
    ensures u.Some? <==> exists e :: e in store && store[e].email == email
    ensures u.Some? ==> u.value in store.Values && u.value.email == email
  {
    if email in store then Some(store[email]) else None
  }
}
