/** The server's in-memory user registry (`server/src/models/user.ts`): an
    array that only ever grows, searched front to back. */
module Users {
  import opened Common

  /** A registered account; `password` holds whatever the caller stored (the signup route stores a hash). */
  datatype User = User(id: string, email: string, password: string, name: string, createdAt: nat)

  type Registry = seq<User>

  /** `userModel.create(user)`: appends the user and hands it back unchanged. */
  function Create(registry: Registry, user: User): (r: (Registry, User))
    ensures r.0 == registry + [user] && r.1 == user
  {
    (registry + [user], user)
  }

  /** `userModel.findByEmail(email)`: the earliest user with that address. */
  function FindByEmail(registry: Registry, email: string): (r: Option<User>)
    ensures r.Some? ==> r.value in registry && r.value.email == email
    ensures r.Some? ==>
      exists k :: 0 <= k < |registry| && registry[k] == r.value && forall j :: 0 <= j < k ==> registry[j].email != email
    ensures r.None? <==> forall j :: 0 <= j < |registry| ==> registry[j].email != email
  {
    match FindFirst((u: User) => u.email == email, registry)
    case None => None
    case Some(k) => Some(registry[k])
  }

  /** `userModel.findById(id)`: the earliest user with that id. */
  function FindById(registry: Registry, id: string): (r: Option<User>)
    ensures r.Some? ==> r.value in registry && r.value.id == id
    ensures r.Some? ==>
      exists k :: 0 <= k < |registry| && registry[k] == r.value && forall j :: 0 <= j < k ==> registry[j].id != id
    ensures r.None? <==> forall j :: 0 <= j < |registry| ==> registry[j].id != id
  {
    match FindFirst((u: User) => u.id == id, registry)
    case None => None
    case Some(k) => Some(registry[k])
  }

  /** Creating a user never changes what an earlier lookup found, and makes
      a new address findable as the user just created. */
  lemma CreateThenFind(registry: Registry, user: User, email: string)
    ensures var (after, _) := Create(registry, user);
      && (FindByEmail(registry, email).Some? ==> FindByEmail(after, email) == FindByEmail(registry, email))
      && (FindByEmail(registry, user.email).None? ==> FindByEmail(after, user.email) == Some(user))
  {
    var after := registry + [user];
    if FindFirst((u: User) => u.email == email, registry).Some? {
      FindFirstAppend((u: User) => u.email == email, registry, [user]);
    }
    if FindByEmail(registry, user.email).None? {
      assert after[|registry|] == user;
      assert forall j :: 0 <= j < |registry| ==> after[j] == registry[j];
    }
  }

  /** Creating a user never changes what an earlier lookup by id found, and
      makes a new id findable as the user just created. */
  lemma CreateThenFindById(registry: Registry, user: User, id: string)
    ensures var (after, _) := Create(registry, user);
      && (FindById(registry, id).Some? ==> FindById(after, id) == FindById(registry, id))
      && (FindById(registry, user.id).None? ==> FindById(after, user.id) == Some(user))
  {
    var after := registry + [user];
    if FindFirst((u: User) => u.id == id, registry).Some? {
      FindFirstAppend((u: User) => u.id == id, registry, [user]);
    }
    if FindById(registry, user.id).None? {
      assert after[|registry|] == user;
      assert forall j :: 0 <= j < |registry| ==> after[j] == registry[j];
    }
  }

  /** The registry is append-only: after any run of creations every earlier
      user is still at the position it had. */
  function CreateAll(registry: Registry, users: seq<User>): (r: Registry)
    ensures |r| == |registry| + |users|
    ensures r[..|registry|] == registry
    decreases |users|
  {
    if users == [] then registry else CreateAll(Create(registry, users[0]).0, users[1..])
  }

  lemma {:induction false} CreateAllKeepsEarlier(registry: Registry, users: seq<User>, k: nat)
    requires k < |registry|
    ensures CreateAll(registry, users)[k] == registry[k]
    decreases |users|
  {
    if users != [] {
      CreateAllKeepsEarlier(registry + [users[0]], users[1..], k);
    }
  }
}
