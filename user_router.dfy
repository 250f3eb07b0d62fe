/**
 * `PUT /profile`: overwrite the supplied profile fields of the
 * authenticated user. The id comes from the session middleware, which is
 * not part of this model.
 */
module UserRouter {
  import opened Wrappers
  import opened Zod
  import opened UserTypes
  import opened ErrorHandler
  import opened Database
  import opened Response

  /** The row after `prisma.user.update` with the update's data: present fields replace, absent ones stay. */
  function ApplyUpdate(u: User, d: UserUpdate): (r: User)
    ensures r.id == u.id && r.email == u.email && r.password == u.password
    ensures r.role == u.role && r.createdAt == u.createdAt
    ensures r.name == (if d.name.Some? then d.name.value else u.name)
    ensures r.contact == (if d.contact.Some? then d.contact.value else u.contact)
    ensures r.bio == (if d.bio.Some? then d.bio.value else u.bio)
    ensures r.availabilityTime == (if d.availabilityTime.Some? then d.availabilityTime.value else u.availabilityTime)
  {
    u.(name := if d.name.Some? then d.name.value else u.name,
       contact := if d.contact.Some? then d.contact.value else u.contact,
       bio := if d.bio.Some? then d.bio.value else u.bio,
       availabilityTime := if d.availabilityTime.Some? then d.availabilityTime.value else u.availabilityTime)
  }

  /** The user table after updating the row whose id is `id`; every other row is left as it was. */
  function UpdateRows(users: seq<User>, id: int, d: UserUpdate): (r: seq<User>)
    ensures |r| == |users|
    ensures forall i :: 0 <= i < |users| && users[i].id != id ==> r[i] == users[i]
    ensures forall i :: 0 <= i < |users| && users[i].id == id ==> r[i] == ApplyUpdate(users[i], d)
  {
    seq(|users|, i requires 0 <= i < |users| => if users[i].id == id then ApplyUpdate(users[i], d) else users[i])
  }

  /** Applying the same update twice leaves the row as applying it once. */
  lemma ApplyUpdateIdempotent(u: User, d: UserUpdate)
    ensures ApplyUpdate(ApplyUpdate(u, d), d) == ApplyUpdate(u, d)
  {
  }

  /** Applying the same update twice leaves the table as applying it once. */
  lemma UpdateRowsIdempotent(users: seq<User>, id: int, d: UserUpdate)
    ensures UpdateRows(UpdateRows(users, id, d), id, d) == UpdateRows(users, id, d)
  {
    var once := UpdateRows(users, id, d);
    var twice := UpdateRows(once, id, d);
    forall i | 0 <= i < |users|
      ensures twice[i] == once[i]
    {
      ApplyUpdateIdempotent(users[i], d);
    }
  }

  /** An update keeps every id where it was, so the same ids resolve before and after. */
  lemma FindUserByIdAfterUpdate(users: seq<User>, id: int, d: UserUpdate, x: int)
    ensures FindUserById(UpdateRows(users, id, d), x).Some? == FindUserById(users, x).Some?
  {
    var r := UpdateRows(users, id, d);
    if FindUserById(users, x).Some? {
      var k :| 0 <= k < |users| && users[k] == FindUserById(users, x).value;
      assert r[k] in r && r[k].id == x;
    }
    if FindUserById(r, x).Some? {
      var k :| 0 <= k < |r| && r[k] == FindUserById(r, x).value;
      assert users[k] in users && users[k].id == x;
    }
  }

  /** An update keeps ids and emails unique and every notification link resolving. */
  lemma UpdateRowsKeepsValid(users: seq<User>, notifications: seq<Notification>, id: int, d: UserUpdate)
    requires UniqueIds(users) && UniqueEmails(users) && Linked(users, notifications)
    ensures var r := UpdateRows(users, id, d);
      UniqueIds(r) && UniqueEmails(r) && Linked(r, notifications)
  {
    forall n | n in notifications
      ensures FindUserById(UpdateRows(users, id, d), n.senderId).Some?
    {
      FindUserByIdAfterUpdate(users, id, d, n.senderId);
    }
    forall n, x | n in notifications && x in n.receiverIds
      ensures FindUserById(UpdateRows(users, id, d), x).Some?
    {
      FindUserByIdAfterUpdate(users, id, d, x);
    }
  }

  /** `PUT /profile` for the user whose id the session carries. */
  method UpdateProfile(store: Store, body: Json, authenticatedId: int) returns (out: Outcome)
    requires store.Valid()
    modifies store
    ensures store.Valid()
    ensures ParseUpdate(body).None? ==>
      out == Forwarded(ZodErr(ZodError(UserUpdateSchema, body))) && unchanged(store)
    ensures ParseUpdate(body).Some? && FindUserById(old(store.users), authenticatedId).None? ==>
      out == Forwarded(CreateError("User not found", Some(404))) && unchanged(store)
    ensures var p := ParseUpdate(body);
      p.Some? && FindUserById(old(store.users), authenticatedId).Some? ==>
        var updated := ApplyUpdate(FindUserById(old(store.users), authenticatedId).value, p.value);
        && store.users == UpdateRows(old(store.users), authenticatedId, p.value)
        && store.notifications == old(store.notifications)
        && updated in store.users
        && out == Sent(200, UserUpdated("User updated successfully", updated), [])
  {
    var parsed := ParseUpdate(body);
    if parsed.None? {
      return Forwarded(ZodErr(ZodError(UserUpdateSchema, body)));
    }
    var userExists := FindUserById(store.users, authenticatedId);
    if userExists.None? {
      return Forwarded(CreateError("User not found", Some(404)));
    }
    var u := userExists.value;
    ghost var k :| 0 <= k < |store.users| && store.users[k] == u;
    UpdateRowsKeepsValid(store.users, store.notifications, u.id, parsed.value);
    store.users := UpdateRows(store.users, u.id, parsed.value);
    var updatedUser := ApplyUpdate(u, parsed.value);
    assert store.users[k] == updatedUser;
    out := Sent(200, UserUpdated("User updated successfully", updatedUser), []);
  }
}
