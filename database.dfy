/**
 * The user and notification tables the routers read and write through
 * Prisma, kept in memory. Row ids and creation times are supplied by the
 * caller of each operation.
 */
module Database {
  import opened Wrappers

  type Role = string

  /** The role a newly created user receives from the table's default. */
  const DEFAULT_ROLE: Role := "USER"

  /** A user row; `password` holds the bcrypt hash. */
  datatype User = User(
    id: int,
    name: string,
    contact: string,
    bio: string,
    email: string,
    password: string,
    availabilityTime: seq<string>,
    role: Role,
    createdAt: int)

  /** A notification row with its many-to-many receiver links. */
  datatype Notification = Notification(
    id: int,
    message: string,
    senderId: int,
    receiverIds: set<int>,
    createdAt: int)

  /** `prisma.user.findUnique({where: {email}})` */
  function FindUserByEmail(users: seq<User>, email: string): (r: Option<User>)
    ensures r.Some? ==> r.value in users && r.value.email == email
    ensures r.None? <==> forall u :: u in users ==> u.email != email
  {
    if users == [] then None
    else if users[0].email == email then Some(users[0])
    else FindUserByEmail(users[1..], email)
  }

  /** `prisma.user.findUnique({where: {id}})` */
  function FindUserById(users: seq<User>, id: int): (r: Option<User>)
    ensures r.Some? ==> r.value in users && r.value.id == id
    ensures r.None? <==> forall u :: u in users ==> u.id != id
  {
    if users == [] then None
    else if users[0].id == id then Some(users[0])
    else FindUserById(users[1..], id)
  }

  /** `id` is the primary key of the user table. */
  ghost predicate UniqueIds(users: seq<User>)
  {
    forall i, j :: 0 <= i < j < |users| ==> users[i].id != users[j].id
  }

  /** `email` is a unique column of the user table. */
  ghost predicate UniqueEmails(users: seq<User>)
  {
    forall i, j :: 0 <= i < j < |users| ==> users[i].email != users[j].email
  }

  /** Every sender and receiver link names a stored user, and notification ids are unique. */
  ghost predicate Linked(users: seq<User>, notifications: seq<Notification>)
  {
    && (forall n :: n in notifications ==> FindUserById(users, n.senderId).Some?)
    && (forall n, id :: n in notifications && id in n.receiverIds ==> FindUserById(users, id).Some?)
    && (forall i, j :: 0 <= i < j < |notifications| ==> notifications[i].id != notifications[j].id)
  }

  /** On a table with unique emails, the lookup by email finds the one user that has it. */
  lemma {:induction false} FindUserByEmailUnique(users: seq<User>, u: User)
    requires UniqueEmails(users) && u in users
    ensures FindUserByEmail(users, u.email) == Some(u)
  {
    if users[0] != u {
      assert u in users[1..];
      assert UniqueEmails(users[1..]) by {
        forall i, j | 0 <= i < j < |users[1..]|
          ensures users[1..][i].email != users[1..][j].email
        {
          assert users[1..][i] == users[i + 1] && users[1..][j] == users[j + 1];
        }
      }
      FindUserByEmailUnique(users[1..], u);
      var k :| 0 <= k < |users| && users[k] == u;
      assert k > 0;
      assert users[0].email != u.email;
    }
  }

  /** The tables behind the Prisma client. */
  class Store {
    var users: seq<User>
    var notifications: seq<Notification>

    ghost predicate Valid()
      reads this
    {
      UniqueIds(users) && UniqueEmails(users) && Linked(users, notifications)
    }

    constructor ()
      ensures Valid() && users == [] && notifications == []
    {
      users := [];
      notifications := [];
    }
  }
}
