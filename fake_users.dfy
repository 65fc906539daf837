/** `FakeUsersRepository`: the in-memory users repository, a dictionary from id to user. */
module FakeUsers {
  import opened Errors
  import opened Models
  import Stores

  function HasEmail(email: string): User -> bool
  {
    (u: User) => u.email == email
  }

  function HasUsername(username: string): User -> bool
  {
    (u: User) => u.username == username
  }

  class FakeUsersRepository {
    var order: seq<int>
    var users: map<int, User>

    ghost function Abs(): Stores.Store<User>
      reads this
    {
      Stores.Store(order, users)
    }

    ghost predicate Valid()
      reads this
    {
      Stores.Valid(Abs())
    }

    /** `users if users else {}`. */
    constructor (initial: Stores.Store<User>)
      requires Stores.Valid(initial)
      ensures Valid() && Abs() == initial
    {
      order := initial.order;
      users := initial.entries;
    }

    /** `self.users.get(id)`. */
    method Get(id: int) returns (r: Option<User>)
      ensures r.Some? <==> id in users
      ensures r.Some? ==> r.value == users[id]
      ensures r == Stores.Get(Abs(), id)
    {
      if id in users {
        r := Some(users[id]);
      } else {
        r := None;
      }
    }

    /** The first stored user, in insertion order, with that email. */
    method GetByEmail(email: string) returns (r: Option<User>)
      requires Valid()
      ensures r == Stores.First(Stores.Values(Abs()), HasEmail(email))
      ensures r.Some? ==> r.value in users.Values && r.value.email == email
    {
      var i := 0;
      while i < |order|
        invariant 0 <= i <= |order|
        invariant Stores.First(Stores.ValuesOf(order[i..], users), HasEmail(email))
               == Stores.First(Stores.ValuesOf(order, users), HasEmail(email))
      {
        var user := users[order[i]];
        Stores.ValuesOfStep(order, users, i);
        if user.email == email {
          return Some(user);
        }
        i := i + 1;
      }
      assert order[i..] == [];
      r := None;
    }

    /** The first stored user, in insertion order, with that username. */
    method GetByUsername(username: string) returns (r: Option<User>)
      requires Valid()
      ensures r == Stores.First(Stores.Values(Abs()), HasUsername(username))
      ensures r.Some? ==> r.value in users.Values && r.value.username == username
    {
      var i := 0;
      while i < |order|
        invariant 0 <= i <= |order|
        invariant Stores.First(Stores.ValuesOf(order[i..], users), HasUsername(username))
               == Stores.First(Stores.ValuesOf(order, users), HasUsername(username))
      {
        var user := users[order[i]];
        Stores.ValuesOfStep(order, users, i);
        if user.username == username {
          return Some(user);
        }
        i := i + 1;
      }
      assert order[i..] == [];
      r := None;
    }

    /** Stores the model under its id, overwriting any entry there; nothing is returned
        and neither the email nor the username is checked for uniqueness. */
    method Add(model: User)
      requires Valid()
      modifies this
      ensures Abs() == Stores.Put(old(Abs()), model.id, model)
      ensures Valid()
    {
      if model.id !in users {
        order := order + [model.id];
      }
      users := users[model.id := model];
    }

    /** Replaces the entry only when the id is present. */
    method Update(id: int, model: User)
      requires Valid()
      modifies this
      ensures Valid()
      ensures id in old(users) ==> Abs() == Stores.Put(old(Abs()), id, model)
      ensures id !in old(users) ==> Abs() == old(Abs())
    {
      if id in users {
        users := users[id := model];
      }
    }

    method Delete(id: int)
      requires Valid()
      modifies this
      ensures Valid()
      ensures Abs() == Stores.Remove(old(Abs()), id)
    {
      Stores.RemoveKeepsValid(Abs(), id);
      if id in users {
        order := Stores.RemoveKey(order, id);
        users := users - {id};
      }
    }

    method List() returns (r: seq<User>)
      requires Valid()
      ensures r == Stores.Values(Abs())
      ensures |r| == |users|
    {
      r := Stores.ValuesOf(order, users);
      Stores.ValuesLength(Abs());
    }
  }

  /** The fake does not enforce the unique email that the SQL table declares: two users
      with one email can both be stored, and the lookup returns the earlier one. */
  lemma DuplicateEmailsAreStored(a: User, b: User)
    requires a.id != b.id && a.email == b.email
    ensures var s := Stores.Put(Stores.Put(Stores.Empty(), a.id, a), b.id, b);
            |Stores.Values(s)| == 2 && Stores.First(Stores.Values(s), HasEmail(a.email)) == Some(a)
  {
    var s1 := Stores.Put(Stores.Empty(), a.id, a);
    Stores.PutNewKeyAppends(Stores.Empty(), a.id, a);
    Stores.PutNewKeyAppends(s1, b.id, b);
    assert Stores.Values(s1) == [a];
    assert HasEmail(a.email)(a);
  }
}
