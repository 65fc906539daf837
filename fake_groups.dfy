/** `FakeGroupsRepository`: the in-memory groups repository, a dictionary from id to group. */
module FakeGroups {
  import opened Errors
  import opened Models
  import Stores

  /** The condition both owner lookups of the fake test as written: it compares the
      group's `id`, not its `owner_id`, with the owner id it is given. */
  function IdAndName(name: string, ownerId: int): Group -> bool
  {
    (g: Group) => g.id == ownerId && g.name == name
  }

  /** `[group for group in self.groups.values() if group.id == owner_id]`, as written. */
  function GroupsWithId(vs: seq<Group>, ownerId: int): (r: seq<Group>)
    ensures forall g :: g in r <==> g in vs && g.id == ownerId
    ensures |r| <= |vs|
    decreases |vs|
  {
    if vs == [] then []
    else (if vs[0].id == ownerId then [vs[0]] else []) + GroupsWithId(vs[1..], ownerId)
  }

  /** The owner-and-name test the SQL repository makes, and the one the fake's methods
      use here: the group's owner is the given user and its name matches. */
  function OwnerAndName(name: string, ownerId: int): Group -> bool
  {
    (g: Group) => g.ownerId == Some(ownerId) && g.name == name
  }

  /** The groups owned by `ownerId`, in the order given. */
  function GroupsOwnedBy(vs: seq<Group>, ownerId: int): (r: seq<Group>)
    ensures forall g :: g in r <==> g in vs && g.ownerId == Some(ownerId)
    ensures |r| <= |vs|
    decreases |vs|
  {
    if vs == [] then []
    else (if vs[0].ownerId == Some(ownerId) then [vs[0]] else []) + GroupsOwnedBy(vs[1..], ownerId)
  }

  class FakeGroupsRepository {
    var order: seq<int>
    var groups: map<int, Group>

    ghost function Abs(): Stores.Store<Group>
      reads this
    {
      Stores.Store(order, groups)
    }

    ghost predicate Valid()
      reads this
    {
      Stores.Valid(Abs())
    }

    /** `groups if groups else {}`: the given dictionary, in its own order. */
    constructor (initial: Stores.Store<Group>)
      requires Stores.Valid(initial)
      ensures Valid() && Abs() == initial
    {
      order := initial.order;
      groups := initial.entries;
    }

    method Get(id: int) returns (r: Option<Group>)
      ensures r.Some? <==> id in groups
      ensures r.Some? ==> r.value == groups[id]
      ensures r == Stores.Get(Abs(), id)
    {
      if id in groups {
        r := Some(groups[id]);
      } else {
        r := None;
      }
    }

    /** The owner's groups, with the owner compared as `owner_id`. */
    method GetOwnerGroups(ownerId: int) returns (r: seq<Group>)
      ensures r == GroupsOwnedBy(Stores.Values(Abs()), ownerId)
    {
      r := GroupsOwnedBy(Stores.ValuesOf(order, groups), ownerId);
    }

    /** The loop over `self.groups.values()` with an early return, with the owner
        compared as `owner_id`. */
    method GetByOwnerAndName(name: string, ownerId: int) returns (r: Option<Group>)
      requires Valid()
      ensures r == Stores.First(Stores.Values(Abs()), OwnerAndName(name, ownerId))
      ensures r.Some? ==> r.value in groups.Values && r.value.ownerId == Some(ownerId) && r.value.name == name
    {
      var i := 0;
      while i < |order|
        invariant 0 <= i <= |order|
        invariant Stores.First(Stores.ValuesOf(order[i..], groups), OwnerAndName(name, ownerId))
               == Stores.First(Stores.ValuesOf(order, groups), OwnerAndName(name, ownerId))
      {
        var group := groups[order[i]];
        Stores.ValuesOfStep(order, groups, i);
        if group.ownerId == Some(ownerId) && group.name == name {
          return Some(group);
        }
        i := i + 1;
      }
      assert order[i..] == [];
      r := None;
    }

    /** Stores the group under its own id, overwriting any entry there, and returns it. */
    method Add(model: Group) returns (r: Group)
      requires Valid()
      modifies this
      ensures Abs() == Stores.Put(old(Abs()), model.id, model)
      ensures Valid()
      ensures r == model
    {
      if model.id !in groups {
        order := order + [model.id];
      }
      groups := groups[model.id := model];
      r := model;
    }

    /** Replaces the entry only when the id is present; returns the new group either way. */
    method Update(id: int, model: Group) returns (r: Group)
      requires Valid()
      modifies this
      ensures Valid()
      ensures id in old(groups) ==> Abs() == Stores.Put(old(Abs()), id, model)
      ensures id !in old(groups) ==> Abs() == old(Abs())
      ensures r == model
    {
      if id in groups {
        groups := groups[id := model];
      }
      r := model;
    }

    method Delete(id: int)
      requires Valid()
      modifies this
      ensures Valid()
      ensures Abs() == Stores.Remove(old(Abs()), id)
    {
      Stores.RemoveKeepsValid(Abs(), id);
      if id in groups {
        order := Stores.RemoveKey(order, id);
        groups := groups - {id};
      }
    }

    method List() returns (r: seq<Group>)
      requires Valid()
      ensures r == Stores.Values(Abs())
      ensures |r| == |groups|
    {
      r := Stores.ValuesOf(order, groups);
      Stores.ValuesLength(Abs());
    }
  }

  /** The fake's owner lookup as written misses a group whose owner differs from its
      id: group 1 owned by user 2 is not found for owner 2, and is found for "owner" 1.
      The owner comparison finds it for owner 2 only. */
  lemma OwnerLookupComparesId()
    ensures var g := Group("friends", Some(2), 1, {});
            Stores.First([g], IdAndName("friends", 2)).None? &&
            Stores.First([g], IdAndName("friends", 1)) == Some(g) &&
            GroupsWithId([g], 2) == [] &&
            Stores.First([g], OwnerAndName("friends", 2)) == Some(g) &&
            Stores.First([g], OwnerAndName("friends", 1)).None? &&
            GroupsOwnedBy([g], 2) == [g]
  {
    var g := Group("friends", Some(2), 1, {});
    assert !IdAndName("friends", 2)(g);
    assert IdAndName("friends", 1)(g);
    assert OwnerAndName("friends", 2)(g);
    assert !OwnerAndName("friends", 1)(g);
  }
}
