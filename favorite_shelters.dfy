/**
 * The list of favourite shelter ids kept in the user's preferences. The
 * preference store is a field holding the stored list, `None` while
 * nothing has been stored under the key.
 */
module FavoriteShelters {
  import opened Wrappers
  import opened Shelters

  predicate NoDuplicates(ids: seq<string>) {
    forall i, j :: 0 <= i < j < |ids| ==> ids[i] != ids[j]
  }

  /** `removeAll(where: { $0 == id })`: the other ids, in order. */
  function Without(ids: seq<string>, id: string): (r: seq<string>)
    ensures forall x :: multiset(r)[x] == if x == id then 0 else multiset(ids)[x]
  {
    if ids == [] then []
    else
      assert ids == [ids[0]] + ids[1..];
      (if ids[0] == id then [] else [ids[0]]) + Without(ids[1..], id)
  }

  /** The list `addFavorite` leaves: the id appended when absent. */
  function Added(ids: seq<string>, id: string): (r: seq<string>)
    ensures ids <= r
    ensures forall x :: x in r <==> x in ids || x == id
  {
    if id in ids then ids else ids + [id]
  }

  /** The list `toggleFavorite` leaves. */
  function Toggled(ids: seq<string>, id: string): (r: seq<string>)
    ensures id in r <==> id !in ids
  {
    WithoutMembership(ids, id);
    if id in ids then Without(ids, id) else Added(ids, id)
  }

  /** Membership after a removal: every id but the removed one stays. */
  lemma {:induction false} WithoutMembership(ids: seq<string>, id: string)
    ensures forall x :: x in Without(ids, id) <==> x in ids && x != id
  {
    forall x
      ensures x in Without(ids, id) <==> x in ids && x != id
    {
      assert x in Without(ids, id) <==> multiset(Without(ids, id))[x] > 0;
      assert x in ids <==> multiset(ids)[x] > 0;
    }
  }

  /** Removal works element by element, so the ids that stay keep their
      order: removing from a concatenation removes from each part. */
  lemma {:induction false} WithoutAppend(a: seq<string>, b: seq<string>, id: string)
    ensures Without(a + b, id) == Without(a, id) + Without(b, id)
    decreases |a|
  {
    if a == [] {
      assert a + b == b;
    } else {
      assert (a + b)[1..] == a[1..] + b;
      WithoutAppend(a[1..], b, id);
    }
  }

  /** Adding never creates a duplicate. */
  lemma {:induction false} AddedKeepsNoDuplicates(ids: seq<string>, id: string)
    requires NoDuplicates(ids)
    ensures NoDuplicates(Added(ids, id))
    ensures forall x :: x in Added(ids, id) <==> x in ids || x == id
  {
  }

  /** Removing never creates a duplicate. */
  lemma {:induction false} WithoutKeepsNoDuplicates(ids: seq<string>, id: string)
    requires NoDuplicates(ids)
    ensures NoDuplicates(Without(ids, id))
  {
    if ids != [] {
      WithoutKeepsNoDuplicates(ids[1..], id);
      WithoutMembership(ids[1..], id);
      assert ids[0] !in ids[1..];
    }
  }

  /** Toggling twice restores whether the id is a favourite, and never
      changes whether any other id is. */
  lemma {:induction false} ToggleTwiceRestoresMembership(ids: seq<string>, id: string)
    ensures forall x :: x in Toggled(Toggled(ids, id), id) <==> x in ids
  {
    WithoutMembership(ids, id);
    WithoutMembership(ids + [id], id);
  }

  class FavoriteSheltersManager {
    /** The value stored under "favoriteShelters", if any. */
    var stored: Option<seq<string>>

    constructor(initial: Option<seq<string>>)
      ensures stored == initial
    {
      stored := initial;
    }

    /** `getFavorites()`: the stored list, or [] when nothing is stored. */
    function GetFavorites(): (ids: seq<string>)
      reads this
      ensures stored.None? ==> ids == []
      ensures stored.Some? ==> ids == stored.value
    {
      stored.GetOr([])
    }

    /** Append the shelter's id when it is absent; write nothing otherwise. */
    method AddFavorite(shelter: Shelter)
      modifies this
      ensures shelter.id in old(GetFavorites()) ==> stored == old(stored)
      ensures shelter.id !in old(GetFavorites()) ==> stored == Some(old(GetFavorites()) + [shelter.id])
      ensures GetFavorites() == Added(old(GetFavorites()), shelter.id)
    {
      var favorites := GetFavorites();
      var shelterId := shelter.id;
      if shelterId !in favorites {
        favorites := favorites + [shelterId];
        stored := Some(favorites);
      }
    }

    /** Drop every occurrence of the shelter's id and write the list back. */
    method RemoveFavorite(shelter: Shelter)
      modifies this
      ensures stored == Some(Without(old(GetFavorites()), shelter.id))
    {
      var favorites := GetFavorites();
      favorites := Without(favorites, shelter.id);
      stored := Some(favorites);
    }

    /** `isFavorite(shelter:)`. */
    function IsFavorite(shelter: Shelter): (b: bool)
      reads this
      ensures b <==> shelter.id in GetFavorites()
    {
      shelter.id in GetFavorites()
    }

    /** Remove a favourite or add a new one; returns whether it is now a
        favourite. */
    method ToggleFavorite(shelter: Shelter) returns (now: bool)
      modifies this
      ensures now == !old(IsFavorite(shelter))
      ensures now == IsFavorite(shelter)
      ensures GetFavorites() == Toggled(old(GetFavorites()), shelter.id)
    {
      if IsFavorite(shelter) {
        RemoveFavorite(shelter);
        WithoutMembership(old(GetFavorites()), shelter.id);
        return false;
      } else {
        AddFavorite(shelter);
        return true;
      }
    }
  }
}
