/** The per-user wishlist kept in the browser's storage
    (`src/lib/wishlist.ts`). Storage is a map from keys to stored values; a
    value that does not parse back is `Unparsable`. Serialising a list and
    parsing it back is taken to give the same list. */
module Wishlist {
  import opened Common

  datatype WishlistType = ProductEntry | ServiceEntry

  datatype WishlistItem = WishlistItem(id: string, kind: WishlistType, name: string, image: string, price: Option<int>)

  /** A stored value: a list that parses back, or text that does not. */
  datatype Slot = Stored(items: seq<WishlistItem>) | Unparsable

  type Storage = map<string, Slot>

  const KeyPrefix := "aa_wishlist_"

  /** `keyFor(email)`. */
  function KeyFor(email: string): (r: string)
    ensures |r| == |KeyPrefix| + |email| && r[..|KeyPrefix|] == KeyPrefix && r[|KeyPrefix|..] == email
  {
    KeyPrefix + email
  }

  /** Different users never share a key. */
  lemma KeyForInjective(a: string, b: string)
    requires KeyFor(a) == KeyFor(b)
    ensures a == b
  {
    assert a == KeyFor(a)[|KeyPrefix|..];
  }

  /** `getWishlist(email)`: empty without an e-mail, without a stored value, or when it does not parse. */
  function GetWishlist(storage: Storage, email: string): (r: seq<WishlistItem>)
    ensures email == "" ==> r == []
    ensures email != "" && KeyFor(email) !in storage ==> r == []
    ensures email != "" && KeyFor(email) in storage && storage[KeyFor(email)] == Unparsable ==> r == []
    ensures email != "" && KeyFor(email) in storage && storage[KeyFor(email)].Stored? ==> r == storage[KeyFor(email)].items
  {
    if email == "" then []
    else if KeyFor(email) !in storage then []
    else match storage[KeyFor(email)]
      case Unparsable => []
      case Stored(items) => items
  }

  /** `saveWishlist(email, items)`: stores nothing without an e-mail. */
  function SaveWishlist(storage: Storage, email: string, items: seq<WishlistItem>): (r: Storage)
    ensures email == "" ==> r == storage
    ensures email != "" ==> r.Keys == storage.Keys + {KeyFor(email)}
    ensures forall k :: k in storage && k != KeyFor(email) ==> k in r && r[k] == storage[k]
  {
    if email == "" then storage else storage[KeyFor(email) := Stored(items)]
  }

  /** Saving then reading gives back the saved list. */
  lemma SaveThenGet(storage: Storage, email: string, items: seq<WishlistItem>)
    requires email != ""
    ensures GetWishlist(SaveWishlist(storage, email, items), email) == items
  {
  }

  /** Entries are identified by their type and id together. */
  predicate SameEntry(a: WishlistItem, kind: WishlistType, id: string) {
    a.kind == kind && a.id == id
  }

  predicate Listed(list: seq<WishlistItem>, kind: WishlistType, id: string) {
    exists i :: 0 <= i < |list| && SameEntry(list[i], kind, id)
  }

  /** No two entries share both type and id. */
  predicate UniqueEntries(list: seq<WishlistItem>) {
    forall i, j :: 0 <= i < j < |list| ==> !SameEntry(list[j], list[i].kind, list[i].id)
  }

  /** `addToWishlist(email, item)`: refused without an e-mail or when the
      entry is already listed; otherwise the item goes to the front. */
  function AddToWishlist(storage: Storage, email: string, item: WishlistItem): (r: (Storage, bool))
    ensures !r.1 <==> email == "" || Listed(GetWishlist(storage, email), item.kind, item.id)
    ensures !r.1 ==> r.0 == storage
    ensures r.1 ==> GetWishlist(r.0, email) == [item] + GetWishlist(storage, email)
    ensures r.1 ==> forall k :: k in storage && k != KeyFor(email) ==> k in r.0 && r.0[k] == storage[k]
  {
    if email == "" then (storage, false)
    else
      var list := GetWishlist(storage, email);
      if Listed(list, item.kind, item.id) then (storage, false)
      else (SaveWishlist(storage, email, [item] + list), true)
  }

  /** `removeFromWishlist(email, type, id)`: drops the entries matching both type and id. */
  function RemoveFromWishlist(storage: Storage, email: string, kind: WishlistType, id: string): (r: Storage)
    ensures email == "" ==> r == storage
    ensures email != "" ==>
      && SubsequenceOf(GetWishlist(r, email), GetWishlist(storage, email))
      && (forall x :: x in GetWishlist(r, email) <==> x in GetWishlist(storage, email) && !SameEntry(x, kind, id))
      && (forall x :: multiset(GetWishlist(r, email))[x] ==
            if !SameEntry(x, kind, id) then multiset(GetWishlist(storage, email))[x] else 0)
  {
    var p := (x: WishlistItem) => !SameEntry(x, kind, id);
    FilterIsSubsequence(p, GetWishlist(storage, email));
    SaveWishlist(storage, email, Filter(p, GetWishlist(storage, email)))
  }

  /** Putting an unlisted entry in front of a list without repeats leaves none. */
  lemma PrependKeepsUnique(list: seq<WishlistItem>, item: WishlistItem)
    requires UniqueEntries(list) && !Listed(list, item.kind, item.id)
    ensures UniqueEntries([item] + list)
  {
    var l := [item] + list;
    forall i, j | 0 <= i < j < |l|
      ensures !SameEntry(l[j], l[i].kind, l[i].id)
    {
      assert l[j] == list[j - 1];
      if i > 0 {
        assert l[i] == list[i - 1];
      }
    }
  }

  /** Adding keeps entries unique. */
  lemma AddKeepsEntriesUnique(storage: Storage, email: string, item: WishlistItem)
    requires UniqueEntries(GetWishlist(storage, email))
    ensures UniqueEntries(GetWishlist(AddToWishlist(storage, email, item).0, email))
  {
    var (s, added) := AddToWishlist(storage, email, item);
    if added {
      PrependKeepsUnique(GetWishlist(storage, email), item);
    }
  }

  /** Adding a new entry and removing it again restores the list. */
  lemma AddThenRemove(storage: Storage, email: string, item: WishlistItem)
    requires email != "" && !Listed(GetWishlist(storage, email), item.kind, item.id)
    ensures var (s, _) := AddToWishlist(storage, email, item);
      GetWishlist(RemoveFromWishlist(s, email, item.kind, item.id), email) == GetWishlist(storage, email)
  {
    var list := GetWishlist(storage, email);
    var p := (x: WishlistItem) => !SameEntry(x, item.kind, item.id);
    assert ([item] + list)[1..] == list;
    FilterAll(p, list);
  }

  /** One user's wishlist operations never change another user's list. */
  lemma UsersIsolated(storage: Storage, email: string, other: string, item: WishlistItem,
                      kind: WishlistType, id: string)
    requires other != email
    ensures GetWishlist(AddToWishlist(storage, email, item).0, other) == GetWishlist(storage, other)
    ensures GetWishlist(RemoveFromWishlist(storage, email, kind, id), other) == GetWishlist(storage, other)
  {
    if KeyFor(other) == KeyFor(email) {
      KeyForInjective(other, email);
    }
  }
}
