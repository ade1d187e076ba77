/**
  The grocery list screen: an ordered list of ingredient strings, duplicates
  allowed, backed by the store entry "groceryList" and edited by position.
 */
module GroceryList {
  import opened Wrappers
  import opened Storage

  /** The store key the whole list is written under. */
  const StoreKey: string := "groceryList"

  /**
    `list.filter((_, i) => i !== index)`: keeps every element whose position
    differs from `index`. In range it drops exactly that one element; out of
    range (negative or past the end) it keeps the list as it is.
   */
  function RemoveAt(list: seq<string>, index: int): (r: seq<string>)
    ensures 0 <= index < |list| ==> r == list[..index] + list[index + 1..]
    ensures !(0 <= index < |list|) ==> r == list
  {
    if list == [] then []
    else (if index == 0 then [] else [list[0]]) + RemoveAt(list[1..], index - 1)
  }

  /** Removal shortens the list by one and keeps the others in their order. */
  lemma RemoveAtKeepsOrder(list: seq<string>, index: int)
    requires 0 <= index < |list|
    ensures |RemoveAt(list, index)| == |list| - 1
    ensures forall j :: 0 <= j < index ==> RemoveAt(list, index)[j] == list[j]
    ensures forall j :: index <= j < |list| - 1 ==> RemoveAt(list, index)[j] == list[j + 1]
  {
  }

  /** Removal takes exactly the element at `index` out of the list's multiset. */
  lemma RemoveAtTakesOneOccurrence(list: seq<string>, index: int)
    requires 0 <= index < |list|
    ensures multiset(RemoveAt(list, index)) + multiset{list[index]} == multiset(list)
  {
    var before, after := list[..index], list[index + 1..];
    assert list == before + [list[index]] + after;
    Unsplice(before, list[index], after);
  }

  /**
    Duplicates are allowed: only the occurrence at `index` goes, so an equal
    string elsewhere stays and every other string keeps its count.
   */
  lemma RemoveAtKeepsDuplicates(list: seq<string>, index: int)
    requires 0 <= index < |list|
    ensures multiset(RemoveAt(list, index))[list[index]] == multiset(list)[list[index]] - 1
    ensures forall x :: x != list[index] ==> multiset(RemoveAt(list, index))[x] == multiset(list)[x]
  {
    RemoveAtTakesOneOccurrence(list, index);
  }

  /** Taking one element out of the middle of a sequence takes it out of its multiset. */
  lemma Unsplice(before: seq<string>, x: string, after: seq<string>)
    ensures multiset(before + after) + multiset{x} == multiset(before + [x] + after)
  {
  }

  /** Removing position 0 from ["2 eggs", "1 cup flour"] leaves ["1 cup flour"]. */
  lemma RemoveFirstOfTwo()
    ensures RemoveAt(["2 eggs", "1 cup flour"], 0) == ["1 cup flour"]
  {
  }

  /** Removing the first of two equal items leaves the second one. */
  lemma RemoveOneOfDuplicates()
    ensures RemoveAt(["milk", "eggs", "milk"], 0) == ["eggs", "milk"]
    ensures RemoveAt(["milk", "eggs", "milk"], 2) == ["milk", "eggs"]
  {
  }

  /**
    What `saved ? JSON.parse(saved) : []` gives for getItem's result: the
    empty list when nothing is set (null or ""), the stored list, or None
    when the stored text is not a list document.
   */
  function ParsedList(saved: Option<Value>): (list: Option<seq<string>>)
    ensures !Truthy(saved) ==> list == Some([])
    ensures Truthy(saved) ==> (list.Some? <==> saved.value.ListDoc?)
    ensures Truthy(saved) && list.Some? ==> saved == Some(ListDoc(list.value))
  {
    if !Truthy(saved) then Some([])
    else match saved.value
      case ListDoc(items) => Some(items)
      case _ => None
  }

  /** The list a freshly mounted screen shows once it has loaded `store`. */
  function Reloaded(store: Store): seq<string>
  {
    match ParsedList(GetItem(store, StoreKey))
    case Some(items) => items
    case None => []
  }

  /** Writing a list with JSON.stringify and reading it back on a restart gives the same list. */
  lemma SavedListReloads(store: Store, list: seq<string>)
    ensures Reloaded(store[StoreKey := ListDoc(list)]) == list
  {
  }

  /** The grocery list screen: its `groceryList` state and the store it persists to. */
  class GroceryListScreen {
    var groceryList: seq<string>
    var store: Store

    /** Mounting the screen: the state starts as `[]`. */
    constructor (persisted: Store)
      ensures groceryList == [] && store == persisted
    {
      groceryList := [];
      store := persisted;
    }

    /** The list in memory is what a restart would show. */
    predicate InSync()
      reads this
    {
      Reloaded(store) == groceryList
    }

    /**
      loadList: sets the state to the saved list, or to [] when nothing is
      saved; a failed read or a value that is not a list document leaves the state in place.
     */
    method LoadList(readOk: bool)
      modifies this`groceryList
      ensures store == old(store)
      ensures groceryList == if readOk && ParsedList(GetItem(store, StoreKey)).Some?
                             then ParsedList(GetItem(store, StoreKey)).value
                             else old(groceryList)
      ensures readOk && ParsedList(GetItem(store, StoreKey)).Some? ==> InSync()
    {
      if readOk {
        var saved := GetItem(store, StoreKey);
        var parsed := ParsedList(saved);
        if parsed.Some? {
          groceryList := parsed.value;
        }
      }
    }

    /**
      removeItem: writes the shortened list first and updates the state only
      once the write succeeded, so a failed write changes neither.
     */
    method RemoveItem(index: int, writeOk: bool)
      modifies this
      ensures writeOk ==> groceryList == RemoveAt(old(groceryList), index)
      ensures writeOk ==> store == old(store)[StoreKey := ListDoc(groceryList)] && InSync()
      ensures !writeOk ==> groceryList == old(groceryList) && store == old(store)
    {
      var newList := RemoveAt(groceryList, index);
      if writeOk {
        store := store[StoreKey := ListDoc(newList)];
        groceryList := newList;
        SavedListReloads(old(store), newList);
      }
    }
  }
}
