/**
  The on-device key-value store (AsyncStorage) as the screens see it: a map
  from key to the text stored under it. JSON encoding is abstracted: a
  document written with JSON.stringify is kept as the value it encodes, so
  that JSON.parse gives it back exactly.
 */
module Storage {
  import opened Wrappers

  /** What one store entry holds. */
  datatype Value =
    | Text(s: string)                    // any other text, "" included: not a plan or list document
    | PlanDoc(plan: map<string, string>) // JSON.stringify of a meal plan object
    | ListDoc(items: seq<string>)        // JSON.stringify of an array of strings

  type Store = map<string, Value>

  /** AsyncStorage.getItem(key): the stored value, or null when the key is absent. */
  function GetItem(store: Store, key: string): (saved: Option<Value>)
    ensures saved.Some? <==> key in store
    ensures saved.Some? ==> saved.value == store[key]
  {
    if key in store then Some(store[key]) else None
  }

  /**
    JavaScript truthiness of getItem's result: null and the empty string are
    falsy. The JSON text of a document is never empty, so a document is truthy.
   */
  predicate Truthy(saved: Option<Value>)
  {
    match saved
    case None => false
    case Some(Text(s)) => s != ""
    case Some(_) => true
  }
}
