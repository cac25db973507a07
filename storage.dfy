/** The device key-value store (AsyncStorage), with values held already parsed. */
module Storage {
  import opened Wrappers
  import opened Records

  /** The value under `key`, or None when the key is absent. */
  function Lookup(entries: map<string, Stored>, key: string): (v: Option<Stored>)
    ensures v.Some? <==> key in entries
    ensures v.Some? ==> entries[key] == v.value
  {
    if key in entries then Some(entries[key]) else None
  }

  /** `data ? JSON.parse(data) : []` as the screens use it: an absent value is
      the empty list; a value that is not an array is None, since the next
      array operation on it (`map`, `filter`, a spread) throws. */
  function StoredTransactions(v: Option<Stored>): (r: Option<seq<Transaction>>)
    ensures v.None? ==> r == Some([])
    ensures r.Some? <==> (v.None? || v.value.TransactionList?)
    ensures v.Some? && v.value.TransactionList? ==> r == Some(v.value.items)
  {
    match v
    case None => Some([])
    case Some(TransactionList(items)) => Some(items)
    case Some(UserRecord(_)) => None
  }

  /** Why a screen's load rejects: the stored value is not an array. */
  datatype LoadError = NotAnArray

  class AsyncStore {
    var entries: map<string, Stored>

    constructor (initial: map<string, Stored>)
      ensures entries == initial
    {
      entries := initial;
    }

    /** `getItem`: resolves to the stored value or to nothing. */
    method GetItem(key: string) returns (v: Option<Stored>)
      ensures v == Lookup(entries, key)
    {
      v := Lookup(entries, key);
    }

    /** `setItem`: the key now holds `value`; every other key is untouched. */
    method SetItem(key: string, value: Stored)
      modifies this
      ensures entries == old(entries)[key := value]
    {
      entries := entries[key := value];
    }

    /** `removeItem`: the key is gone; every other key is untouched. */
    method RemoveItem(key: string)
      modifies this
      ensures entries == old(entries) - {key}
    {
      entries := entries - {key};
    }
  }
}
