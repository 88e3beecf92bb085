/**
 * The browser storage slot under the key "addedUsers", seen through `JSON.parse`.
 * Both the add-user page and the profile page read it; only the add-user page writes it.
 */
module Storage {
  import opened Wrappers

  /** The key both pages use. */
  const LocalStorageKey := "addedUsers"

  /**
   * What reading the slot and parsing it can give: no entry (`getItem` returns null),
   * the empty string, text that is not JSON, JSON that is not an array, or an array.
   */
  datatype Slot<T> = Absent | Empty | Unparseable | NonArray | Array(items: seq<T>)

  /** `JSON.stringify` of a whole list followed by `setItem`: the slot is overwritten. */
  function Serialize<T>(users: seq<T>): (s: Slot<T>)
    ensures s.Array? && s.items == users
  {
    Array(users)
  }

  /**
   * The mount-time read of the add-user page: the parsed array when the slot holds one
   * (elements are not checked), and nothing otherwise. Parse errors and non-arrays are
   * only logged, so no error escapes.
   */
  function StoredArray<T>(s: Slot<T>): (r: Option<seq<T>>)
    ensures r.Some? <==> s.Array?
    ensures r.Some? ==> r.value == s.items
  {
    match s
    case Absent => None      // getItem returned null: falsy
    case Empty => None       // "" is falsy too
    case Unparseable => None // JSON.parse threw; caught and logged
    case NonArray => None    // Array.isArray failed; logged
    case Array(items) => Some(items)
  }

  /** Reading back what was written gives the same list, in the same order. */
  lemma {:induction false} SerializeRoundTrip<T>(users: seq<T>)
    ensures StoredArray(Serialize(users)) == Some(users)
  {
  }

  /** How a reader that casts the parsed array to another record type sees the slot. */
  function ReadAs<A, B>(s: Slot<A>, view: A -> B): (r: Slot<B>)
    ensures r.Array? <==> s.Array?
    ensures r.Array? ==> |r.items| == |s.items|
    ensures r.Array? ==> forall k :: 0 <= k < |s.items| ==> r.items[k] == view(s.items[k])
  {
    match s
    case Absent => Absent
    case Empty => Empty
    case Unparseable => Unparseable
    case NonArray => NonArray
    case Array(items) => Array(seq(|items|, k requires 0 <= k < |items| => view(items[k])))
  }
}
