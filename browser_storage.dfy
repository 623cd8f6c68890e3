/**
 * The browser's localStorage as this site uses it: a map from key to the
 * text stored under it, where every text the site writes is the JSON
 * serialisation of an array of records. The text is modelled by what
 * `JSON.parse` makes of it.
 */
module BrowserStorage {
  import opened Wrappers

  /** A stored text, classified by what the site's code does with it. */
  datatype Blob<T> =
    | EmptyText                 // "": falsy, so both `|| "[]"` and `if (stored)` skip it
    | JsonArray(items: seq<T>)  // the serialisation of an array of records
    | Malformed                 // text on which JSON.parse throws a SyntaxError

  datatype ParseError = SyntaxError

  /** `localStorage.getItem(key)`: null when the key is absent. */
  function Get<T>(items: map<string, Blob<T>>, key: string): (r: Option<Blob<T>>)
    ensures r.Some? <==> key in items
    ensures r.Some? ==> r.value == items[key]
  {
    if key in items then Some(items[key]) else None
  }

  /** `JSON.parse(localStorage.getItem(key) || "[]")`: a missing key and the
      empty text both read as the empty list; malformed text throws. */
  function ParseListOrEmpty<T>(stored: Option<Blob<T>>): (r: Result<seq<T>, ParseError>)
    ensures r.Err? <==> stored == Some(Malformed)
    ensures stored.None? || stored == Some(EmptyText) ==> r == Ok([])
    ensures stored.Some? && stored.value.JsonArray? ==> r == Ok(stored.value.items)
  {
    match stored
    case None => Ok([])
    case Some(EmptyText) => Ok([])
    case Some(JsonArray(items)) => Ok(items)
    case Some(Malformed) => Err(SyntaxError)
  }

  /** What `if (stored) { set(JSON.parse(stored)) }` does with a stored text. */
  datatype Read<T> = Skipped | Parsed(items: seq<T>) | Threw

  function ReadIfPresent<T>(stored: Option<Blob<T>>): (r: Read<T>)
    ensures r.Skipped? <==> stored.None? || stored == Some(EmptyText)
    ensures r.Threw? <==> stored == Some(Malformed)
    ensures r.Parsed? ==> stored == Some(JsonArray(r.items))
  {
    match stored
    case None => Skipped
    case Some(EmptyText) => Skipped
    case Some(JsonArray(items)) => Parsed(items)
    case Some(Malformed) => Threw
  }

  /** The two ways the site reads a key agree: a skipped read is the empty
      list, a parsed read is the stored list, and both fail on the same texts. */
  lemma ReadsAgree<T>(stored: Option<Blob<T>>)
    ensures ReadIfPresent(stored).Skipped? ==> ParseListOrEmpty(stored) == Ok([])
    ensures ReadIfPresent(stored).Parsed? ==> ParseListOrEmpty(stored) == Ok(ReadIfPresent(stored).items)
    ensures ReadIfPresent(stored).Threw? <==> ParseListOrEmpty(stored).Err?
  {
  }

  /** The origin's localStorage object. */
  class LocalStorage<T> {
    var items: map<string, Blob<T>>

    constructor (initial: map<string, Blob<T>>)
      ensures items == initial
    {
      items := initial;
    }

    method GetItem(key: string) returns (v: Option<Blob<T>>)
      ensures v.Some? <==> key in items
      ensures v.Some? ==> v.value == items[key]
    {
      v := Get(items, key);
    }

    method SetItem(key: string, value: Blob<T>)
      modifies this
      ensures items == old(items)[key := value]
    {
      items := items[key := value];
    }

    method RemoveItem(key: string)
      modifies this
      ensures items == old(items) - {key}
    {
      items := items - {key};
    }
  }
}
