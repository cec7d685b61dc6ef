/**
 * The browser-storage cache of the character list, kept under the key
 * `characters-cache`. The stored text is represented by what `JSON.parse`
 * makes of it, so serialisation itself stays abstract.
 */
module Cache {
  import opened Wrappers
  import opened Characters

  /**
   * The cache entry: missing, the empty string, text that does not parse,
   * text that parses to something other than an array, or an array.
   */
  datatype Stored = Absent | EmptyText | Unparsable | NonArray | ArrayText(items: seq<Record>)

  /**
   * `loadCache`: a stored value is usable only when it parses to a non-empty
   * array; every other entry, and every failure, reads as null.
   */
  function LoadCache(e: Stored): (r: Option<seq<Record>>)
    ensures r.Some? <==> e.ArrayText? && |e.items| > 0
    ensures r.Some? ==> |r.value| > 0 && e == ArrayText(r.value)
  {
    match e
    case Absent => None
    case EmptyText => None
    case Unparsable => None
    case NonArray => None
    case ArrayText(items) => if |items| > 0 then Some(items) else None
  }

  /** `localStorage.setItem(CACHE_KEY, JSON.stringify(data))`: the entry now holds the array. */
  function SaveCache(data: seq<Record>): Stored
  {
    ArrayText(data)
  }

  /**
   * Writing a list and reading it back gives the list when it is non-empty, and
   * nothing when it is empty: a cached empty list is no fallback.
   */
  lemma SaveThenLoad(data: seq<Record>)
    ensures LoadCache(SaveCache(data)) == if |data| > 0 then Some(data) else None
  {
  }
}
