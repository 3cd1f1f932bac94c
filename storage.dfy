/**
 * The browser key/value store as the game screens use it.
 *
 * Every value the screens keep is written with JSON.stringify and read back
 * with JSON.parse; a stored text that does not parse (or the empty text) is an
 * `Unparsable` cell.  A store whose every access throws (storage disabled by the
 * browser) has `enabled == false`.  `safeRead` and `safeWrite` swallow every
 * exception, so both are total here.
 */
module Storage {

  datatype Option<T> = None | Some(value: T)

  /** A value as JSON.parse returns it (NaN and the infinities are not JSON). */
  datatype Json =
    | JNull
    | JBool(b: bool)
    | JNum(n: real)
    | JStr(s: string)
    | JArr(items: seq<Json>)
    | JObj(fields: map<string, Json>)

  /** JavaScript truthiness of a JSON value. */
  predicate Truthy(v: Json)
  {
    match v
    case JNull => false
    case JBool(b) => b
    case JNum(n) => n != 0.0
    case JStr(s) => s != ""
    case JArr(_) => true
    case JObj(_) => true
  }

  /** Property access `v.key` on a value that is not null; `None` is `undefined`. */
  function Field(v: Json, key: string): Option<Json>
  {
    if v.JObj? && key in v.fields then Some(v.fields[key]) else None
  }

  /** `a || b` where `a` may be `undefined`. */
  function OrElse(a: Option<Json>, b: Json): Json
  {
    if a.Some? && Truthy(a.value) then a.value else b
  }

  /** What one key of the store holds: the parsed text, or a text JSON.parse rejects. */
  datatype Cell = Parsed(value: Json) | Unparsable

  /**
   * `safeRead(key)`: null for a missing key, for a text that does not parse
   * and for a store that throws; otherwise the parsed value.
   */
  function SafeRead(cells: map<string, Cell>, enabled: bool, key: string): Json
  {
    if enabled && key in cells && cells[key].Parsed? then cells[key].value else JNull
  }

  /** The cells after `safeWrite(key, v)`: a throwing store keeps its cells. */
  function Written(cells: map<string, Cell>, enabled: bool, key: string, v: Json): map<string, Cell>
  {
    if enabled then cells[key := Parsed(v)] else cells
  }

  /** What a screen reads back after writing: the value written, and no other key moves. */
  lemma ReadAfterWrite(cells: map<string, Cell>, enabled: bool, key: string, v: Json, other: string)
    requires enabled
    ensures SafeRead(Written(cells, enabled, key, v), enabled, key) == v
    ensures other != key ==> SafeRead(Written(cells, enabled, key, v), enabled, other) == SafeRead(cells, enabled, other)
  {
  }

  /** A missing key, an unparsable text and a throwing store all read as null. */
  lemma ReadNullCases(cells: map<string, Cell>, enabled: bool, key: string)
    ensures SafeRead(cells, enabled, key) != JNull ==> enabled && key in cells && cells[key] == Parsed(SafeRead(cells, enabled, key))
    ensures !enabled || key !in cells || cells[key] == Unparsable ==> SafeRead(cells, enabled, key) == JNull
  {
  }

  /** `localStorage`, shared by every screen of the game. */
  class LocalStore {
    var cells: map<string, Cell>
    var enabled: bool

    constructor (cells: map<string, Cell>, enabled: bool)
      ensures this.cells == cells && this.enabled == enabled
    {
      this.cells := cells;
      this.enabled := enabled;
    }

    /** `safeRead(key)` */
    function Read(key: string): Json
      reads this
    {
      SafeRead(cells, enabled, key)
    }

    /** `safeWrite(key, value)`: JSON.stringify then setItem, errors ignored. */
    method Write(key: string, v: Json)
      modifies this
      ensures cells == Written(old(cells), old(enabled), key, v)
      ensures enabled == old(enabled)
    {
      if enabled {
        cells := cells[key := Parsed(v)];
      }
    }
  }
}
