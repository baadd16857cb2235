/** The dynamic values (decoded JSON documents) that contracts, events and stored records carry. */
module JsonValues {

  datatype Option<+T> = None | Some(value: T)

  datatype Entry = Entry(key: string, value: Value)

  /** A Python value made of None, booleans, numbers, strings, lists and insertion-ordered dictionaries. */
  datatype Value =
    | Null
    | Bool(truth: bool)
    | Number(number: real)
    | Text(text: string)
    | Array(items: seq<Value>)
    | Object(entries: seq<Entry>)

  /** Python's `bool(value)`. */
  predicate Truthy(v: Value) {
    match v
    case Null => false
    case Bool(b) => b
    case Number(n) => n != 0.0
    case Text(s) => s != ""
    case Array(items) => items != []
    case Object(entries) => entries != []
  }

  /** `dict.get(key)`, with None for a missing key. */
  function Get(entries: seq<Entry>, key: string): Value {
    if entries == [] then Null
    else if entries[0].key == key then entries[0].value
    else Get(entries[1..], key)
  }

  /** Everything counts as true but None, False, zero and what is empty. */
  lemma TruthyExactly(v: Value)
    ensures !Truthy(v) <==>
      v == Null || v == Bool(false) || v == Number(0.0) || v == Text("") || v == Array([]) || v == Object([])
  {
  }

  /** Position i is the first entry with this key. */
  ghost predicate FirstWith(entries: seq<Entry>, key: string, i: int) {
    0 <= i < |entries| && entries[i].key == key && forall j :: 0 <= j < i ==> entries[j].key != key
  }

  /** Looking up a key gives the value of its first entry, and None when it has none. */
  lemma {:induction false} GetExactly(entries: seq<Entry>, key: string)
    ensures forall i :: FirstWith(entries, key, i) ==> Get(entries, key) == entries[i].value
    ensures (forall i :: 0 <= i < |entries| ==> entries[i].key != key) ==> Get(entries, key) == Null
    ensures (exists i :: 0 <= i < |entries| && entries[i].key == key) ==> exists i :: FirstWith(entries, key, i)
  {
    if entries != [] {
      GetExactly(entries[1..], key);
      if entries[0].key == key {
        assert FirstWith(entries, key, 0);
      } else {
        forall i | FirstWith(entries, key, i) ensures Get(entries, key) == entries[i].value {
          assert FirstWith(entries[1..], key, i - 1);
        }
        if i :| 0 <= i < |entries| && entries[i].key == key {
          assert entries[1..][i - 1].key == key;
          var k :| FirstWith(entries[1..], key, k);
          assert FirstWith(entries, key, k + 1);
        }
      }
    }
  }
}
