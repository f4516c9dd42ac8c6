/**
 * PHP values as the migration configuration arrays hold them. A PHP array is
 * an ordered list of key/value entries; a key is an integer or a string.
 */
module PhpValues {
  import opened Wrappers

  datatype Key = IntKey(i: int) | StrKey(s: string)

  datatype Value =
    | Null
    | Bool(b: bool)
    | Int(i: int)
    | Str(s: string)
    | Arr(entries: seq<Entry>)

  datatype Entry = Entry(key: Key, value: Value)

  type PhpArray = seq<Entry>

  /** The value stored under the string key `name`, if the array has that key. */
  function Lookup(a: PhpArray, name: string): Option<Value>
    decreases |a|
  {
    if a == [] then None
    else if a[0].key == StrKey(name) then Some(a[0].value)
    else Lookup(a[1..], name)
  }

  /** The lookup finds the value of the first entry under the key, and fails exactly when no entry has it. */
  lemma {:induction false} LookupFindsFirst(a: PhpArray, name: string)
    ensures Lookup(a, name).None? <==> forall i :: 0 <= i < |a| ==> a[i].key != StrKey(name)
    ensures Lookup(a, name).Some? ==>
              exists i :: 0 <= i < |a| && a[i] == Entry(StrKey(name), Lookup(a, name).value)
                          && forall k :: 0 <= k < i ==> a[k].key != StrKey(name)
    decreases |a|
  {
    if a != [] && a[0].key != StrKey(name) {
      LookupFindsFirst(a[1..], name);
      assert forall i :: 1 <= i < |a| ==> a[i] == a[1..][i - 1];
      if Lookup(a, name).Some? {
        var i :| 0 <= i < |a[1..]| && a[1..][i] == Entry(StrKey(name), Lookup(a, name).value)
                 && forall k :: 0 <= k < i ==> a[1..][k].key != StrKey(name);
        assert a[i + 1] == a[1..][i];
      }
    }
  }

  /** `array_key_exists($name, $v)` for an array `$v`; false for any other value. */
  predicate HasField(v: Value, name: string)
  {
    v.Arr? && Lookup(v.entries, name).Some?
  }

  /** `$v[$name]`, read without a notice: `null` when `$v` is not an array or lacks the key. */
  function Field(v: Value, name: string): Value
  {
    if v.Arr? then
      match Lookup(v.entries, name)
      case Some(x) => x
      case None => Null
    else Null
  }

  /** `isset($v[$name])`: present and not `null`. */
  predicate IsSet(v: Value, name: string)
  {
    Field(v, name) != Null
  }

  /** PHP's conversion of a value to boolean. */
  predicate Truthy(v: Value)
  {
    match v
    case Null => false
    case Bool(b) => b
    case Int(i) => i != 0
    case Str(s) => s != "" && s != "0"
    case Arr(entries) => entries != []
  }

  /** Decimal digits of a natural number, without leading zeros. */
  function Digits(n: nat): (r: string)
    ensures |r| >= 1
    ensures forall i :: 0 <= i < |r| ==> '0' <= r[i] <= '9'
    decreases n
  {
    var d := ['0' + (n % 10) as char];
    if n < 10 then d else Digits(n / 10) + d
  }

  /** PHP's `(string)` conversion of an integer. */
  function DecimalString(i: int): string
  {
    if i < 0 then "-" + Digits(-i) else Digits(i)
  }

  /** PHP's `(string)` conversion; an array becomes the text `Array`. */
  function StringOf(v: Value): string
  {
    match v
    case Null => ""
    case Bool(b) => if b then "1" else ""
    case Int(i) => DecimalString(i)
    case Str(s) => s
    case Arr(_) => "Array"
  }

  /** The key as `foreach ($a as $key => ...)` hands it over. */
  function KeyValue(k: Key): Value
  {
    match k
    case IntKey(i) => Int(i)
    case StrKey(s) => Str(s)
  }
}
