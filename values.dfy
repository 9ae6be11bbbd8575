/** Python values as the research tools see them: the results of `json.loads`
    and `eval`, tool inputs and keyword arguments. Dictionaries keep Python's
    insertion order, so they are sequences of key/value pairs. A Python dict
    has each key once, so the dictionaries given to this model (decoded JSON
    objects and keyword arguments) are taken to have unique keys; `Lookup`
    then reads the only entry with a key. */
module Values {
  import opened Text

  datatype Option<+T> = None | Some(value: T) {
    function GetOr(default: T): T {
      match this
      case Some(v) => v
      case None => default
    }
  }

  /** A Python object: `None`, a bool, an int, a str, a list or a dict. */
  datatype Value =
    | VNone
    | VBool(b: bool)
    | VInt(i: int)
    | VStr(s: string)
    | VList(items: seq<Value>)
    | VDict(entries: seq<(string, Value)>)

  /** Python truthiness, as `if not x` tests it. */
  predicate Truthy(v: Value) {
    match v
    case VNone => false
    case VBool(b) => b
    case VInt(i) => i != 0
    case VStr(s) => s != ""
    case VList(items) => items != []
    case VDict(entries) => entries != []
  }

  /** Entry `k` is the first with key `key`. */
  predicate FirstAt(entries: seq<(string, Value)>, key: string, k: int) {
    0 <= k < |entries| && entries[k].0 == key && forall j | 0 <= j < k :: entries[j].0 != key
  }

  /** `d.get(key, default)` on an ordered list of entries: the value of the
      first entry with the key, or the default when there is none. */
  function Lookup(entries: seq<(string, Value)>, key: string, default: Value): (r: Value)
    ensures (forall k | 0 <= k < |entries| :: entries[k].0 != key) ==> r == default
    ensures forall k | FirstAt(entries, key, k) :: r == entries[k].1
    ensures r != default ==> exists k | 0 <= k < |entries| :: entries[k] == (key, r)
  {
    if entries == [] then default
    else if entries[0].0 == key then entries[0].1
    else Lookup(entries[1..], key, default)
  }

  /** `d.get(key, default)` on a value that has just been checked to be a dict. */
  function Get(d: Value, key: string, default: Value): Value
    requires d.VDict?
  {
    Lookup(d.entries, key, default)
  }

  function DigitChar(d: nat): char
    requires d < 10
  {
    "0123456789"[d]
  }

  /** Decimal digits of a natural number, as `str(n)` writes them. */
  function NatToString(n: nat): (r: string)
    ensures r != []
    ensures forall k | 0 <= k < |r| :: '0' <= r[k] <= '9'
  {
    if n < 10 then [DigitChar(n)] else NatToString(n / 10) + [DigitChar(n % 10)]
  }

  function IntToString(i: int): (r: string)
    ensures r != [] && (r[0] == '-' <==> i < 0)
  {
    if i < 0 then "-" + NatToString(-i) else NatToString(i)
  }

  /** The number a string of decimal digits denotes, read left to right. */
  function DecimalValue(s: string): nat
    requires forall k | 0 <= k < |s| :: '0' <= s[k] <= '9'
  {
    if s == [] then 0 else DecimalValue(s[..|s| - 1]) * 10 + (s[|s| - 1] as int - '0' as int)
  }

  /** `str(n)` denotes `n`, and has no leading zero. */
  lemma {:induction false} NatToStringValue(n: nat)
    ensures DecimalValue(NatToString(n)) == n
    ensures |NatToString(n)| > 1 ==> NatToString(n)[0] != '0'
  {
    if n >= 10 {
      var p := NatToString(n / 10);
      NatToStringValue(n / 10);
      assert NatToString(n) == p + [DigitChar(n % 10)];
      assert (p + [DigitChar(n % 10)])[..|p|] == p;
    }
  }

  /** `str(i)` is a minus sign exactly for a negative `i`, followed by the
      digits of its magnitude. */
  lemma IntToStringValue(i: int)
    ensures i >= 0 ==> DecimalValue(IntToString(i)) == i
    ensures i < 0 ==> IntToString(i)[1..] == NatToString(-i) && DecimalValue(NatToString(-i)) == -i
  {
    if i < 0 {
      NatToStringValue(-i);
    } else {
      NatToStringValue(i);
    }
  }

  /** `str(v)` (when `quoted` is false) and `repr(v)` (when it is true), which
      is what an f-string shows. Strings inside `repr` are put between single
      quotes without escaping. */
  function Render(v: Value, quoted: bool): string
    decreases v
  {
    match v
    case VNone => "None"
    case VBool(b) => if b then "True" else "False"
    case VInt(i) => IntToString(i)
    case VStr(s) => if quoted then "'" + s + "'" else s
    case VList(items) =>
      "[" + Join(", ", seq(|items|, k requires 0 <= k < |items| => Render(items[k], true))) + "]"
    case VDict(entries) =>
      "{" + Join(", ", seq(|entries|, k requires 0 <= k < |entries| =>
                                 "'" + entries[k].0 + "': " + Render(entries[k].1, true))) + "}"
  }

  /** `type(v).__name__`, as Python's `TypeError` messages name it. */
  function TypeName(v: Value): string {
    match v
    case VNone => "NoneType"
    case VBool(_) => "bool"
    case VInt(_) => "int"
    case VStr(_) => "str"
    case VList(_) => "list"
    case VDict(_) => "dict"
  }

  /** `str(v)`, what an f-string inserts. */
  function Display(v: Value): (r: string)
    ensures v.VStr? ==> r == v.s
    ensures v.VNone? ==> r == "None"
  {
    Render(v, false)
  }

}
