/** JSON values as the request-body parser delivers them, and the JavaScript
    object spread `{ ...v }` that the handlers apply to a request body. */
module Json {

  datatype Option<+T> = None | Some(value: T)

  /** A parsed JSON value. Numbers are integers in this model. */
  datatype Value =
    | Null
    | Bool(b: bool)
    | Num(n: int)
    | Str(s: string)
    | Arr(items: seq<Value>)
    | Obj(fields: map<string, Value>)

  /** The decimal digit character for d. */
  function Digit(d: nat): (c: char)
    requires d < 10
    ensures '0' <= c <= '9' && c as int - '0' as int == d
  {
    ('0' as int + d) as char
  }

  /** The property key JavaScript uses for index n of an array or string:
      its decimal representation, without leading zeros. */
  function IndexKey(n: nat): (k: string)
    ensures 1 <= |k|
    ensures |k| == 1 <==> n < 10
    ensures forall i :: 0 <= i < |k| ==> '0' <= k[i] <= '9'
    ensures n != 0 ==> k[0] != '0'
    decreases n
  {
    if n < 10 then [Digit(n)] else IndexKey(n / 10) + [Digit(n % 10)]
  }

  /** The number a string of decimal digits denotes, most significant first. */
  function DecimalValue(s: string): int {
    if s == [] then 0
    else 10 * DecimalValue(s[..|s| - 1]) + (s[|s| - 1] as int - '0' as int)
  }

  /** Reading the key back as a decimal numeral gives the index. */
  lemma {:induction false} IndexKeyRoundTrip(n: nat)
    ensures DecimalValue(IndexKey(n)) == n
    decreases n
  {
    var k := IndexKey(n);
    if n < 10 {
      assert k[..|k| - 1] == [];
    } else {
      assert k[..|k| - 1] == IndexKey(n / 10);
      IndexKeyRoundTrip(n / 10);
    }
  }

  /** Distinct indices have distinct keys, so spreading an array loses nothing. */
  lemma IndexKeyInjective(a: nat, b: nat)
    requires IndexKey(a) == IndexKey(b)
    ensures a == b
  {
    IndexKeyRoundTrip(a);
    IndexKeyRoundTrip(b);
  }

  /** r holds items[i] under the key IndexKey(i) for every index i, and has
      no other keys. */
  ghost predicate IndexedBy(r: map<string, Value>, items: seq<Value>) {
    && (forall i :: 0 <= i < |items| ==> IndexKey(i) in r && r[IndexKey(i)] == items[i])
    && (forall k :: k in r ==> exists i :: 0 <= i < |items| && k == IndexKey(i))
  }

  /** The object whose key IndexKey(i) holds items[i]: what `{ ...a }` yields
      for an array a. */
  function Indexed(items: seq<Value>): (r: map<string, Value>)
    ensures IndexedBy(r, items)
  {
    assert forall a: nat, b: nat :: IndexKey(a) == IndexKey(b) ==> a == b by {
      forall a: nat, b: nat | IndexKey(a) == IndexKey(b) ensures a == b {
        IndexKeyInjective(a, b);
      }
    }
    map i | 0 <= i < |items| :: IndexKey(i) := items[i]
  }

  /** The one-character strings of s, in order: what a string spreads into. */
  function Chars(s: string): (r: seq<Value>)
    ensures |r| == |s|
    ensures forall i :: 0 <= i < |s| ==> r[i] == Str([s[i]])
  {
    seq(|s|, i requires 0 <= i < |s| => Str([s[i]]))
  }

  /** `{ ...v }`: the own enumerable properties of v as a fresh object. An
      object contributes its fields, an array or a string its elements under
      index keys, and null, an absent body, a number or a boolean nothing. */
  function Spread(v: Value): (r: map<string, Value>)
    ensures v.Obj? ==> r == v.fields
    ensures v.Arr? ==> IndexedBy(r, v.items)
    ensures v.Str? ==> IndexedBy(r, Chars(v.s))
    ensures !(v.Obj? || v.Arr? || v.Str?) ==> r == map[]
  {
    match v
    case Obj(fields) => fields
    case Arr(items) => Indexed(items)
    case Str(s) => Indexed(Chars(s))
    case _ => map[]
  }
}
