/** The slice of PHP's value model the client depends on: dynamically typed
    values, `empty()` (which is also PHP's falsiness), `gettype`, and ordered
    arrays with their key lookup and key assignment. */
module Php {

  datatype Option<+T> = None | Some(value: T)

  /** An array key. PHP turns decimal-integer string keys into integer keys;
      every key this client compares against is a non-numeric string. */
  datatype PhpKey = IntKey(index: int) | StrKey(name: string)

  /** A PHP value. A float is kept only as its IEEE 754 bit pattern, an array
      as its ordered entries. `Closure` is a callable object, `Object` any
      other object. */
  datatype PhpValue =
    | Null
    | Bool(b: bool)
    | Int(i: int)
    | Float(bits: bv64)
    | Str(s: string)
    | Arr(entries: seq<(PhpKey, PhpValue)>)
    | Object(className: string)
    | Closure

  /** The entries of a PHP array, in insertion order. */
  type Entries = seq<(PhpKey, PhpValue)>

  /** `0.0` and `-0.0` (every bit but the sign bit clear). */
  predicate FloatIsZero(bits: bv64) {
    bits & 0x7FFF_FFFF_FFFF_FFFF == 0
  }

  /** PHP `empty($v)` on a defined value; `!empty($v)` is also what `if ($v)`
      tests. */
  predicate IsEmpty(v: PhpValue) {
    match v
    case Null => true
    case Bool(b) => !b
    case Int(i) => i == 0
    case Float(bits) => FloatIsZero(bits)
    case Str(s) => s == "" || s == "0"
    case Arr(es) => es == []
    case Object(_) => false
    case Closure => false
  }

  /** `gettype($v)`, except that a callable is described as "function", as the
      client's messages do with `is_callable`. */
  function TypeName(v: PhpValue): string {
    match v
    case Null => "NULL"
    case Bool(_) => "boolean"
    case Int(_) => "integer"
    case Float(_) => "double"
    case Str(_) => "string"
    case Arr(_) => "array"
    case Object(_) => "object"
    case Closure => "function"
  }

  /** The float zeros are exactly `0.0` and `-0.0`. */
  lemma FloatIsZeroIff(bits: bv64)
    ensures FloatIsZero(bits) <==> bits == 0 || bits == 0x8000_0000_0000_0000
  {
  }

  /** The empty values, listed: null, false, integer zero, the two float
      zeros, `""`, `"0"` and the empty array; every object and callable is
      non-empty. */
  lemma IsEmptyCases(v: PhpValue)
    ensures IsEmpty(v) <==>
      || v == Null || v == Bool(false) || v == Int(0)
      || v == Float(0) || v == Float(0x8000_0000_0000_0000)
      || v == Str("") || v == Str("0") || v == Arr([])
  {
    if v.Float? {
      FloatIsZeroIff(v.bits);
    }
  }

  /** Two values have the same type name exactly when they are of the same
      kind, so the messages built from it tell the kinds apart. */
  lemma TypeNameClassifies(a: PhpValue, b: PhpValue)
    ensures TypeName(a) == TypeName(b) <==>
      || (a.Null? && b.Null?) || (a.Bool? && b.Bool?) || (a.Int? && b.Int?)
      || (a.Float? && b.Float?) || (a.Str? && b.Str?) || (a.Arr? && b.Arr?)
      || (a.Object? && b.Object?) || (a.Closure? && b.Closure?)
  {
  }

  /** The keys of `es`, in order. */
  function Keys(es: Entries): seq<PhpKey> {
    seq(|es|, i requires 0 <= i < |es| => es[i].0)
  }

  predicate HasKey(es: Entries, k: PhpKey) {
    exists i :: 0 <= i < |es| && es[i].0 == k
  }

  /** A PHP array never holds a key twice. */
  predicate DistinctKeys(es: Entries) {
    forall i, j :: 0 <= i < j < |es| ==> es[i].0 != es[j].0
  }

  /** `$a[$k]`: the value stored under `k`, if any. */
  function Lookup(es: Entries, k: PhpKey): (r: Option<PhpValue>)
    ensures r.None? <==> !HasKey(es, k)
    ensures r.Some? ==> (k, r.value) in es
    ensures DistinctKeys(es) ==> forall v :: (k, v) in es ==> r == Some(v)
  {
    if es == [] then None
    else if es[0].0 == k then Some(es[0].1)
    else
      var r := Lookup(es[1..], k);
      assert forall i :: 1 <= i < |es| ==> es[i] == es[1..][i - 1];
      r
  }

  /** Reading `$a[$k]`: an undefined index reads as null (PHP only raises a
      notice or warning). */
  function ReadIndex(es: Entries, k: PhpKey): (v: PhpValue)
    ensures HasKey(es, k) ==> (k, v) in es
    ensures !HasKey(es, k) ==> v == Null
  {
    match Lookup(es, k)
    case Some(v) => v
    case None => Null
  }

  /** `$a[$k] = $v`: overwrites the entry for `k` in place, or appends one. */
  function Assign(es: Entries, k: PhpKey, v: PhpValue): (r: Entries)
    ensures |r| == if HasKey(es, k) then |es| else |es| + 1
    ensures !HasKey(es, k) ==> r == es + [(k, v)]
  {
    if es == [] then [(k, v)]
    else if es[0].0 == k then [(k, v)] + es[1..]
    else
      assert HasKey(es[1..], k) <==> HasKey(es, k) by {
        assert forall i :: 1 <= i < |es| ==> es[i] == es[1..][i - 1];
      }
      [es[0]] + Assign(es[1..], k, v)
  }

  /** Reading a key after assigning it gives the assigned value; every other
      key reads as before. */
  lemma {:induction false} LookupAssign(es: Entries, k: PhpKey, v: PhpValue, k': PhpKey)
    ensures Lookup(Assign(es, k, v), k') == if k' == k then Some(v) else Lookup(es, k')
  {
    if es == [] {
    } else if es[0].0 == k {
      assert ([(k, v)] + es[1..])[1..] == es[1..];
    } else {
      var rest := Assign(es[1..], k, v);
      LookupAssign(es[1..], k, v, k');
      assert ([es[0]] + rest)[1..] == rest;
    }
  }
}
