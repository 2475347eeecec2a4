/**
 * The part of PHP's value model that the border block support reads and
 * writes: null, booleans, integers, strings and ordered associative arrays
 * with string keys, together with the language operations the support
 * relies on (array read and write, `isset`, conversion to boolean and to
 * string) and the two WordPress array helpers it calls.
 */
module Php {
  import opened Wrappers

  /** A PHP value. An array keeps its entries in insertion order. */
  datatype Value =
    | Null
    | Bool(b: bool)
    | Int(i: int)
    | Str(s: string)
    | Arr(entries: seq<(string, Value)>)

  /** The entries of a PHP array, in order. */
  type PhpArray = seq<(string, Value)>

  /** The keys of an array, in order. */
  function Keys(a: PhpArray): seq<string> {
    if a == [] then [] else [a[0].0] + Keys(a[1..])
  }

  lemma {:induction false} KeysAppend(a: PhpArray, b: PhpArray)
    ensures Keys(a + b) == Keys(a) + Keys(b)
  {
    if a != [] {
      assert (a + b)[0] == a[0] && (a + b)[1..] == a[1..] + b;
      KeysAppend(a[1..], b);
      assert Keys(a + b) == [a[0].0] + (Keys(a[1..]) + Keys(b));
    } else {
      assert a + b == b;
    }
  }

  /** `$a[$k]` for an array: the value stored under `k`, if the key exists (`array_key_exists`). */
  function Lookup(a: PhpArray, k: string): (r: Option<Value>)
    ensures r.None? <==> k !in Keys(a)
    ensures r.Some? ==> (k, r.value) in a
  {
    if a == [] then None
    else if a[0].0 == k then Some(a[0].1)
    else Lookup(a[1..], k)
  }

  /** Reading key `k` of `a + b` reads `a` when `a` has the key, and `b` otherwise. */
  lemma {:induction false} LookupAppend(a: PhpArray, b: PhpArray, k: string)
    ensures Lookup(a + b, k) == if k in Keys(a) then Lookup(a, k) else Lookup(b, k)
  {
    if a != [] {
      assert (a + b)[0] == a[0] && (a + b)[1..] == a[1..] + b;
      LookupAppend(a[1..], b, k);
    } else {
      assert a + b == b;
    }
  }

  /** Every key of `a + b` is read from `a` when `a` has it, and from `b` otherwise. */
  lemma LookupAppendAll(a: PhpArray, b: PhpArray)
    ensures forall k :: Lookup(a + b, k) == if k in Keys(a) then Lookup(a, k) else Lookup(b, k)
  {
    forall k {
      LookupAppend(a, b, k);
    }
  }

  /** The entry under an existing key `k` takes the value `v`, in its place. */
  function Replace(a: PhpArray, k: string, v: Value): (r: PhpArray)
    ensures Keys(r) == Keys(a)
    ensures k in Keys(a) ==> Lookup(r, k) == Some(v)
    ensures forall k' :: k' != k ==> Lookup(r, k') == Lookup(a, k')
  {
    if a == [] then []
    else
      var r := [if a[0].0 == k then (k, v) else a[0]] + (if a[0].0 == k then a[1..] else Replace(a[1..], k, v));
      assert r[0].0 == a[0].0 && r[1..] == (if a[0].0 == k then a[1..] else Replace(a[1..], k, v));
      r
  }

  /**
   * `$a[$k] = $v`: an existing key keeps its position and takes the new value,
   * a new key is appended at the end.
   */
  function Put(a: PhpArray, k: string, v: Value): (r: PhpArray)
    ensures k !in Keys(a) ==> r == a + [(k, v)]
    ensures Keys(r) == if k in Keys(a) then Keys(a) else Keys(a) + [k]
    ensures Lookup(r, k) == Some(v)
    ensures forall k' :: k' != k ==> Lookup(r, k') == Lookup(a, k')
  {
    if k in Keys(a) then Replace(a, k, v)
    else
      KeysAppend(a, [(k, v)]);
      LookupAppendAll(a, [(k, v)]);
      a + [(k, v)]
  }

  /**
   * Follows `path` down through nested arrays. A step from a value that is
   * not an array, or to a key that does not exist, finds nothing.
   */
  function Walk(v: Value, path: seq<string>): (r: Option<Value>)
    ensures path == [] ==> r == Some(v)
    ensures path != [] && !v.Arr? ==> r == None
    ensures r.Some? && path != [] ==> v.Arr? && path[0] in Keys(v.entries)
    ensures |path| == 1 && v.Arr? ==> r == Lookup(v.entries, path[0])
    decreases |path|
  {
    if path == [] then Some(v)
    else match v
      case Arr(entries) =>
        (match Lookup(entries, path[0])
         case Some(child) => Walk(child, path[1..])
         case None => None)
      case _ => None
  }

  /** Following `p + q` is following `p`, then `q` from where `p` ends. */
  lemma {:induction false} WalkAppend(v: Value, p: seq<string>, q: seq<string>)
    ensures Walk(v, p + q) == match Walk(v, p) case Some(child) => Walk(child, q) case None => None
    decreases |p|
  {
    if p == [] {
      assert p + q == q;
    } else {
      assert (p + q)[0] == p[0] && (p + q)[1..] == p[1..] + q;
      match v {
        case Arr(entries) =>
          match Lookup(entries, p[0]) {
            case Some(child) => WalkAppend(child, p[1..], q);
            case None =>
          }
        case _ =>
      }
    }
  }

  /** Following a longer path is following its first key, then the rest. */
  lemma WalkFirst(v: Value, k: string, rest: seq<string>)
    ensures Walk(v, [k] + rest) == match Walk(v, [k]) case Some(child) => Walk(child, rest) case None => None
  {
    WalkAppend(v, [k], rest);
  }

  /**
   * WordPress's `_wp_array_get( $array, $path, $default )`: the value at
   * `path`, or `default` when the path is empty or cannot be followed.
   * A key that exists and holds null yields null, not `default`.
   */
  function WpArrayGet(v: Value, path: seq<string>, default: Value): (r: Value)
    ensures path == [] || !v.Arr? ==> r == default
    ensures |path| == 1 && v.Arr? ==> r == Lookup(v.entries, path[0]).GetOr(default)
    ensures |path| > 1 && v.Arr? ==>
              r == match Lookup(v.entries, path[0])
                   case Some(child) => WpArrayGet(child, path[1..], default)
                   case None => default
  {
    if path == [] then default else Walk(v, path).GetOr(default)
  }

  /**
   * `isset( $v[p0][p1]... )`: every step goes through an array (a string
   * offset by a non-numeric key is never set) and the final value is not null.
   */
  predicate IsSet(v: Value, path: seq<string>)
    ensures path != [] ==> (IsSet(v, path) <==> WpArrayGet(v, path, Null) != Null)
  {
    match Walk(v, path)
    case Some(x) => x != Null
    case None => false
  }

  /**
   * PHP's conversion to boolean: null, false, 0, "", "0" and the empty array
   * are false. A scalar is false exactly when its text is "" or "0".
   */
  predicate Truthy(v: Value)
    ensures !v.Arr? ==> (Truthy(v) <==> ToPhpString(v) != "" && ToPhpString(v) != "0")
  {
    match v
    case Null => false
    case Bool(b) => b
    case Int(i) => IntToStringZero(i); i != 0
    case Str(s) => s != "" && s != "0"
    case Arr(entries) => entries != []
  }

  /** The decimal digit for `d`. */
  function DigitChar(d: nat): char
    requires d < 10
  {
    "0123456789"[d]
  }

  predicate IsDigit(c: char) {
    '0' <= c <= '9'
  }

  /** The decimal text of a natural number, without leading zeros. */
  function NatToString(n: nat): (s: string)
    ensures s != []
    ensures forall k :: 0 <= k < |s| ==> IsDigit(s[k])
  {
    if n < 10 then [DigitChar(n)] else NatToString(n / 10) + [DigitChar(n % 10)]
  }

  /** The text PHP gives an integer: its decimal digits, after a '-' when negative. */
  function IntToString(i: int): string {
    if i < 0 then "-" + NatToString(-i) else NatToString(i)
  }

  /** The text of an integer is never empty, and it is "0" only for zero. */
  lemma IntToStringZero(i: int)
    ensures IntToString(i) != ""
    ensures IntToString(i) == "0" <==> i == 0
  {
    if i < 0 {
      assert IntToString(i)[0] == '-';
    } else if i == 0 {
      assert NatToString(0) == "0";
    } else if i < 10 {
      assert IntToString(i) == [DigitChar(i)];
      assert DigitChar(i) != '0';
    } else {
      assert |IntToString(i)| >= 2;
    }
  }

  /**
   * PHP's conversion to string, as `.=` and interpolation perform it:
   * null and false give "", true gives "1", and an array gives "Array".
   */
  function ToPhpString(v: Value): (r: string)
    ensures r == "" <==> v.Null? || v == Bool(false) || v == Str("")
  {
    match v
    case Null => ""
    case Bool(b) => if b then "1" else ""
    case Int(i) => IntToStringZero(i); IntToString(i)
    case Str(s) => s
    case Arr(_) => "Array"
  }
}
