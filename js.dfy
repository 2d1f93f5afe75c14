/** JavaScript values and objects as the bridge sees them at run time.

    The bridge is written in TypeScript, but almost everything it handles comes
    out of `JSON.parse` or travels as `any`: gateway resources, push messages,
    action payloads and the application state tree. This module gives those
    values one datatype, the few JavaScript operations the core applies to them
    (truthiness, optional-chaining property reads, template-literal conversion),
    and ordered dictionaries: JavaScript objects enumerate their keys in
    insertion order, which several lookups of the core depend on.
 */
module Js {

  datatype Option<T> = None | Some(value: T)

  /** A JavaScript value. Numbers are integers (the core never computes with
      fractions); `Obj` keeps its properties in enumeration order. */
  datatype JsValue =
    | Undefined
    | Null
    | Bool(b: bool)
    | Num(n: int)
    | NaN
    | Str(s: string)
    | Arr(items: seq<JsValue>)
    | Obj(fields: seq<(string, JsValue)>)

  /** An object's own properties, in enumeration order. */
  type Assoc<V> = seq<(string, V)>

  /** `!!v` */
  predicate Truthy(v: JsValue)
  {
    match v
    case Undefined => false
    case Null => false
    case NaN => false
    case Bool(b) => b
    case Num(n) => n != 0
    case Str(s) => s != ""
    case Arr(_) => true
    case Obj(_) => true
  }

  /** `v?.key`: a property of an object, `undefined` for anything else
      (primitives have none of the properties the core reads). */
  function Prop(v: JsValue, key: string): (r: JsValue)
    ensures !v.Obj? ==> r == Undefined
    ensures v.Obj? ==> (r == Undefined <==> Lookup(v.fields, key) in {None, Some(Undefined)})
  {
    match v
    case Obj(fields) => (match Lookup(fields, key) case Some(x) => x case None => Undefined)
    case _ => Undefined
  }

  /** `v?.[i]` for an array index. */
  function Index(v: JsValue, i: nat): JsValue
  {
    if v.Arr? && i < |v.items| then v.items[i] else Undefined
  }

  /** `${v}`: the string a template literal makes of `v`. */
  function ToStr(v: JsValue): string
    decreases v, 1, 0
  {
    match v
    case Undefined => "undefined"
    case Null => "null"
    case Bool(b) => if b then "true" else "false"
    case Num(n) => IntToString(n)
    case NaN => "NaN"
    case Str(s) => s
    case Arr(items) => JoinElements(items, v)
    case Obj(_) => "[object Object]"
  }

  /** `Array.prototype.join(',')`: `null` and `undefined` elements become empty. */
  function JoinElements(items: seq<JsValue>, ghost parent: JsValue): string
    requires forall x :: x in items ==> x < parent
    decreases parent, 0, |items|
  {
    if items == [] then ""
    else
      assert items[0] in items;
      assert forall x :: x in items[1..] ==> x in items;
      var first := if items[0].Undefined? || items[0].Null? then "" else ToStr(items[0]);
      if |items| == 1 then first else first + "," + JoinElements(items[1..], parent)
  }

  function DigitChar(d: nat): char
    requires d < 10
  {
    "0123456789"[d]
  }

  /** The decimal numeral of `n`, without leading zeros. */
  function NatToString(n: nat): (s: string)
    ensures |s| >= 1
    ensures forall i :: 0 <= i < |s| ==> '0' <= s[i] <= '9'
    ensures |s| > 1 ==> s[0] != '0'
  {
    if n < 10 then [DigitChar(n)] else NatToString(n / 10) + [DigitChar(n % 10)]
  }

  function IntToString(n: int): string
  {
    if n < 0 then "-" + NatToString(-n) else NatToString(n)
  }

  // ---------------------------------------------------------------------------
  // Ordered dictionaries
  // ---------------------------------------------------------------------------

  function Keys<V>(a: Assoc<V>): (ks: seq<string>)
    ensures |ks| == |a|
    ensures forall i :: 0 <= i < |a| ==> ks[i] == a[i].0
  {
    if a == [] then [] else [a[0].0] + Keys(a[1..])
  }

  /** JavaScript object keys are distinct. */
  ghost predicate UniqueKeys<V>(a: Assoc<V>)
  {
    forall i, j :: 0 <= i < j < |a| ==> a[i].0 != a[j].0
  }

  /** `o[k]`, with `None` for a missing key. */
  function Lookup<V>(a: Assoc<V>, k: string): (r: Option<V>)
    ensures r.None? <==> k !in Keys(a)
    ensures r.Some? ==> (k, r.value) in a
  {
    if a == [] then None
    else if a[0].0 == k then Some(a[0].1)
    else Lookup(a[1..], k)
  }

  predicate HasKey<V>(a: Assoc<V>, k: string)
  {
    Lookup(a, k).Some?
  }

  /** `o[k] = v`: an existing key keeps its position, a new key goes last. */
  function Put<V>(a: Assoc<V>, k: string, v: V): Assoc<V>
  {
    if a == [] then [(k, v)]
    else if a[0].0 == k then [(k, v)] + a[1..]
    else [a[0]] + Put(a[1..], k, v)
  }

  /** `{...a, ...b}`: the properties of `b`, in order, assigned onto a copy of `a`. */
  function Spread<V>(a: Assoc<V>, b: Assoc<V>): Assoc<V>
    decreases |b|
  {
    if b == [] then a else Spread(Put(a, b[0].0, b[0].1), b[1..])
  }

  lemma {:induction false} LookupPut<V>(a: Assoc<V>, k: string, v: V, k': string)
    ensures Lookup(Put(a, k, v), k') == if k' == k then Some(v) else Lookup(a, k')
  {
    if a != [] && a[0].0 != k {
      LookupPut(a[1..], k, v, k');
    }
  }

  lemma {:induction false} KeysPut<V>(a: Assoc<V>, k: string, v: V)
    ensures Keys(Put(a, k, v)) == if k in Keys(a) then Keys(a) else Keys(a) + [k]
  {
    if a != [] && a[0].0 != k {
      KeysPut(a[1..], k, v);
      assert Keys(a) == [a[0].0] + Keys(a[1..]);
    }
  }

  lemma {:induction false} PutUnique<V>(a: Assoc<V>, k: string, v: V)
    requires UniqueKeys(a)
    ensures UniqueKeys(Put(a, k, v))
  {
    KeysPut(a, k, v);
    var p := Put(a, k, v);
    forall i, j | 0 <= i < j < |p| ensures p[i].0 != p[j].0 {
      assert Keys(p)[i] == p[i].0 && Keys(p)[j] == p[j].0;
      assert Keys(a)[..] == Keys(a);
      if j < |a| {
        assert Keys(a)[i] == a[i].0 && Keys(a)[j] == a[j].0;
      } else {
        assert k !in Keys(a);
      }
    }
  }

  lemma {:induction false} LookupSpread<V>(a: Assoc<V>, b: Assoc<V>, k: string)
    requires UniqueKeys(b)
    ensures Lookup(Spread(a, b), k) == if k in Keys(b) then Lookup(b, k) else Lookup(a, k)
    decreases |b|
  {
    if b != [] {
      assert UniqueKeys(b[1..]);
      LookupSpread(Put(a, b[0].0, b[0].1), b[1..], k);
      LookupPut(a, b[0].0, b[0].1, k);
      assert Keys(b) == [b[0].0] + Keys(b[1..]);
      if k == b[0].0 {
        assert k !in Keys(b[1..]) by {
          forall i | 0 <= i < |b[1..]| ensures Keys(b[1..])[i] != k {
            assert b[1..][i] == b[i + 1];
          }
        }
      }
    }
  }

  lemma {:induction false} KeysSpread<V>(a: Assoc<V>, b: Assoc<V>, k: string)
    ensures k in Keys(Spread(a, b)) <==> k in Keys(a) || k in Keys(b)
    decreases |b|
  {
    if b != [] {
      KeysSpread(Put(a, b[0].0, b[0].1), b[1..], k);
      KeysPut(a, b[0].0, b[0].1);
      assert Keys(b) == [b[0].0] + Keys(b[1..]);
    }
  }

  lemma {:induction false} SpreadUnique<V>(a: Assoc<V>, b: Assoc<V>)
    requires UniqueKeys(a)
    ensures UniqueKeys(Spread(a, b))
    decreases |b|
  {
    if b != [] {
      PutUnique(a, b[0].0, b[0].1);
      SpreadUnique(Put(a, b[0].0, b[0].1), b[1..]);
    }
  }

  lemma {:induction false} KeysAppend<V>(a: Assoc<V>, e: (string, V))
    ensures Keys(a + [e]) == Keys(a) + [e.0]
  {
    var ks := Keys(a + [e]);
    assert |ks| == |Keys(a) + [e.0]|;
    forall i | 0 <= i < |ks| ensures ks[i] == (Keys(a) + [e.0])[i] {
      if i < |a| {
        assert (a + [e])[i] == a[i];
      }
    }
  }

  /** Looking up in an object with one more entry at the end. */
  lemma {:induction false} LookupAppend<V>(a: Assoc<V>, e: (string, V), k: string)
    ensures Lookup(a + [e], k) ==
      if k in Keys(a) then Lookup(a, k) else if k == e.0 then Some(e.1) else None
    decreases |a|
  {
    if a == [] {
      assert [] + [e] == [e];
    } else {
      assert (a + [e])[0] == a[0];
      assert (a + [e])[1..] == a[1..] + [e];
      assert Keys(a) == [a[0].0] + Keys(a[1..]);
      LookupAppend(a[1..], e, k);
    }
  }

  lemma UniqueKeysPrefix<V>(a: Assoc<V>, n: nat)
    requires UniqueKeys(a) && n <= |a|
    ensures UniqueKeys(a[..n])
  {
  }

  /** Spreading an object onto a copy of itself changes nothing, so the
      reference-identity shortcut of the base reducer agrees with the spread. */
  lemma {:induction false} PutExisting<V>(a: Assoc<V>, i: nat)
    requires UniqueKeys(a) && i < |a|
    ensures Put(a, a[i].0, a[i].1) == a
  {
    if i > 0 {
      assert a[0].0 != a[i].0;
      assert UniqueKeys(a[1..]);
      assert a[1..][i - 1] == a[i];
      PutExisting(a[1..], i - 1);
    }
  }

  lemma {:induction false} SpreadPrefixSelf<V>(a: Assoc<V>, n: nat)
    requires UniqueKeys(a) && n <= |a|
    ensures Spread(a, a[n..]) == a
    decreases |a| - n
  {
    if n < |a| {
      PutExisting(a, n);
      assert a[n..][1..] == a[n + 1..];
      SpreadPrefixSelf(a, n + 1);
    }
  }

  lemma SpreadSelf<V>(a: Assoc<V>)
    requires UniqueKeys(a)
    ensures Spread(a, a) == a
  {
    assert a[0..] == a;
    SpreadPrefixSelf(a, 0);
  }

  /** The index of the first entry satisfying `p`, as a `for ... in` loop with an
      early `return` finds it. */
  function FirstIndex<V>(a: Assoc<V>, p: (string, V) -> bool): (r: Option<nat>)
    ensures r.Some? ==> r.value < |a| && p(a[r.value].0, a[r.value].1)
    ensures r.Some? ==> forall j :: 0 <= j < r.value ==> !p(a[j].0, a[j].1)
    ensures r.None? <==> forall j :: 0 <= j < |a| ==> !p(a[j].0, a[j].1)
  {
    if a == [] then None
    else if p(a[0].0, a[0].1) then Some(0)
    else match FirstIndex(a[1..], p)
      case None => None
      case Some(i) => Some(i + 1)
  }

  // ---------------------------------------------------------------------------
  // Strings
  // ---------------------------------------------------------------------------

  /** `s.endsWith(suffix)` */
  predicate EndsWith(s: string, suffix: string)
  {
    |suffix| <= |s| && s[|s| - |suffix|..] == suffix
  }

  /** `s.split(c)[0]`: everything before the first `c`. */
  function BeforeFirst(s: string, c: char): (r: string)
    ensures r <= s && c !in r
    ensures |r| < |s| ==> s[|r|] == c
    ensures c !in s ==> r == s
  {
    if s == [] || s[0] == c then [] else [s[0]] + BeforeFirst(s[1..], c)
  }

  /** `s.split(c)` for a one-character separator. */
  function Split(s: string, c: char): (parts: seq<string>)
    ensures |parts| >= 1
    ensures forall i :: 0 <= i < |parts| ==> c !in parts[i]
    decreases |s|
  {
    var head := BeforeFirst(s, c);
    if |head| == |s| then [s] else [head] + Split(s[|head| + 1..], c)
  }

  /** `parts.join(c)` */
  function Join(parts: seq<string>, c: char): string
  {
    if parts == [] then ""
    else if |parts| == 1 then parts[0]
    else parts[0] + [c] + Join(parts[1..], c)
  }

  /** Splitting and joining on the same separator gives the string back. */
  lemma {:induction false} JoinSplit(s: string, c: char)
    ensures Join(Split(s, c), c) == s
    decreases |s|
  {
    var head := BeforeFirst(s, c);
    if |head| < |s| {
      var rest := s[|head| + 1..];
      var tail := Split(rest, c);
      var parts := [head] + tail;
      assert Split(s, c) == parts;
      assert parts[0] == head && parts[1..] == tail && |parts| > 1;
      assert Join(parts, c) == head + [c] + Join(tail, c);
      JoinSplit(rest, c);
      assert s == s[..|head|] + [s[|head|]] + rest;
    }
  }

  /** `s.split(c)[0]` is the text before the first `c`. */
  lemma SplitFirst(s: string, c: char)
    ensures Split(s, c)[0] == BeforeFirst(s, c)
  {
    var head := BeforeFirst(s, c);
    if |head| == |s| {
      assert head == s[..|head|] == s;
    }
  }

  function LowerChar(ch: char): char
  {
    if 'A' <= ch <= 'Z' then (ch as int + 32) as char else ch
  }

  /** `s.toLowerCase()` on the ASCII letters. */
  function ToLowerAscii(s: string): (r: string)
    ensures |r| == |s|
    ensures forall i :: 0 <= i < |s| ==> r[i] == LowerChar(s[i])
  {
    if s == [] then [] else [LowerChar(s[0])] + ToLowerAscii(s[1..])
  }
}
