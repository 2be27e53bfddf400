/**
 A model of the JavaScript values the framework's helpers move around:
 plain data (no functions), objects as string-keyed maps, and the two
 coercions the helpers rely on implicitly: reading a missing property
 yields `undefined`, and any value used as a property name is turned
 into a string key.
 */
module Values {

  /** A JSON-like JavaScript value. Numbers are restricted to integers. */
  datatype Value =
    | Undefined
    | Null
    | Bool(b: bool)
    | Num(n: int)
    | Str(s: string)
    | Arr(elems: seq<Value>)
    | Obj(props: map<string, Value>)

  /** A plain JavaScript object: its own enumerable properties. */
  type Object = map<string, Value>

  datatype Option<+T> = None | Some(value: T)

  /** Outcome of an operation that JavaScript would abort with a thrown error. */
  datatype Result<+T> = Ok(value: T) | Err(message: string)

  /** `o[k]` on a plain object: a missing property reads as `undefined`. */
  function Get(o: Object, k: string): (r: Value)
    ensures k !in o ==> r == Undefined
    ensures k in o ==> r == o[k]
  {
    if k in o then o[k] else Undefined
  }

  /** `typeof v === 'object' && v !== null`: objects and arrays. */
  predicate IsObjectLike(v: Value) {
    v.Obj? || v.Arr?
  }

  // ---------------------------------------------------------------------
  // Decimal keys: how a non-negative integer becomes a property name.

  function DigitChar(d: nat): char
    requires d < 10
  {
    "0123456789"[d]
  }

  function DigitValue(c: char): nat {
    if '0' <= c <= '9' then (c as int - '0' as int) as nat else 0
  }

  /** The canonical decimal spelling of `n`, as `String(n)` gives it. */
  function NatKey(n: nat): (k: string)
    ensures |k| >= 1
    ensures forall i :: 0 <= i < |k| ==> '0' <= k[i] <= '9'
    decreases n
  {
    if n < 10 then [DigitChar(n)] else NatKey(n / 10) + [DigitChar(n % 10)]
  }

  /** Reads a string of decimal digits back as a number. */
  function ParseKey(k: string): nat
    decreases |k|
  {
    if |k| == 0 then 0 else ParseKey(k[..|k| - 1]) * 10 + DigitValue(k[|k| - 1])
  }

  lemma {:induction false} DigitRoundTrip(d: nat)
    requires d < 10
    ensures DigitValue(DigitChar(d)) == d
  {
    var s := "0123456789";
    assert s[d] as int - '0' as int == d by {
      assert s[0] == '0' && s[1] == '1' && s[2] == '2' && s[3] == '3' && s[4] == '4';
      assert s[5] == '5' && s[6] == '6' && s[7] == '7' && s[8] == '8' && s[9] == '9';
    }
  }

  /** Parsing the decimal key of `n` gives back `n`. */
  lemma {:induction false} ParseNatKey(n: nat)
    ensures ParseKey(NatKey(n)) == n
    decreases n
  {
    if n < 10 {
      DigitRoundTrip(n);
      var k := NatKey(n);
      assert k[..|k| - 1] == [];
    } else {
      ParseNatKey(n / 10);
      DigitRoundTrip(n % 10);
      var k := NatKey(n);
      assert k[..|k| - 1] == NatKey(n / 10);
    }
  }

  /** Distinct numbers have distinct decimal keys. */
  lemma NatKeyInjective(m: nat, n: nat)
    ensures NatKey(m) == NatKey(n) <==> m == n
  {
    if NatKey(m) == NatKey(n) {
      ParseNatKey(m);
      ParseNatKey(n);
    }
  }

  // ---------------------------------------------------------------------
  // Property keys: `o[v]` converts `v` to a string first.

  /** `String(n)` for an integer. */
  function IntKey(n: int): string {
    if n < 0 then "-" + NatKey(-n) else NatKey(n)
  }

  /** `strs.join(',')`. */
  function JoinComma(strs: seq<string>): string
    decreases |strs|
  {
    if |strs| == 0 then ""
    else if |strs| == 1 then strs[0]
    else JoinComma(strs[..|strs| - 1]) + "," + strs[|strs| - 1]
  }

  /** The property key `v` denotes when used in `o[v]`. Arrays are keyed
      by `Array.prototype.join`, which spells `undefined` and `null` elements
      as empty strings. */
  function ToPropertyKey(v: Value): (k: string)
    ensures v.Str? ==> k == v.s
    ensures v.Num? && v.n >= 0 ==> k == NatKey(v.n)
    decreases v
  {
    match v
    case Undefined => "undefined"
    case Null => "null"
    case Bool(b) => if b then "true" else "false"
    case Num(n) => IntKey(n)
    case Str(s) => s
    case Obj(_) => "[object Object]"
    case Arr(es) =>
      JoinComma(seq(|es|, i requires 0 <= i < |es| =>
        if es[i].Undefined? || es[i].Null? then "" else ToPropertyKey(es[i])))
  }

  // ---------------------------------------------------------------------
  // Own enumerable properties, as `Object.assign` copies them.

  /** The index-keyed properties of an array-like sequence. */
  function IndexedProps(es: seq<Value>): (r: Object)
    ensures forall i :: 0 <= i < |es| ==> NatKey(i) in r && r[NatKey(i)] == es[i]
    ensures forall k :: k in r ==> ParseKey(k) < |es| && NatKey(ParseKey(k)) == k
    decreases |es|
  {
    if |es| == 0 then map[]
    else
      var n := |es| - 1;
      var prev := IndexedProps(es[..n]);
      IndexedPropsStep(es, prev);
      IndexedKeysStep(n, prev, es[n]);
      prev[NatKey(n) := es[n]]
  }

  /** Adding the last index never clobbers an earlier one. */
  lemma IndexedPropsStep(es: seq<Value>, prev: Object)
    requires |es| > 0
    requires forall i :: 0 <= i < |es| - 1 ==> NatKey(i) in prev && prev[NatKey(i)] == es[i]
    ensures var r := prev[NatKey(|es| - 1) := es[|es| - 1]];
      forall i :: 0 <= i < |es| ==> NatKey(i) in r && r[NatKey(i)] == es[i]
  {
    var n := |es| - 1;
    var r := prev[NatKey(n) := es[n]];
    forall i | 0 <= i < |es|
      ensures NatKey(i) in r && r[NatKey(i)] == es[i]
    {
      if i < n {
        NatKeyInjective(i, n);
      }
    }
  }

  /** Every key of the extended map is still a canonical index below the length. */
  lemma IndexedKeysStep(n: nat, prev: Object, v: Value)
    requires forall k :: k in prev ==> ParseKey(k) < n && NatKey(ParseKey(k)) == k
    ensures forall k :: k in prev[NatKey(n) := v] ==> ParseKey(k) < n + 1 && NatKey(ParseKey(k)) == k
  {
    ParseNatKey(n);
  }

  /** The own enumerable properties of a value: an object's fields, an
      array's or string's indexed entries, and nothing for other primitives. */
  function OwnProps(v: Value): (r: Object)
    ensures v.Obj? ==> r == v.props
    ensures !IsObjectLike(v) && !v.Str? ==> r == map[]
  {
    match v
    case Obj(p) => p
    case Arr(es) => IndexedProps(es)
    case Str(s) => IndexedProps(seq(|s|, i requires 0 <= i < |s| => Str([s[i]])))
    case _ => map[]
  }

  /** The object `Object.assign(target, src)` leaves behind: the own
      properties of `target` overwritten by those of `src`. */
  function Assign(target: Value, src: Value): (r: Value)
    ensures r.Obj?
    ensures r.props.Keys == OwnProps(target).Keys + OwnProps(src).Keys
    ensures forall p :: p in OwnProps(src) ==> r.props[p] == OwnProps(src)[p]
    ensures forall p :: p in OwnProps(target) && p !in OwnProps(src) ==> r.props[p] == OwnProps(target)[p]
  {
    Obj(OwnProps(target) + OwnProps(src))
  }
}
