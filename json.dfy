/** Loosely typed JSON values as the dashboard receives them from the
    risk-scoring service, with the handful of Python operations the code applies
    to them: truthiness, `dict.get`, `a or b`, `str(x)` and `float(x)`. */
module JsonValue {
  import opened Text

  datatype Option<T> = None | Some(value: T)

  /** A decoded JSON value.  Python keeps `int` and `float` apart (their `str`
      differs), so numbers are split into `JInt` and `JNum`.  Objects keep
      insertion order. */
  datatype Json =
    | JNull
    | JBool(b: bool)
    | JInt(i: int)
    | JNum(r: real)
    | JStr(s: string)
    | JArr(items: seq<Json>)
    | JObj(fields: seq<(string, Json)>)

  /** Python truthiness: `None`, `False`, `0`, `0.0`, `""`, `[]` and `{}` are false. */
  predicate Truthy(v: Json)
  {
    match v
    case JNull => false
    case JBool(b) => b
    case JInt(i) => i != 0
    case JNum(r) => r != 0.0
    case JStr(s) => s != []
    case JArr(items) => items != []
    case JObj(fields) => fields != []
  }

  /** A value Python can hash: a set element or a dict key.  Lists and
      dicts cannot be. */
  predicate Hashable(v: Json)
  {
    !v.JArr? && !v.JObj?
  }

  predicate IsObj(v: Json) { v.JObj? }

  function Keys<V>(fields: seq<(string, V)>): (ks: seq<string>)
    ensures |ks| == |fields|
    ensures forall i :: 0 <= i < |fields| ==> ks[i] == fields[i].0
  {
    seq(|fields|, i requires 0 <= i < |fields| => fields[i].0)
  }

  /** `d.get(k)` on the bindings of a dict: the value bound to `k`, if any.  A
      dict binds each key once, so the first binding is the binding. */
  function Get<V>(fields: seq<(string, V)>, k: string): (r: Option<V>)
    ensures r.None? <==> k !in Keys(fields)
    ensures r.Some? ==> (k, r.value) in fields
  {
    if fields == [] then None
    else if fields[0].0 == k then Some(fields[0].1)
    else
      assert Keys(fields) == [fields[0].0] + Keys(fields[1..]);
      Get(fields[1..], k)
  }

  /** A key bound once before position `k` is found at `k`. */
  lemma {:induction false} GetAt<V>(fields: seq<(string, V)>, k: nat)
    requires k < |fields|
    requires forall j :: 0 <= j < k ==> fields[j].0 != fields[k].0
    ensures Get(fields, fields[k].0) == Some(fields[k].1)
    decreases k
  {
    if k > 0 {
      GetAt(fields[1..], k - 1);
    }
  }

  /** `v.get(k)` with Python's `None` for an absent key; a value that is not a
      dict has no keys. */
  function At(v: Json, k: string): Json
  {
    if v.JObj? then (match Get(v.fields, k) case Some(x) => x case None => JNull) else JNull
  }

  predicate Has(v: Json, k: string)
  {
    v.JObj? && k in Keys(v.fields)
  }

  /** Python `a or b`. */
  function Or(a: Json, b: Json): (r: Json)
    ensures Truthy(a) ==> r == a
    ensures !Truthy(a) ==> r == b
  {
    if Truthy(a) then a else b
  }

  /** `v.get(k0) or v.get(k1) or ... or v.get(kn)`: the first truthy value, or the
      value of the last key when none is truthy. */
  function OrKeys(v: Json, keys: seq<string>): (r: Json)
    requires |keys| >= 1
    decreases |keys|
  {
    if |keys| == 1 then At(v, keys[0]) else Or(At(v, keys[0]), OrKeys(v, keys[1..]))
  }

  lemma {:induction false} OrKeysFirstTruthy(v: Json, keys: seq<string>, i: nat)
    requires i < |keys|
    requires Truthy(At(v, keys[i]))
    requires forall j :: 0 <= j < i ==> !Truthy(At(v, keys[j]))
    ensures OrKeys(v, keys) == At(v, keys[i])
    decreases i
  {
    if i > 0 {
      OrKeysFirstTruthy(v, keys[1..], i - 1);
    }
  }

  lemma {:induction false} OrKeysNoneTruthy(v: Json, keys: seq<string>)
    requires |keys| >= 1
    requires forall j :: 0 <= j < |keys| ==> !Truthy(At(v, keys[j]))
    ensures OrKeys(v, keys) == At(v, keys[|keys| - 1])
    decreases |keys|
  {
    if |keys| > 1 {
      OrKeysNoneTruthy(v, keys[1..]);
    }
  }

  /** A dict display or a run of `d[k] = v` assignments: the pairs bound in
      order, a later pair overwriting an earlier one with the same key. */
  function DictOf<V>(pairs: seq<(string, V)>): map<string, V>
  {
    if pairs == [] then map[]
    else DictOf(pairs[..|pairs| - 1])[pairs[|pairs| - 1].0 := pairs[|pairs| - 1].1]
  }

  /** Binding one more pair extends the dict by it. */
  lemma DictOfSnoc<V>(pairs: seq<(string, V)>, k: nat)
    requires k < |pairs|
    ensures DictOf(pairs[..k + 1]) == DictOf(pairs[..k])[pairs[k].0 := pairs[k].1]
  {
    assert pairs[..k + 1][..k] == pairs[..k];
  }

  /** Pair `k` is the one that survives: no later pair repeats its key. */
  predicate LastBinding<V>(pairs: seq<(string, V)>, k: nat)
    requires k < |pairs|
  {
    forall k' :: k < k' < |pairs| ==> pairs[k'].0 != pairs[k].0
  }

  /** Every key of the dict is the key of some pair. */
  lemma {:induction false} DictOfKeyBound<V>(pairs: seq<(string, V)>, key: string)
    requires key in DictOf(pairs)
    ensures exists k :: 0 <= k < |pairs| && pairs[k].0 == key
    decreases |pairs|
  {
    var n := |pairs| - 1;
    if key != pairs[n].0 {
      var init := pairs[..n];
      DictOfKeyBound(init, key);
      var k :| 0 <= k < n && init[k].0 == key;
      assert pairs[k].0 == key;
    }
  }

  /** The key of every pair is a key of the dict. */
  lemma {:induction false} DictOfHasKey<V>(pairs: seq<(string, V)>, k: nat)
    requires k < |pairs|
    ensures pairs[k].0 in DictOf(pairs)
    decreases |pairs|
  {
    var n := |pairs| - 1;
    if k < n {
      var init := pairs[..n];
      DictOfHasKey(init, k);
      assert init[k] == pairs[k];
    }
  }

  /** The surviving pair gives the key its value. */
  lemma {:induction false} DictOfValue<V>(pairs: seq<(string, V)>, k: nat)
    requires k < |pairs| && LastBinding(pairs, k)
    ensures pairs[k].0 in DictOf(pairs) && DictOf(pairs)[pairs[k].0] == pairs[k].1
    decreases |pairs|
  {
    var n := |pairs| - 1;
    if k < n {
      var init := pairs[..n];
      assert init[k] == pairs[k];
      assert LastBinding(init, k);
      DictOfValue(init, k);
    }
  }

  /** The keys of the dict are exactly the keys of the pairs. */
  lemma DictOfKeys<V>(pairs: seq<(string, V)>, key: string)
    ensures key in DictOf(pairs) <==> key in Keys(pairs)
  {
    if key in DictOf(pairs) {
      DictOfKeyBound(pairs, key);
      var k :| 0 <= k < |pairs| && pairs[k].0 == key;
      assert Keys(pairs)[k] == key;
    }
    if key in Keys(pairs) {
      var k :| 0 <= k < |pairs| && Keys(pairs)[k] == key;
      DictOfHasKey(pairs, k);
    }
  }

  /** `d.pop(k, None)` applied to the fields of a dict. */
  function Remove(fields: seq<(string, Json)>, k: string): (r: seq<(string, Json)>)
    ensures k !in Keys(r)
    ensures forall p :: p in r <==> p in fields && p.0 != k
    ensures |r| <= |fields|
  {
    if fields == [] then []
    else
      assert Keys(fields) == [fields[0].0] + Keys(fields[1..]);
      var rest := Remove(fields[1..], k);
      if fields[0].0 == k then rest
      else
        assert Keys([fields[0]] + rest) == [fields[0].0] + Keys(rest);
        [fields[0]] + rest
  }

  // ----------------------------------------------------------------- float()

  /** Python `float(s)` for the decimal forms `[+|-]digits[.digits]` (either side
      of the point may be empty, not both), after stripping whitespace. */
  function ParseFloat(s: string): (r: Option<real>)
    ensures r.Some? ==> Strip(s) != []
  {
    var t := Strip(s);
    if |t| > 0 && t[0] == '-' then
      match ParseUnsigned(t[1..]) case Some(x) => Some(-x) case None => None
    else if |t| > 0 && t[0] == '+' then ParseUnsigned(t[1..])
    else ParseUnsigned(t)
  }

  /** An unsigned `digits[.digits]`. */
  function ParseUnsigned(u: string): (r: Option<real>)
    ensures r.Some? ==> u != []
  {
    var p := FirstIndex(u, '.');
    Decimal(u[..p], if p < |u| then u[p + 1..] else "")
  }

  /** The number written `whole.frac`, when both are digits and not both empty. */
  function Decimal(whole: string, frac: string): (r: Option<real>)
    ensures r.Some? ==> |whole| + |frac| > 0
  {
    if |whole| + |frac| == 0 || !AllDigits(whole) || !AllDigits(frac) then None
    else Some(DecimalValue(whole, frac))
  }

  /** The value of the digits after a decimal point: `.d1d2...` is
      `(d1 + .d2...) / 10`. */
  function FracValue(frac: string): (x: real)
    requires AllDigits(frac)
    ensures 0.0 <= x < 1.0
    decreases |frac|
  {
    if frac == [] then 0.0
    else ((frac[0] as int - '0' as int) as real + FracValue(frac[1..])) / 10.0
  }

  /** The value of `whole.frac` written in decimal digits. */
  function DecimalValue(whole: string, frac: string): real
    requires AllDigits(whole) && AllDigits(frac)
  {
    DigitsValue(whole) as real + FracValue(frac)
  }

  /** Unsigned decimal text with a point. */
  lemma ParseFloatPoint(s: string, w: string, f: string)
    requires Strip(s) == s && s == w + "." + f && '.' !in w
    requires w == [] || (w[0] != '-' && w[0] != '+')
    ensures ParseFloat(s) == Decimal(w, f)
  {
    assert s[0] != '-' && s[0] != '+' by {
      if w == [] { assert s[0] == '.'; } else { assert s[0] == w[0]; }
    }
    assert ParseFloat(s) == ParseUnsigned(s);
    PointAt(s, w, f);
  }

  lemma PointAt(s: string, w: string, f: string)
    requires s == w + "." + f && '.' !in w
    ensures FirstIndex(s, '.') == |w| && s[..|w|] == w && s[|w| + 1..] == f
  {
    assert s[|w|] == '.';
    forall k | 0 <= k < |w| ensures s[k] != '.' {
      assert s[k] == w[k];
    }
  }

  /** Unsigned decimal text without a point. */
  lemma ParseFloatWhole(s: string)
    requires Strip(s) == s && '.' !in s && s != []
    requires s[0] != '-' && s[0] != '+'
    ensures ParseFloat(s) == Decimal(s, "")
  {
    assert ParseFloat(s) == ParseUnsigned(s);
    assert FirstIndex(s, '.') == |s|;
    assert s[..|s|] == s;
  }

  /** Python `float(v)`; `None` stands for the exception raised on `None`, lists,
      dicts and unparsable text. */
  function ToFloat(v: Json): (r: Option<real>)
    ensures v.JNull? || v.JArr? || v.JObj? ==> r.None?
    ensures v.JInt? ==> r == Some(v.i as real)
    ensures v.JNum? ==> r == Some(v.r)
    ensures v.JBool? ==> r == Some(if v.b then 1.0 else 0.0)
  {
    match v
    case JBool(b) => Some(if b then 1.0 else 0.0)
    case JInt(i) => Some(i as real)
    case JNum(x) => Some(x)
    case JStr(s) => ParseFloat(s)
    case _ => None
  }

  /** The elements a Python `for x in (v or [])` visits: a list's items, a
      dict's keys, a text's characters; `None` stands for the `TypeError` a
      truthy number or boolean raises. */
  function Iterate(v: Json): (r: Option<seq<Json>>)
    ensures !Truthy(v) ==> r == Some([])
    ensures v.JArr? ==> r == Some(v.items)
    ensures r.None? <==> Truthy(v) && (v.JBool? || v.JInt? || v.JNum?)
  {
    if !Truthy(v) then Some([])
    else match v
      case JArr(items) => Some(items)
      case JObj(fields) => Some(KeyTexts(fields))
      case JStr(s) => Some(CharTexts(s))
      case _ => None
  }

  /** The keys of a dict, as the values a loop over it visits. */
  function KeyTexts(fields: seq<(string, Json)>): (r: seq<Json>)
    ensures |r| == |fields| && forall i :: 0 <= i < |fields| ==> r[i] == JStr(fields[i].0)
  {
    seq(|fields|, i requires 0 <= i < |fields| => JStr(fields[i].0))
  }

  /** The characters of a text, as the one-character texts a loop over it visits. */
  function CharTexts(s: string): (r: seq<Json>)
    ensures |r| == |s| && forall i :: 0 <= i < |s| ==> r[i] == JStr([s[i]])
  {
    seq(|s|, i requires 0 <= i < |s| => JStr([s[i]]))
  }

  /** A float result stored back into a JSON-shaped record. */
  function FromOptReal(r: Option<real>): Json
  {
    match r case Some(x) => JNum(x) case None => JNull
  }

  // ------------------------------------------------------------------- str()

  /** Fractional digits of `n / 10^k` for `0 <= n < 10^k`, zero-padded to `k`. */
  function FracDigits(n: nat, k: nat): (r: string)
    ensures |r| == k
    decreases k
  {
    if k == 0 then "" else FracDigits(n / 10, k - 1) + [DigitChar(n % 10)]
  }

  function TrimZeros(s: string): (r: string)
    ensures |r| <= |s|
  {
    if s != [] && s[|s| - 1] == '0' then TrimZeros(s[..|s| - 1]) else s
  }

  const FracScale: nat := 100000000000000000

  /** `str(x)` for a float: integral values print as `n.0`; others print their
      decimal expansion cut after 17 fractional digits. */
  function RealToString(x: real): string
  {
    var neg := x < 0.0;
    var m := if neg then -x else x;
    var scaled := (m * FracScale as real).Floor;
    var frac := TrimZeros(FracDigits(scaled % FracScale, 17));
    (if neg then "-" else "") + IntToString(scaled / FracScale) + "." + (if frac == [] then "0" else frac)
  }

  /** Python `str(v)`; containers use a simplified rendering that only has to be
      distinct from every scalar's. */
  function Str(v: Json): string
  {
    match v
    case JNull => "None"
    case JBool(b) => if b then "True" else "False"
    case JInt(i) => IntToString(i)
    case JNum(x) => RealToString(x)
    case JStr(s) => s
    case JArr(items) => "[...]"
    case JObj(fields) => "{...}"
  }

  /** Python `str(v) == str(w)` where either side may be `None`, as used by the
      `None if x is None else str(x)` comparisons. */
  function StrOrNone(v: Json): Option<string>
  {
    if v.JNull? then None else Some(Str(v))
  }

  /** The first `k` values of `cs` are dicts. */
  predicate DictsUpTo(cs: seq<Json>, k: nat)
    requires k <= |cs|
  {
    forall j :: 0 <= j < k ==> cs[j].JObj?
  }

  /** One more dict extends the run of dicts. */
  lemma DictsUpToSnoc(cs: seq<Json>, k: nat)
    requires k < |cs| && DictsUpTo(cs, k) && cs[k].JObj?
    ensures DictsUpTo(cs, k + 1)
  {
  }
}
