/** ASCII text primitives with Python `str` semantics: case mapping, whitespace
    stripping, splitting, joining, code-point ordering and sorting.  Characters
    outside ASCII are left unchanged by the case mappings. */
module Text {

  /** The characters Python's `str.isspace` accepts in the ASCII range. */
  predicate IsSpace(c: char)
  {
    c == ' ' || c == '\t' || c == '\n' || c == '\r' || c == '\U{0B}' || c == '\U{0C}'
    || c == '\U{1C}' || c == '\U{1D}' || c == '\U{1E}' || c == '\U{1F}'
  }

  predicate IsLowerChar(c: char) { 'a' <= c <= 'z' }
  predicate IsUpperChar(c: char) { 'A' <= c <= 'Z' }
  predicate IsDigitChar(c: char) { '0' <= c <= '9' }

  function UpperChar(c: char): (r: char)
    ensures !IsLowerChar(r)
    ensures !IsLowerChar(c) ==> r == c
  {
    if IsLowerChar(c) then (c as int - 32) as char else c
  }

  function LowerChar(c: char): (r: char)
    ensures !IsUpperChar(r)
    ensures !IsUpperChar(c) ==> r == c
  {
    if IsUpperChar(c) then (c as int + 32) as char else c
  }

  /** `str.upper()` on ASCII text. */
  function Upper(s: string): (r: string)
    ensures |r| == |s|
    ensures forall i :: 0 <= i < |s| ==> r[i] == UpperChar(s[i])
  {
    seq(|s|, i requires 0 <= i < |s| => UpperChar(s[i]))
  }

  /** `str.lower()` on ASCII text. */
  function Lower(s: string): (r: string)
    ensures |r| == |s|
    ensures forall i :: 0 <= i < |s| ==> r[i] == LowerChar(s[i])
  {
    seq(|s|, i requires 0 <= i < |s| => LowerChar(s[i]))
  }

  predicate NoLower(s: string)
  {
    forall i :: 0 <= i < |s| ==> !IsLowerChar(s[i])
  }

  lemma UpperNoLower(s: string)
    ensures NoLower(Upper(s))
  {
  }

  lemma UpperFixed(s: string)
    requires NoLower(s)
    ensures Upper(s) == s
  {
  }

  /** Every character is an ASCII digit (true of the empty string). */
  predicate AllDigits(s: string)
  {
    forall i :: 0 <= i < |s| ==> IsDigitChar(s[i])
  }

  /** `str.isdigit()`: non-empty and all digits. */
  predicate IsDigits(s: string)
  {
    |s| > 0 && AllDigits(s)
  }

  // ---------------------------------------------------------------- stripping

  function LStrip(s: string): (r: string)
    ensures |r| <= |s| && r == s[|s| - |r|..]
    ensures r == [] || !IsSpace(r[0])
    decreases |s|
  {
    if |s| > 0 && IsSpace(s[0]) then LStrip(s[1..]) else s
  }

  function RStrip(s: string): (r: string)
    ensures |r| <= |s| && r == s[..|r|]
    ensures r == [] || !IsSpace(r[|r| - 1])
    decreases |s|
  {
    if |s| > 0 && IsSpace(s[|s| - 1]) then RStrip(s[..|s| - 1]) else s
  }

  /** `str.strip()`: removes leading and trailing whitespace. */
  function Strip(s: string): (r: string)
    ensures r == [] || (!IsSpace(r[0]) && !IsSpace(r[|r| - 1]))
    ensures forall c :: c in r ==> c in s
  {
    var l := LStrip(s);
    var r := RStrip(l);
    assert r == [] || r[0] == l[0];
    r
  }

  /** A text with no whitespace at either end is its own strip. */
  lemma StripFixed(s: string)
    requires s == [] || (!IsSpace(s[0]) && !IsSpace(s[|s| - 1]))
    ensures Strip(s) == s
  {
  }

  lemma StripKeepsNoLower(s: string)
    requires NoLower(s)
    ensures NoLower(Strip(s))
  {
    var r := Strip(s);
    forall i | 0 <= i < |r| ensures !IsLowerChar(r[i]) {
      assert r[i] in r;
    }
  }

  // ----------------------------------------------------------------- searching

  /** Index of the first occurrence of `c`, or `|s|` when there is none. */
  function FirstIndex(s: string, c: char): (i: nat)
    ensures i <= |s|
    ensures i < |s| ==> s[i] == c
    ensures forall j :: 0 <= j < i ==> s[j] != c
    ensures i == |s| <==> c !in s
    decreases |s|
  {
    if |s| == 0 then 0 else if s[0] == c then 0 else 1 + FirstIndex(s[1..], c)
  }

  predicate StartsWith(s: string, p: string)
  {
    |p| <= |s| && s[..|p|] == p
  }

  predicate EndsWith(s: string, p: string)
  {
    |p| <= |s| && s[|s| - |p|..] == p
  }

  /** Python's `sub in s` for texts. */
  predicate Contains(s: string, sub: string)
    decreases |s|
  {
    StartsWith(s, sub) || (|s| > 0 && Contains(s[1..], sub))
  }

  /** Index of the first occurrence of a non-empty `sub` in `s`, or `|s|` when
      there is none. */
  function FindSub(s: string, sub: string): (i: nat)
    requires sub != []
    ensures i <= |s|
    ensures i < |s| ==> i + |sub| <= |s| && s[i..i + |sub|] == sub
    ensures i < |s| <==> Contains(s, sub)
    ensures forall j :: 0 <= j < i ==> !StartsWith(s[j..], sub)
    decreases |s|
  {
    if |s| < |sub| then
      assert !Contains(s, sub) by { NotContainsShort(s, sub); }
      |s|
    else if s[..|sub|] == sub then 0
    else
      var k := FindSub(s[1..], sub);
      assert forall j :: 1 <= j <= |s| ==> s[1..][j - 1..] == s[j..];
      1 + k
  }

  /** A text that starts with `sub` has it at position 0. */
  lemma FindSubAt0(s: string, sub: string)
    requires sub != [] && |s| >= |sub| && s[..|sub|] == sub
    ensures FindSub(s, sub) == 0
  {
  }

  /** A text that does not start with `sub` is searched from its second
      character. */
  lemma FindSubSkip(s: string, sub: string)
    requires sub != [] && |s| >= |sub| && s[0] != sub[0]
    ensures FindSub(s, sub) == 1 + FindSub(s[1..], sub)
  {
    assert s[..|sub|][0] != sub[0];
  }

  lemma {:induction false} NotContainsShort(s: string, sub: string)
    requires sub != [] && |s| < |sub|
    ensures !Contains(s, sub)
    decreases |s|
  {
    if |s| > 0 { NotContainsShort(s[1..], sub); }
  }

  // ------------------------------------------------------- replacing, splitting

  /** `s.replace(a, b)` for single characters. */
  function ReplaceChar(s: string, a: char, b: char): (r: string)
    ensures |r| == |s|
    ensures forall i :: 0 <= i < |s| ==> r[i] == if s[i] == a then b else s[i]
  {
    seq(|s|, i requires 0 <= i < |s| => if s[i] == a then b else s[i])
  }

  lemma ReplaceAbsent(s: string, a: char, b: char)
    requires a !in s
    ensures ReplaceChar(s, a, b) == s
  {
  }

  predicate NoDoubleDot(s: string)
  {
    forall i :: 0 <= i < |s| - 1 ==> !(s[i] == '.' && s[i + 1] == '.')
  }

  /** The fixpoint of `while ".." in s: s = s.replace("..", ".")`: every run of
      dots shrinks to one dot. */
  function CollapseDots(s: string): (r: string)
    ensures |r| <= |s|
    ensures forall c :: c in r ==> c in s
    ensures s != [] ==> r != [] && r[0] == s[0]
    decreases |s|
  {
    if |s| < 2 then s
    else if s[0] == '.' && s[1] == '.' then CollapseDots(s[1..])
    else [s[0]] + CollapseDots(s[1..])
  }

  lemma {:induction false} CollapseNoDoubleDot(s: string)
    ensures NoDoubleDot(CollapseDots(s))
    decreases |s|
  {
    if |s| >= 2 {
      CollapseNoDoubleDot(s[1..]);
      if !(s[0] == '.' && s[1] == '.') {
        var t := CollapseDots(s[1..]);
        assert t[0] == s[1];
        var r := [s[0]] + t;
        forall i | 0 <= i < |r| - 1 ensures !(r[i] == '.' && r[i + 1] == '.') {
          if i > 0 { assert r[i] == t[i - 1] && r[i + 1] == t[i]; }
        }
      }
    }
  }

  lemma {:induction false} CollapseFixed(s: string)
    requires NoDoubleDot(s)
    ensures CollapseDots(s) == s
    decreases |s|
  {
    if |s| >= 2 {
      assert NoDoubleDot(s[1..]) by {
        forall i | 0 <= i < |s[1..]| - 1 ensures !(s[1..][i] == '.' && s[1..][i + 1] == '.') {
          assert s[1..][i] == s[i + 1] && s[1..][i + 1] == s[i + 2];
        }
      }
      CollapseFixed(s[1..]);
      assert !(s[0] == '.' && s[1] == '.');
      assert [s[0]] + s[1..] == s;
    }
  }

  /** `s.split(c)`, Python semantics: always at least one (possibly empty) part. */
  function Split(s: string, c: char): (r: seq<string>)
    ensures |r| >= 1
    ensures forall i :: 0 <= i < |r| ==> c !in r[i]
    decreases |s|
  {
    var i := FirstIndex(s, c);
    if i == |s| then [s] else [s[..i]] + Split(s[i + 1..], c)
  }

  /** Every part of a split is made of characters of the text. */
  lemma {:induction false} SplitChars(s: string, c: char)
    ensures forall p, ch :: p in Split(s, c) && ch in p ==> ch in s
    decreases |s|
  {
    var i := FirstIndex(s, c);
    if i < |s| {
      var rest := s[i + 1..];
      SplitChars(rest, c);
      assert Split(s, c) == [s[..i]] + Split(rest, c);
      forall p, ch | p in Split(s, c) && ch in p ensures ch in s {
        if p == s[..i] {
          var k :| 0 <= k < |p| && p[k] == ch;
          assert s[k] == ch;
        } else {
          assert p in Split(rest, c);
          assert ch in rest;
          var k :| 0 <= k < |rest| && rest[k] == ch;
          assert s[i + 1 + k] == ch;
        }
      }
    }
  }

  /** `[p for p in parts if p]`. */
  function NonEmpty(parts: seq<string>): (r: seq<string>)
    ensures |r| <= |parts|
    ensures forall i :: 0 <= i < |r| ==> r[i] != [] && r[i] in parts
  {
    if parts == [] then []
    else if parts[0] == [] then NonEmpty(parts[1..])
    else [parts[0]] + NonEmpty(parts[1..])
  }

  /** `[p for p in s.split(c) if p]`. */
  function Parts(s: string, c: char): (r: seq<string>)
    ensures forall i :: 0 <= i < |r| ==> r[i] != [] && c !in r[i]
  {
    NonEmpty(Split(s, c))
  }

  lemma PartsChars(s: string, c: char)
    ensures forall p, ch :: p in Parts(s, c) && ch in p ==> ch in s
  {
    SplitChars(s, c);
    forall p, ch | p in Parts(s, c) && ch in p ensures ch in s {
      var j :| 0 <= j < |Parts(s, c)| && Parts(s, c)[j] == p;
      assert p in Split(s, c);
    }
  }

  /** Appending sequences regroups freely. */
  lemma AppendAssoc<T>(a: seq<T>, b: seq<T>, c: seq<T>)
    ensures (a + b) + c == a + (b + c)
  {
  }

  /** Membership in a concatenation of per-element pieces, one element
      more: `all` is `prev` followed by the last element's piece. */
  lemma MembersSnoc<A, T>(xs: seq<A>, init: seq<A>, f: A -> seq<T>, prev: seq<T>, all: seq<T>, y: T)
    requires xs != [] && init == xs[..|xs| - 1] && all == prev + f(xs[|xs| - 1])
    requires y in prev <==> exists i :: 0 <= i < |init| && y in f(init[i])
    ensures y in all <==> exists i :: 0 <= i < |xs| && y in f(xs[i])
  {
    assert forall i :: 0 <= i < |init| ==> init[i] == xs[i];
  }

  /** `ys` is `f` applied to the first `n` elements of `xs`. */
  ghost predicate MapsPrefix<A, B>(f: A -> B, xs: seq<A>, ys: seq<B>, n: nat)
    requires n <= |xs|
  {
    |ys| == n && forall k :: 0 <= k < n ==> ys[k] == f(xs[k])
  }

  lemma MapsPrefixSnoc<A, B>(f: A -> B, xs: seq<A>, ys: seq<B>, n: nat)
    requires n < |xs| && MapsPrefix(f, xs, ys, n)
    ensures MapsPrefix(f, xs, ys + [f(xs[n])], n + 1)
  {
  }

  lemma SplitCons(a: string, rest: string, c: char)
    requires c !in a
    ensures Split(a + [c] + rest, c) == [a] + Split(rest, c)
  {
    var s := a + [c] + rest;
    assert s[|a|] == c;
    assert FirstIndex(s, c) == |a| by {
      forall k | 0 <= k < |a| ensures s[k] != c {
        assert s[k] == a[k];
      }
    }
    assert s[..|a|] == a && s[|a| + 1..] == rest;
  }

  lemma SplitLast(b: string, c: char)
    requires c !in b
    ensures Split(b, c) == [b]
  {
    assert FirstIndex(b, c) == |b|;
  }

  lemma SplitTwo(a: string, b: string, c: char)
    requires c !in a && c !in b
    ensures Split(a + [c] + b, c) == [a, b]
  {
    SplitCons(a, b, c);
    SplitLast(b, c);
  }

  lemma SplitThreeNested(a: string, b: string, d: string, c: char)
    requires c !in a && c !in b && c !in d
    ensures Split(a + [c] + (b + [c] + d), c) == [a, b, d]
  {
    SplitCons(a, b + [c] + d, c);
    SplitTwo(b, d, c);
  }

  lemma RegroupThree(a: string, b: string, d: string, c: char)
    ensures a + [c] + b + [c] + d == a + [c] + (b + [c] + d)
  {
  }

  lemma SplitThree(a: string, b: string, d: string, c: char)
    requires c !in a && c !in b && c !in d
    ensures Split(a + [c] + b + [c] + d, c) == [a, b, d]
  {
    RegroupThree(a, b, d, c);
    SplitThreeNested(a, b, d, c);
  }

  lemma NonEmptyCons(p: string, ps: seq<string>)
    ensures NonEmpty([p] + ps) == (if p == [] then [] else [p]) + NonEmpty(ps)
  {
    assert ([p] + ps)[1..] == ps;
  }

  lemma PartsTwo(a: string, b: string, c: char)
    requires a != [] && b != [] && c !in a && c !in b
    ensures Parts(a + [c] + b, c) == [a, b]
  {
    SplitTwo(a, b, c);
    NonEmptyCons(b, []);
    NonEmptyCons(a, [b]);
  }

  lemma PartsThree(a: string, b: string, d: string, c: char)
    requires a != [] && b != [] && d != [] && c !in a && c !in b && c !in d
    ensures Parts(a + [c] + b + [c] + d, c) == [a, b, d]
  {
    SplitThree(a, b, d, c);
    NonEmptyCons(d, []);
    NonEmptyCons(b, [d]);
    NonEmptyCons(a, [b, d]);
  }

  /** `sep.join(parts)`. */
  function Join(parts: seq<string>, sep: string): string
  {
    if parts == [] then ""
    else if |parts| == 1 then parts[0]
    else parts[0] + sep + Join(parts[1..], sep)
  }

  /** The texts of a list of lists, concatenated in order. */
  function Flatten(xss: seq<seq<string>>): (r: seq<string>)
  {
    if xss == [] then [] else Flatten(xss[..|xss| - 1]) + xss[|xss| - 1]
  }

  lemma FlattenSnoc(xss: seq<seq<string>>, xs: seq<string>)
    ensures Flatten(xss + [xs]) == Flatten(xss) + xs
  {
    assert (xss + [xs])[..|xss|] == xss;
  }

  /** A text is in the concatenation exactly when it is in one of the lists. */
  lemma {:induction false} FlattenMembers(xss: seq<seq<string>>, c: string)
    ensures c in Flatten(xss) <==> exists j :: 0 <= j < |xss| && c in xss[j]
    decreases |xss|
  {
    if xss != [] {
      var init := xss[..|xss| - 1];
      FlattenMembers(init, c);
      if c in Flatten(init) {
        var j :| 0 <= j < |init| && c in init[j];
        assert xss[j] == init[j];
      }
      if exists j :: 0 <= j < |xss| && c in xss[j] {
        var j :| 0 <= j < |xss| && c in xss[j];
        if j < |init| { assert init[j] == xss[j]; }
      }
    }
  }

  /** Each text after the first, with the blank that `", "` leaves in front. */
  function Spaced(parts: seq<string>): (r: seq<string>)
    ensures |r| == |parts| && forall i :: 0 <= i < |parts| ==> r[i] == " " + parts[i]
  {
    seq(|parts|, i requires 0 <= i < |parts| => " " + parts[i])
  }

  predicate NoCommaIn(parts: seq<string>)
  {
    forall i :: 0 <= i < |parts| ==> ',' !in parts[i]
  }

  lemma {:induction false} JoinSplitAfter(pre: string, parts: seq<string>)
    requires parts != [] && ',' !in pre && NoCommaIn(parts)
    ensures Split(pre + Join(parts, ", "), ',') == [pre + parts[0]] + Spaced(parts[1..])
    decreases |parts|
  {
    var head := pre + parts[0];
    assert ',' !in head;
    if |parts| == 1 {
      assert pre + Join(parts, ", ") == head;
      SplitLast(head, ',');
    } else {
      var rest := parts[1..];
      var tail := " " + Join(rest, ", ");
      JoinRegroup(pre, parts);
      SplitCons(head, tail, ',');
      assert NoCommaIn(rest) by {
        forall i | 0 <= i < |rest| ensures ',' !in rest[i] { assert rest[i] == parts[i + 1]; }
      }
      JoinSplitAfter(" ", rest);
      SpacedCons(rest);
    }
  }

  lemma SpacedCons(parts: seq<string>)
    requires parts != []
    ensures Spaced(parts) == [" " + parts[0]] + Spaced(parts[1..])
  {
  }

  lemma JoinRegroup(pre: string, parts: seq<string>)
    requires |parts| >= 2
    ensures pre + Join(parts, ", ") == (pre + parts[0]) + [','] + (" " + Join(parts[1..], ", "))
  {
  }

  /** Splitting `", ".join(parts)` at the commas gives the parts back, each
      but the first behind one blank, when no part has a comma. */
  lemma JoinSplit(parts: seq<string>)
    requires parts != [] && NoCommaIn(parts)
    ensures Split(Join(parts, ", "), ',') == [parts[0]] + Spaced(parts[1..])
  {
    JoinSplitAfter("", parts);
    assert "" + Join(parts, ", ") == Join(parts, ", ") && "" + parts[0] == parts[0];
  }

  /** `s.zfill(2)` for a text of digits: left-pads with zeros to length two. */
  function ZFill2(s: string): (r: string)
    ensures |r| >= 2 && |r| >= |s|
    ensures AllDigits(s) ==> AllDigits(r)
    ensures |s| >= 2 ==> r == s
  {
    if |s| >= 2 then s else if |s| == 1 then "0" + s else "00"
  }

  // ------------------------------------------------------------------ numbers

  function DigitChar(d: nat): (c: char)
    requires d < 10
    ensures IsDigitChar(c)
  {
    ('0' as int + d) as char
  }

  /** Decimal text of a natural number. */
  function NatToString(n: nat): (r: string)
    ensures |r| >= 1 && AllDigits(r)
    decreases n
  {
    if n < 10 then [DigitChar(n)] else NatToString(n / 10) + [DigitChar(n % 10)]
  }

  /** Python `str(n)` for an `int`. */
  function IntToString(i: int): string
  {
    if i < 0 then "-" + NatToString(-i) else NatToString(i)
  }

  function DigitsValue(s: string): (n: nat)
    requires AllDigits(s)
    decreases |s|
  {
    if s == [] then 0 else DigitsValue(s[..|s| - 1]) * 10 + (s[|s| - 1] as int - '0' as int)
  }

  function Pow10(k: nat): (p: nat)
    ensures p >= 1
  {
    if k == 0 then 1 else 10 * Pow10(k - 1)
  }

  // --------------------------------------------------------- ordering, sorting

  /** Python's `a <= b` on texts: lexicographic by code point. */
  predicate StrLe(a: string, b: string)
    decreases |a|
  {
    |a| == 0 || (|b| > 0 && (a[0] < b[0] || (a[0] == b[0] && StrLe(a[1..], b[1..]))))
  }

  predicate StrLt(a: string, b: string)
  {
    StrLe(a, b) && a != b
  }

  lemma {:induction false} StrLeTotal(a: string, b: string)
    ensures StrLe(a, b) || StrLe(b, a)
    decreases |a|
  {
    if |a| > 0 && |b| > 0 && a[0] == b[0] {
      StrLeTotal(a[1..], b[1..]);
    }
  }

  lemma {:induction false} StrLeAntisym(a: string, b: string)
    requires StrLe(a, b) && StrLe(b, a)
    ensures a == b
    decreases |a|
  {
    if |a| > 0 {
      StrLeAntisym(a[1..], b[1..]);
      assert a == [a[0]] + a[1..] && b == [b[0]] + b[1..];
    }
  }

  lemma {:induction false} StrLeTrans(a: string, b: string, c: string)
    requires StrLe(a, b) && StrLe(b, c)
    ensures StrLe(a, c)
    decreases |a|
  {
    if |a| > 0 && a[0] == b[0] && b[0] == c[0] {
      StrLeTrans(a[1..], b[1..], c[1..]);
    }
  }

  lemma StrLeRefl(a: string)
    ensures StrLe(a, a)
  {
  }

  predicate Sorted(s: seq<string>)
  {
    forall i, j :: 0 <= i < j < |s| ==> StrLe(s[i], s[j])
  }

  predicate StrictlyIncreasing(s: seq<string>)
  {
    forall i, j :: 0 <= i < j < |s| ==> StrLt(s[i], s[j])
  }

  function Insert(x: string, s: seq<string>): (r: seq<string>)
    ensures multiset(r) == multiset(s) + multiset{x}
  {
    if s == [] then [x]
    else if StrLe(x, s[0]) then [x] + s
    else
      assert s == [s[0]] + s[1..];
      [s[0]] + Insert(x, s[1..])
  }

  lemma {:induction false} InsertSorted(x: string, s: seq<string>)
    requires Sorted(s)
    ensures Sorted(Insert(x, s))
    decreases |s|
  {
    if s != [] {
      if StrLe(x, s[0]) {
        var r := [x] + s;
        forall i, j | 0 <= i < j < |r| ensures StrLe(r[i], r[j]) {
          if i == 0 && j > 1 { StrLeTrans(x, s[0], s[j - 1]); }
        }
      } else {
        StrLeTotal(x, s[0]);
        InsertSorted(x, s[1..]);
        var t := Insert(x, s[1..]);
        var r := [s[0]] + t;
        forall i, j | 0 <= i < j < |r| ensures StrLe(r[i], r[j]) {
          if i == 0 {
            assert r[j] in multiset(t);
            assert r[j] in multiset(s[1..]) + multiset{x};
            if r[j] == x {
            } else {
              assert r[j] in s[1..];
              var k :| 0 <= k < |s[1..]| && s[1..][k] == r[j];
              assert s[k + 1] == r[j];
            }
          }
        }
      }
    }
  }

  /** Python `sorted(...)` on texts (insertion sort). */
  function Sort(s: seq<string>): (r: seq<string>)
    ensures multiset(r) == multiset(s)
    ensures |r| == |s|
  {
    if s == [] then []
    else
      assert s == [s[0]] + s[1..];
      var r := Insert(s[0], Sort(s[1..]));
      assert |r| == |multiset(r)| == |multiset(s)| == |s|;
      r
  }

  lemma {:induction false} SortSorted(s: seq<string>)
    ensures Sorted(Sort(s))
  {
    if s != [] {
      SortSorted(s[1..]);
      InsertSorted(s[0], Sort(s[1..]));
    }
  }

  /** Keeps the last occurrence of each text, in order. */
  function Unique(s: seq<string>): (r: seq<string>)
    ensures forall x :: x in r <==> x in s
    ensures forall i, j :: 0 <= i < j < |r| ==> r[i] != r[j]
  {
    if s == [] then []
    else
      var rest := Unique(s[1..]);
      if s[0] in rest then rest
      else
        assert forall x :: x in s <==> x == s[0] || x in s[1..];
        [s[0]] + rest
  }

  lemma DistinctMultiset(s: seq<string>, i: nat, j: nat)
    requires 0 <= i < j < |s|
    requires s[i] == s[j]
    ensures multiset(s)[s[i]] >= 2
  {
    var a := s[..j];
    assert s == a + s[j..];
    assert s[i] in a;
    assert multiset(s) == multiset(a) + multiset(s[j..]);
    assert s[j..][0] == s[i];
  }

  lemma NoDupMultiset(s: seq<string>, x: string)
    requires forall i, j :: 0 <= i < j < |s| ==> s[i] != s[j]
    ensures multiset(s)[x] <= 1
    decreases |s|
  {
    if s != [] {
      NoDupMultiset(s[1..], x);
      assert s == [s[0]] + s[1..];
      if s[0] == x {
        forall k | 0 <= k < |s[1..]| ensures s[1..][k] != x {
          assert s[k + 1] != s[0];
        }
        assert x !in s[1..];
      }
    }
  }

  /** Python `sorted(set(s))`: ascending, without repetition, same elements. */
  function SortedSet(s: seq<string>): (r: seq<string>)
    ensures forall x :: x in r <==> x in s
    ensures StrictlyIncreasing(r)
  {
    var u := Unique(s);
    var r := Sort(u);
    SortSorted(u);
    assert forall x :: x in r <==> x in multiset(r);
    forall i, j | 0 <= i < j < |r| ensures StrLt(r[i], r[j]) {
      if r[i] == r[j] {
        DistinctMultiset(r, i, j);
        NoDupMultiset(u, r[i]);
        assert false;
      }
    }
    r
  }
}
