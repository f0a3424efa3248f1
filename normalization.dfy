/** Canonical form of NIST CSF control references (`PR.PS-01`) and their
    function.category prefix (`PR.PS`), as used to join scan rows to the
    category→control tables. */
module Normalization {
  import opened Text
  import opened JsonValue

  /** `x.replace("_", ".").replace("-", ".")` rewritten until no `..` remains. */
  function Dotted(x: string): (r: string)
    ensures '_' !in r && '-' !in r
    ensures NoDoubleDot(r)
    ensures forall c :: c in r ==> c in x || c == '.'
    ensures x != [] ==> r != [] && (r[0] == x[0] || r[0] == '.')
  {
    var y := ReplaceChar(ReplaceChar(x, '_', '.'), '-', '.');
    assert forall c :: c in y ==> c in x || c == '.' by {
      forall c | c in y ensures c in x || c == '.' {
        var i :| 0 <= i < |y| && y[i] == c;
      }
    }
    CollapseNoDoubleDot(y);
    CollapseDots(y)
  }

  /** A reference assembled from a dotted head and a tail, a tail of digits
      padded to at least two. */
  function Canonical(head: string, tail: string): string
  {
    head + "-" + (if IsDigits(tail) then ZFill2(tail) else tail)
  }

  /** `norm_ref(s)`: uppercase and trim; with a hyphen, normalise the text
      before the first hyphen to dots and pad a numeric tail; without one,
      rebuild `A.B-NN` from dot/underscore segments whose third is numeric,
      and otherwise return the trimmed uppercase text. */
  function NormRef(s: string): (r: string)
    ensures s == [] ==> r == []
  {
    if s == [] then "" else NormTrimmed(Strip(Upper(s)))
  }

  /** `norm_ref` after the uppercase-and-trim step. */
  function NormTrimmed(u: string): string
  {
    if '-' in u then NormHyphen(u) else NormSegments(u)
  }

  /** The hyphen branch: split at the first hyphen. */
  function NormHyphen(u: string): string
    requires '-' in u
  {
    var i := FirstIndex(u, '-');
    Canonical(Dotted(u[..i]), Strip(u[i + 1..]))
  }

  /** The hyphen-free branch: rebuild `A.B-NN` when the third segment is
      numeric, else keep the text. */
  function NormSegments(u: string): string
  {
    var parts := Parts(Dotted(u), '.');
    if |parts| >= 3 && IsDigits(parts[2]) then
      parts[0] + "." + parts[1] + "-" + ZFill2(parts[2])
    else u
  }

  /** `norm_ref` applied to an arbitrary cell: falsy values give `""`, others
      their `str`. */
  function NormRefValue(v: Json): (r: string)
    ensures !Truthy(v) ==> r == []
    ensures v.JStr? ==> r == NormRef(v.s)
  {
    if !Truthy(v) then "" else NormRef(Str(v))
  }

  /** The text before the first hyphen, or all of it. */
  function BeforeHyphen(u: string): string
  {
    if '-' in u then u[..FirstIndex(u, '-')] else u
  }

  /** The non-empty dot segments of the text before the first hyphen. */
  function PrefixParts(x: string): (parts: seq<string>)
    ensures forall k :: 0 <= k < |parts| ==>
      (parts[k] != [] && '.' !in parts[k] && '-' !in parts[k] && '_' !in parts[k])
  {
    var d := Dotted(BeforeHyphen(Strip(Upper(x))));
    var parts := Parts(d, '.');
    PartsChars(d, '.');
    parts
  }

  /** The first two segments joined by a dot, a lone segment, or `""`. */
  function FirstTwo(parts: seq<string>): string
  {
    if |parts| >= 2 then parts[0] + "." + parts[1]
    else if |parts| == 1 then parts[0]
    else ""
  }

  /** `prefix(x)`: the first two non-empty dot segments of the text before the
      first hyphen, joined by one dot; a single segment alone; else `""`. */
  function Prefix(x: string): (r: string)
    ensures x == [] ==> r == []
  {
    if x == [] then "" else FirstTwo(PrefixParts(x))
  }

  /** A prefix has no hyphen or underscore and at most one dot. */
  lemma PrefixShape(x: string)
    ensures var r := Prefix(x);
      '-' !in r && '_' !in r
      && forall i, j :: 0 <= i < j < |r| && r[i] == '.' ==> r[j] != '.'
  {
    var r := Prefix(x);
    if x != [] {
      var parts := PrefixParts(x);
      if |parts| >= 2 {
        var a, b := parts[0], parts[1];
        assert r == a + "." + b;
        forall k | 0 <= k < |a| ensures r[k] != '.' && r[k] != '-' && r[k] != '_' {
          assert r[k] == a[k];
          assert a[k] in a;
        }
        forall k | |a| < k < |r| ensures r[k] != '.' && r[k] != '-' && r[k] != '_' {
          assert r[k] == b[k - |a| - 1];
          assert b[k - |a| - 1] in b;
        }
      } else if |parts| == 1 {
        forall i | 0 <= i < |r| ensures r[i] != '.' { assert r[i] in parts[0]; }
      }
    }
  }

  // ------------------------------------------------------------ building blocks

  /** A dot segment of a normalised reference. */
  predicate Segment(p: string)
  {
    p != [] && '.' !in p && '-' !in p && '_' !in p && NoLower(p)
  }

  /** Uppercased, trimmed text: what `norm_ref` works on after its first step. */
  predicate Trimmed(u: string)
  {
    NoLower(u) && (u == [] || (!IsSpace(u[0]) && !IsSpace(u[|u| - 1])))
  }

  /** A head the hyphen branch leaves as it is. */
  predicate NormalHead(head: string)
  {
    '-' !in head && '_' !in head && NoDoubleDot(head) && NoLower(head)
    && (head == [] || !IsSpace(head[0]))
  }

  lemma TrimmedOf(s: string)
    ensures Trimmed(Strip(Upper(s)))
  {
    UpperNoLower(s);
    StripKeepsNoLower(Upper(s));
  }

  lemma TrimmedFixed(u: string)
    requires Trimmed(u)
    ensures Strip(Upper(u)) == u
  {
    UpperFixed(u);
    StripFixed(u);
  }

  lemma JoinTwoFacts(a: string, b: string)
    requires Segment(a) && Segment(b)
    ensures var h := a + "." + b;
      '-' !in h && '_' !in h && NoDoubleDot(h) && NoLower(h) && h[0] == a[0]
      && Parts(h, '.') == [a, b]
  {
    var h := a + "." + b;
    assert forall i :: 0 <= i < |a| ==> h[i] == a[i];
    assert h[|a|] == '.';
    assert forall i :: |a| < i < |h| ==> h[i] == b[i - |a| - 1];
    assert a[0] in a;
    assert NoDoubleDot(h) by {
      forall i | 0 <= i < |h| - 1 ensures !(h[i] == '.' && h[i + 1] == '.') {
        if i < |a| { assert h[i] == a[i]; assert a[i] in a; }
        else { assert h[i + 1] == b[i - |a|]; assert b[i - |a|] in b; }
      }
    }
    assert NoLower(h) by {
      forall i | 0 <= i < |h| ensures !IsLowerChar(h[i]) {
        if i < |a| { assert h[i] == a[i]; }
        else if i > |a| { assert h[i] == b[i - |a| - 1]; }
      }
    }
    PartsTwo(a, b, '.');
  }

  /** The segments of a text with no lowercase letters inherit that. */
  lemma SegmentsOf(u: string)
    requires NoLower(u) && '-' !in u
    ensures var parts := Parts(Dotted(u), '.');
      forall k :: 0 <= k < |parts| ==> Segment(parts[k])
  {
    var d := Dotted(u);
    var parts := Parts(d, '.');
    PartsChars(d, '.');
    forall k | 0 <= k < |parts| ensures Segment(parts[k]) {
      var p := parts[k];
      forall m | 0 <= m < |p| ensures !IsLowerChar(p[m]) && p[m] != '-' && p[m] != '_' {
        assert p[m] in p;
        assert p[m] in d;
        if p[m] != '.' {
          var j :| 0 <= j < |u| && u[j] == p[m];
        }
      }
    }
  }

  lemma JoinedTrimmed(head: string, tail: string)
    requires NoLower(head) && (head == [] || !IsSpace(head[0]))
    requires NoLower(tail) && (tail == [] || !IsSpace(tail[|tail| - 1]))
    ensures Trimmed(head + "-" + tail)
  {
    var r := head + "-" + tail;
    assert r[|head|] == '-';
    assert NoLower(r) by {
      forall k | 0 <= k < |r| ensures !IsLowerChar(r[k]) {
        if k < |head| { assert r[k] == head[k]; }
        else if k > |head| { assert r[k] == tail[k - |head| - 1]; }
      }
    }
    assert r[0] == if head == [] then '-' else head[0];
    assert r[|r| - 1] == if tail == [] then '-' else tail[|tail| - 1];
  }

  lemma SplitAtHyphen(head: string, tail: string)
    requires '-' !in head
    ensures var r := head + "-" + tail;
      '-' in r && FirstIndex(r, '-') == |head| && r[..|head|] == head && r[|head| + 1..] == tail
  {
    var r := head + "-" + tail;
    assert r[|head|] == '-';
    assert FirstIndex(r, '-') == |head| by {
      forall k | 0 <= k < |head| ensures r[k] != '-' {
        assert r[k] == head[k];
        assert head[k] in head;
      }
    }
    assert r[..|head|] == head && r[|head| + 1..] == tail;
  }

  lemma DottedFixed(head: string)
    requires '-' !in head && '_' !in head && NoDoubleDot(head)
    ensures Dotted(head) == head
  {
    ReplaceAbsent(head, '_', '.');
    ReplaceAbsent(head, '-', '.');
    CollapseFixed(head);
  }

  /** A text drawn from the characters of an uppercase text and dots. */
  lemma NoLowerFrom(x: string, y: string)
    requires NoLower(y)
    requires forall c :: c in x ==> c in y || c == '.'
    ensures NoLower(x)
  {
    forall k | 0 <= k < |x| ensures !IsLowerChar(x[k]) {
      assert x[k] in x;
      if x[k] != '.' {
        var j :| 0 <= j < |y| && y[j] == x[k];
      }
    }
  }

  lemma NoLowerSlices(u: string, i: nat)
    requires NoLower(u) && i < |u|
    ensures NoLower(u[..i]) && NoLower(u[i + 1..])
  {
    assert forall k :: 0 <= k < i ==> u[..i][k] == u[k];
    var t := u[i + 1..];
    forall k | 0 <= k < |t| ensures !IsLowerChar(t[k]) {
      assert t[k] == u[i + 1 + k];
    }
  }

  /** The head and tail the hyphen branch produces are themselves normalised. */
  lemma HyphenPieces(u: string)
    requires Trimmed(u) && '-' in u
    ensures var i := FirstIndex(u, '-');
      var head := Dotted(u[..i]);
      var tail := Strip(u[i + 1..]);
      NormalHead(head) && Trimmed(tail)
  {
    var i := FirstIndex(u, '-');
    NoLowerSlices(u, i);
    NoLowerFrom(Dotted(u[..i]), u[..i]);
    NoLowerFrom(Strip(u[i + 1..]), u[i + 1..]);
    if i > 0 {
      assert u[..i][0] == u[0];
    }
  }

  /** The tail the hyphen branch emits, padded when numeric. */
  lemma PaddedTail(tail: string)
    requires Trimmed(tail)
    ensures var t := if IsDigits(tail) then ZFill2(tail) else tail;
      Trimmed(t) && (IsDigits(t) ==> |t| >= 2)
  {
    if IsDigits(tail) {
      var z := ZFill2(tail);
      assert forall k :: 0 <= k < |z| ==> IsDigitChar(z[k]);
    }
  }

  /** The hyphen branch as a normalised head, a hyphen and a trimmed tail. */
  lemma HyphenSplit(u: string) returns (head: string, t: string)
    requires Trimmed(u) && '-' in u
    ensures NormHyphen(u) == head + "-" + t
    ensures NormalHead(head) && Trimmed(t) && (IsDigits(t) ==> |t| >= 2)
    ensures head == Dotted(BeforeHyphen(u))
  {
    var i := FirstIndex(u, '-');
    head := Dotted(u[..i]);
    var tail := Strip(u[i + 1..]);
    HyphenPieces(u);
    PaddedTail(tail);
    t := if IsDigits(tail) then ZFill2(tail) else tail;
  }

  /** With a normalised head and a trimmed tail, the hyphen branch only pads
      a numeric tail. */
  lemma NormRefJoined(head: string, tail: string)
    requires NormalHead(head) && Trimmed(tail)
    ensures NormRef(head + "-" + tail) == Canonical(head, tail)
  {
    var r := head + "-" + tail;
    calc {
      NormRef(r);
      NormTrimmed(Strip(Upper(r)));
      { JoinedTrimmed(head, tail); TrimmedFixed(r); }
      NormTrimmed(r);
      { SplitAtHyphen(head, tail); }
      NormHyphen(r);
      { SplitAtHyphen(head, tail); }
      Canonical(Dotted(head), Strip(tail));
      { DottedFixed(head); StripFixed(tail); }
      Canonical(head, tail);
    }
  }

  /** `head-tail` with a normalised head and a trimmed, already padded tail
      normalises to itself. */
  lemma CanonicalAgain(head: string, tail: string)
    requires NormalHead(head) && Trimmed(tail)
    requires IsDigits(tail) ==> |tail| >= 2
    ensures NormRef(head + "-" + tail) == head + "-" + tail
  {
    NormRefJoined(head, tail);
    if IsDigits(tail) {
      assert ZFill2(tail) == tail;
    }
  }

  // ---------------------------------------------------------------- idempotence

  lemma HyphenIdempotent(u: string)
    requires Trimmed(u) && '-' in u
    ensures NormRef(NormHyphen(u)) == NormHyphen(u)
  {
    var head, t := HyphenSplit(u);
    CanonicalAgain(head, t);
  }

  /** The rebuilding case of the hyphen-free branch as a normalised head
      (the first two segments), a hyphen and a padded numeric tail. */
  lemma SegmentsSplit(u: string) returns (h: string, z: string)
    requires Trimmed(u) && '-' !in u
    requires var parts := Parts(Dotted(u), '.'); |parts| >= 3 && IsDigits(parts[2])
    requires !IsSpace(NormSegments(u)[0])
    ensures NormSegments(u) == h + "-" + z
    ensures NormalHead(h) && Trimmed(z) && (IsDigits(z) ==> |z| >= 2)
    ensures Parts(h, '.') == Parts(Dotted(u), '.')[..2]
  {
    var parts := Parts(Dotted(u), '.');
    SegmentsOf(u);
    h := parts[0] + "." + parts[1];
    JoinTwoFacts(parts[0], parts[1]);
    PaddedTail(parts[2]);
    z := ZFill2(parts[2]);
    assert NormSegments(u) == h + "-" + z;
    assert (h + "-" + z)[0] == h[0];
    assert parts[..2] == [parts[0], parts[1]];
  }

  lemma SegmentsIdempotent(u: string)
    requires Trimmed(u) && '-' !in u
    requires var r := NormSegments(u); r == [] || !IsSpace(r[0])
    ensures NormRef(NormSegments(u)) == NormSegments(u)
  {
    var parts := Parts(Dotted(u), '.');
    if |parts| >= 3 && IsDigits(parts[2]) {
      var h, z := SegmentsSplit(u);
      CanonicalAgain(h, z);
    } else if u != [] {
      calc {
        NormRef(u);
        NormTrimmed(Strip(Upper(u)));
        { TrimmedFixed(u); }
        NormTrimmed(u);
        NormSegments(u);
        u;
      }
    }
  }

  /** Normalising a reference whose result does not begin with whitespace a
      second time changes nothing.  The one way to break this is a
      hyphen-free text whose first dot segment begins with a space (see
      `NormRefNotIdempotentExample`). */
  lemma NormRefIdempotent(s: string)
    requires NormRef(s) == [] || !IsSpace(NormRef(s)[0])
    ensures NormRef(NormRef(s)) == NormRef(s)
  {
    if s != [] {
      var u := Strip(Upper(s));
      TrimmedOf(s);
      if '-' in u {
        HyphenIdempotent(u);
      } else {
        SegmentsIdempotent(u);
      }
    }
  }

  // --------------------------------------------------------------------- prefix

  lemma PrefixPartsOfCanonical(head: string, tail: string)
    requires NormalHead(head) && Trimmed(tail)
    ensures PrefixParts(head + "-" + tail) == Parts(head, '.')
  {
    var r := head + "-" + tail;
    calc {
      PrefixParts(r);
      Parts(Dotted(BeforeHyphen(Strip(Upper(r)))), '.');
      { JoinedTrimmed(head, tail); TrimmedFixed(r); }
      Parts(Dotted(BeforeHyphen(r)), '.');
      { SplitAtHyphen(head, tail); }
      Parts(Dotted(head), '.');
      { DottedFixed(head); }
      Parts(head, '.');
    }
  }

  lemma HyphenPrefix(s: string)
    requires s != [] && '-' in Strip(Upper(s))
    ensures Prefix(NormRef(s)) == Prefix(s)
  {
    var u := Strip(Upper(s));
    TrimmedOf(s);
    var head, t := HyphenSplit(u);
    calc {
      Prefix(NormRef(s));
      { assert NormRef(s) == NormHyphen(u); }
      Prefix(head + "-" + t);
      FirstTwo(PrefixParts(head + "-" + t));
      { PrefixPartsOfCanonical(head, t); }
      FirstTwo(Parts(head, '.'));
      FirstTwo(PrefixParts(s));
      Prefix(s);
    }
  }

  lemma SegmentsPrefix(s: string)
    requires s != [] && '-' !in Strip(Upper(s))
    requires NormRef(s) == [] || !IsSpace(NormRef(s)[0])
    ensures Prefix(NormRef(s)) == Prefix(s)
  {
    var u := Strip(Upper(s));
    TrimmedOf(s);
    var parts := Parts(Dotted(u), '.');
    if |parts| >= 3 && IsDigits(parts[2]) {
      var h, z := SegmentsSplit(u);
      calc {
        Prefix(NormRef(s));
        { assert NormRef(s) == NormSegments(u); }
        Prefix(h + "-" + z);
        FirstTwo(PrefixParts(h + "-" + z));
        { PrefixPartsOfCanonical(h, z); }
        FirstTwo(Parts(h, '.'));
        FirstTwo(parts[..2]);
        FirstTwo(parts);
        FirstTwo(PrefixParts(s));
        Prefix(s);
      }
    } else if u != [] {
      calc {
        Prefix(NormRef(s));
        { assert NormRef(s) == NormSegments(u); }
        Prefix(u);
        FirstTwo(PrefixParts(u));
        { TrimmedFixed(u); }
        FirstTwo(Parts(Dotted(BeforeHyphen(u)), '.'));
        FirstTwo(PrefixParts(s));
        Prefix(s);
      }
    } else {
      calc {
        Prefix(s);
        FirstTwo(PrefixParts(s));
        { assert Split([], '.') == [[]]; assert Parts([], '.') == []; }
        "";
      }
    }
  }

  /** Normalising a reference keeps its prefix. */
  lemma PrefixOfNormRef(s: string)
    requires NormRef(s) == [] || !IsSpace(NormRef(s)[0])
    ensures Prefix(NormRef(s)) == Prefix(s)
  {
    if s != [] {
      if '-' in Strip(Upper(s)) { HyphenPrefix(s); } else { SegmentsPrefix(s); }
    }
  }

  // ------------------------------------------------------------------- examples

  /** A hyphen-free text with three segments, the third numeric, is rebuilt
      as `A.B-NN`. */
  lemma NormRefThreeSegments(s: string, a: string, b: string, c: string)
    requires s != [] && '-' !in Strip(Upper(s))
    requires Parts(Dotted(Strip(Upper(s))), '.') == [a, b, c] && IsDigits(c)
    ensures NormRef(s) == a + "." + b + "-" + ZFill2(c)
  {
  }

  lemma ShortTailFacts()
    ensures NormalHead("PR.PS") && Trimmed("1") && "PR.PS" + "-" + "1" == "PR.PS-1"
    ensures Canonical("PR.PS", "1") == "PR.PS-01"
  {
    assert IsDigits("1");
  }

  /** A one-digit tail after the first hyphen is zero-padded. */
  lemma NormRefShortTailExample()
    ensures NormRef("PR.PS-1") == "PR.PS-01"
  {
    ShortTailFacts();
    NormRefJoined("PR.PS", "1");
  }

  lemma CanonicalFacts()
    ensures NormalHead("GV.OC") && Trimmed("02") && "GV.OC" + "-" + "02" == "GV.OC-02"
    ensures Canonical("GV.OC", "02") == "GV.OC-02"
  {
    assert IsDigits("02");
  }

  /** A canonical reference is its own normal form. */
  lemma NormRefCanonicalExample()
    ensures NormRef("GV.OC-02") == "GV.OC-02"
  {
    CanonicalFacts();
    NormRefJoined("GV.OC", "02");
  }

  lemma AllHyphenFacts()
    ensures NormalHead("PR") && Trimmed("PS-1") && "PR" + "-" + "PS-1" == "PR-PS-1"
    ensures Canonical("PR", "PS-1") == "PR-PS-1"
  {
    assert "PS-1"[2] == '-';
  }

  /** The split is at the first hyphen, so an all-hyphen reference keeps its
      shape: the tail `PS-1` is not numeric and is left as it is. */
  lemma NormRefAllHyphenExample()
    ensures NormRef("PR-PS-1") == "PR-PS-1"
  {
    AllHyphenFacts();
    NormRefJoined("PR", "PS-1");
  }

  lemma UnderscoreUpper()
    ensures Strip(Upper("pr_ps_01")) == "PR_PS_01"
  {
    assert Upper("pr_ps_01") == "PR_PS_01";
    StripFixed("PR_PS_01");
  }

  lemma UnderscoreDotted()
    ensures Dotted("PR_PS_01") == "PR.PS.01"
  {
    assert ReplaceChar("PR_PS_01", '_', '.') == "PR.PS.01";
    ReplaceAbsent("PR.PS.01", '-', '.');
    assert NoDoubleDot("PR.PS.01");
    CollapseFixed("PR.PS.01");
  }

  lemma UnderscoreParts(d: string)
    requires d == "PR.PS.01"
    ensures Parts(d, '.') == ["PR", "PS", "01"]
  {
    assert d == "PR" + ['.'] + "PS" + ['.'] + "01";
    PartsThree("PR", "PS", "01", '.');
  }

  lemma UnderscoreFacts()
    ensures '-' !in "PR_PS_01" && IsDigits("01") && ZFill2("01") == "01"
    ensures "PR" + "." + "PS" + "-" + "01" == "PR.PS-01"
  {
  }

  /** Underscore separators and a numeric third segment are canonicalised. */
  lemma NormRefUnderscoreExample()
    ensures NormRef("pr_ps_01") == "PR.PS-01"
  {
    var s := "pr_ps_01";
    UnderscoreUpper();
    UnderscoreDotted();
    UnderscoreParts("PR.PS.01");
    UnderscoreFacts();
    assert '-' !in Strip(Upper(s));
    assert Parts(Dotted(Strip(Upper(s))), '.') == ["PR", "PS", "01"];
    NormRefThreeSegments(s, "PR", "PS", "01");
  }

  lemma LeadingDotTrimmed()
    ensures Strip(Upper(". A.B.1")) == ". A.B.1"
  {
    assert Upper(". A.B.1") == ". A.B.1";
    StripFixed(". A.B.1");
  }

  lemma LeadingDotDotted()
    ensures Dotted(". A.B.1") == ". A.B.1"
  {
    assert '-' !in ". A.B.1" && '_' !in ". A.B.1";
    assert NoDoubleDot(". A.B.1");
    DottedFixed(". A.B.1");
  }

  lemma LeadingDotParts(d: string)
    requires d == ". A.B.1"
    ensures Parts(d, '.') == [" A", "B", "1"]
  {
    assert d == "" + ['.'] + (" A" + ['.'] + "B" + ['.'] + "1");
    SplitCons("", " A" + ['.'] + "B" + ['.'] + "1", '.');
    NonEmptyCons("", Split(" A" + ['.'] + "B" + ['.'] + "1", '.'));
    PartsThree(" A", "B", "1", '.');
  }

  lemma LeadingDotFacts()
    ensures '-' !in ". A.B.1" && IsDigits("1") && ZFill2("1") == "01"
    ensures " A" + "." + "B" + "-" + "01" == " A.B-01"
  {
  }

  lemma SpacedFacts()
    ensures NormalHead("A.B") && Trimmed("01") && "A.B" + "-" + "01" == "A.B-01"
    ensures Canonical("A.B", "01") == "A.B-01" && " A.B-01" == " " + "A.B-01"
  {
    assert IsDigits("01");
  }

  /** A leading space is trimmed before anything else happens. */
  lemma LeadingSpace(x: string)
    requires x != []
    ensures NormRef(" " + x) == NormRef(x)
  {
    assert Upper(" " + x) == " " + Upper(x);
    assert LStrip(" " + Upper(x)) == LStrip(Upper(x));
  }

  /** The idempotence precondition is needed: a reference whose first dot
      segment starts with a space is normalised to a text starting with that
      space, which a second pass trims. */
  lemma NormRefNotIdempotentExample()
    ensures NormRef(". A.B.1") == " A.B-01"
    ensures NormRef(" A.B-01") == "A.B-01"
  {
    var s := ". A.B.1";
    LeadingDotTrimmed();
    LeadingDotDotted();
    LeadingDotParts(". A.B.1");
    LeadingDotFacts();
    assert '-' !in Strip(Upper(s));
    assert Parts(Dotted(Strip(Upper(s))), '.') == [" A", "B", "1"];
    NormRefThreeSegments(s, " A", "B", "1");
    SpacedFacts();
    NormRefJoined("A.B", "01");
    LeadingSpace("A.B-01");
  }
}
