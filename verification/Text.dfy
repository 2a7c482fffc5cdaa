/** The string operations of Go's standard library that Talos relies on, over Unicode
    characters: strings.Split, strings.Join, strings.Cut, strings.TrimSpace and "%d". */
module Text {

  /** strings.Split for a one-character separator: always at least one part. */
  function Split(s: string, sep: char): (parts: seq<string>)
    ensures |parts| >= 1
    ensures forall p :: p in parts ==> sep !in p
  {
    if s == "" then [""]
    else
      var rest := Split(s[1..], sep);
      if s[0] == sep then [""] + rest else [[s[0]] + rest[0]] + rest[1..]
  }

  function Join(parts: seq<string>, sep: char): string
  {
    if |parts| == 0 then ""
    else if |parts| == 1 then parts[0]
    else parts[0] + [sep] + Join(parts[1..], sep)
  }

  lemma {:induction false} JoinOfSplit(s: string, sep: char)
    ensures Join(Split(s, sep), sep) == s
  {
    if s == "" {
    } else {
      var rest := Split(s[1..], sep);
      JoinOfSplit(s[1..], sep);
      if s[0] == sep {
        assert ([""] + rest)[1..] == rest;
      } else {
        assert ([[s[0]] + rest[0]] + rest[1..])[1..] == rest[1..];
        if |rest| > 1 {
          assert [s[0]] + (rest[0] + [sep] + Join(rest[1..], sep)) == [s[0]] + rest[0] + [sep] + Join(rest[1..], sep);
        }
      }
    }
  }

  lemma {:induction false} SplitNoSeparator(s: string, sep: char)
    requires sep !in s
    ensures Split(s, sep) == [s]
  {
    if s != "" {
      SplitNoSeparator(s[1..], sep);
      assert s == [s[0]] + s[1..];
    }
  }

  lemma {:induction false} SplitAtSeparator(a: string, b: string, sep: char)
    requires sep !in a
    ensures Split(a + [sep] + b, sep) == [a] + Split(b, sep)
  {
    var s := a + [sep] + b;
    if a == "" {
      assert s[1..] == b;
    } else {
      assert s[1..] == a[1..] + [sep] + b;
      SplitAtSeparator(a[1..], b, sep);
      assert [a[0]] + a[1..] == a;
      assert Split(s, sep) == [[s[0]] + a[1..]] + Split(b, sep);
    }
  }

  lemma {:induction false} SplitOfJoin(parts: seq<string>, sep: char)
    requires |parts| >= 1
    requires forall p :: p in parts ==> sep !in p
    ensures Split(Join(parts, sep), sep) == parts
  {
    if |parts| == 1 {
      SplitNoSeparator(parts[0], sep);
    } else {
      SplitAtSeparator(parts[0], Join(parts[1..], sep), sep);
      SplitOfJoin(parts[1..], sep);
      assert [parts[0]] + parts[1..] == parts;
    }
  }

  /** strings.Cut at the first occurrence of a character. */
  datatype CutResult = CutResult(before: string, after: string, found: bool)

  function Cut(s: string, c: char): (r: CutResult)
    ensures r.found <==> c in s
    ensures c !in r.before
    ensures s == if r.found then r.before + [c] + r.after else r.before
  {
    if s == "" then CutResult("", "", false)
    else if s[0] == c then CutResult("", s[1..], true)
    else var r := Cut(s[1..], c); CutResult([s[0]] + r.before, r.after, r.found)
  }

  lemma {:induction false} CutUnique(s: string, c: char, before: string, after: string)
    requires c !in before && s == before + [c] + after
    ensures Cut(s, c) == CutResult(before, after, true)
  {
    if before == "" {
      assert s[1..] == after;
    } else {
      assert s[1..] == before[1..] + [c] + after;
      CutUnique(s[1..], c, before[1..], after);
    }
  }

  /** unicode.IsSpace. */
  predicate IsSpace(c: char)
  {
    '\t' <= c <= '\r' || c == ' ' || c == '\U{0085}' || c == '\U{00A0}' || c == '\U{1680}'
    || '\U{2000}' <= c <= '\U{200A}' || c == '\U{2028}' || c == '\U{2029}' || c == '\U{202F}'
    || c == '\U{205F}' || c == '\U{3000}'
  }

  function TrimLeft(s: string): (t: string)
    ensures t == "" || !IsSpace(t[0])
    ensures |t| <= |s| && t == s[|s| - |t|..]
    ensures forall i :: 0 <= i < |s| - |t| ==> IsSpace(s[i])
  {
    if s != "" && IsSpace(s[0]) then TrimLeft(s[1..]) else s
  }

  function TrimRight(s: string): (t: string)
    ensures t == "" || !IsSpace(t[|t| - 1])
    ensures |t| <= |s| && t == s[..|t|]
    ensures forall i :: |t| <= i < |s| ==> IsSpace(s[i])
  {
    if s != "" && IsSpace(s[|s| - 1]) then TrimRight(s[..|s| - 1]) else s
  }

  function TrimSpace(s: string): string
  {
    TrimRight(TrimLeft(s))
  }

  predicate Trimmed(s: string)
  {
    s == "" || (!IsSpace(s[0]) && !IsSpace(s[|s| - 1]))
  }

  lemma TrimSpaceTrimmed(s: string)
    ensures Trimmed(TrimSpace(s))
    ensures Trimmed(s) ==> TrimSpace(s) == s
    ensures forall c :: c in TrimSpace(s) ==> c in s
  {
    var l := TrimLeft(s);
    var t := TrimRight(l);
    if t != "" {
      assert t[0] == l[0];
    }
    forall c | c in t ensures c in s {
      assert c in l;
    }
  }

  /** t is what is left of s without the spaces around it. */
  ghost predicate Stripped(s: string, t: string)
  {
    exists i, j :: 0 <= i <= j <= |s| && StrippedAt(s, t, i, j)
  }

  ghost predicate StrippedAt(s: string, t: string, i: nat, j: nat)
    requires i <= j <= |s|
  {
    && t == s[i..j] && (i < j ==> !IsSpace(s[i]) && !IsSpace(s[j - 1]))
    && (forall k :: 0 <= k < i ==> IsSpace(s[k])) && (forall k :: j <= k < |s| ==> IsSpace(s[k]))
  }

  predicate AllSpace(s: string)
  {
    forall c :: c in s ==> IsSpace(c)
  }

  /** Where the text begins that trimming leaves. */
  lemma TrimSpaceAt(s: string) returns (i: nat)
    ensures i + |TrimSpace(s)| <= |s| && StrippedAt(s, TrimSpace(s), i, i + |TrimSpace(s)|)
  {
    hide IsSpace, TrimLeft, TrimRight, StrippedAt;
    var l := TrimLeft(s);
    i := |s| - |l|;
    TwoSlices(s, l, TrimRight(l), i);
  }

  /** Spaces cut off in front, then at the end. */
  lemma TwoSlices(s: string, l: string, t: string, i: nat)
    requires i + |l| == |s| && l == s[i..] && (l == "" || !IsSpace(l[0])) && forall k :: 0 <= k < i ==> IsSpace(s[k])
    requires |t| <= |l| && t == l[..|t|] && (t == "" || !IsSpace(t[|t| - 1])) && forall k :: |t| <= k < |l| ==> IsSpace(l[k])
    ensures StrippedAt(s, t, i, i + |t|)
  {
    hide IsSpace;
    var j := i + |t|;
    assert |s[i..j]| == |t| && forall k | 0 <= k < |t| :: s[i..j][k] == s[i + k] == l[k] == t[k];
    forall k | j <= k < |s| ensures IsSpace(s[k]) {
      assert s[k] == l[k - i];
    }
  }

  lemma StripsSpaces(s: string)
    ensures Stripped(s, TrimSpace(s)) && (TrimSpace(s) == "" <==> AllSpace(s))
  {
    hide IsSpace, TrimSpace;
    var i := TrimSpaceAt(s);
    var t := TrimSpace(s);
    if t == "" {
      forall c | c in s ensures IsSpace(c) {
        var k :| 0 <= k < |s| && s[k] == c;
      }
    } else {
      assert s[i] in s;
    }
  }

  lemma StrippedUnique(s: string, t: string)
    ensures Stripped(s, t) <==> t == TrimSpace(s)
  {
    hide IsSpace, TrimSpace;
    StripsSpaces(s);
    var u := TrimSpace(s);
    if Stripped(s, t) {
      var i, j :| 0 <= i <= j <= |s| && StrippedAt(s, t, i, j);
      var k, l :| 0 <= k <= l <= |s| && StrippedAt(s, u, k, l);
      if i < j || k < l {
        assert i == k && j == l;
      }
    }
  }

  lemma {:induction false} TrimRightAfter(a: string, b: string)
    requires a != "" && !IsSpace(a[|a| - 1])
    ensures TrimRight(a + b) == a + TrimRight(b)
    decreases |b|
  {
    if b == "" {
      assert a + b == a;
    } else {
      var s := a + b;
      assert s[|s| - 1] == b[|b| - 1];
      assert s[..|s| - 1] == a + b[..|b| - 1];
      if IsSpace(b[|b| - 1]) {
        TrimRightAfter(a, b[..|b| - 1]);
      }
    }
  }

  /** fmt.Sprintf("%d", n) for the ids of the database, which are never negative. */
  function Decimal(n: nat): (s: string)
    ensures s != ""
    ensures forall c :: c in s ==> '0' <= c <= '9'
  {
    var digit := '0' + (n % 10) as char;
    if n < 10 then [digit] else Decimal(n / 10) + [digit]
  }

  lemma {:induction false} DecimalInjective(m: nat, n: nat)
    requires Decimal(m) == Decimal(n)
    ensures m == n
    decreases m
  {
    var s := Decimal(m);
    assert s[|s| - 1] == '0' + (m % 10) as char;
    assert s[|s| - 1] == '0' + (n % 10) as char;
    assert m % 10 == n % 10;
    if m >= 10 && n >= 10 {
      assert Decimal(m / 10) == s[..|s| - 1] == Decimal(n / 10);
      DecimalInjective(m / 10, n / 10);
    }
  }

  /** The number that a string of digits denotes. */
  function Numeral(s: string): int
  {
    if s == "" then 0 else 10 * Numeral(s[..|s| - 1]) + (s[|s| - 1] as int - '0' as int)
  }

  /** Decimal writes the number, with no leading zero. */
  lemma {:induction false} DecimalDenotes(n: nat)
    ensures Numeral(Decimal(n)) == n && (n > 0 ==> Decimal(n)[0] != '0')
  {
    var s := Decimal(n);
    assert s[..|s| - 1] == if n < 10 then "" else Decimal(n / 10);
    if n >= 10 {
      DecimalDenotes(n / 10);
    }
  }
}
