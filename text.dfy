/** String helpers the connections layer relies on: trimming, the comma
    split of the allow-list field, joining, decimal rendering of integers,
    substring search and first-occurrence lookup. */
module Text {
  import opened Wrappers

  /** The fixed whitespace set used for trimming: space, tab, line feed,
      carriage return, vertical tab and form feed. */
  predicate IsWhitespace(c: char) {
    c == ' ' || c == '\t' || c == '\n' || c == '\r' || c == '\U{000B}' || c == '\U{000C}'
  }

  predicate AllWhitespace(s: string) {
    forall i :: 0 <= i < |s| ==> IsWhitespace(s[i])
  }

  /** Neither end of `s` is whitespace (the empty string qualifies). */
  predicate IsTrimmed(s: string) {
    s == [] || (!IsWhitespace(s[0]) && !IsWhitespace(s[|s| - 1]))
  }

  /** Drops leading whitespace: the result is the suffix that starts at the
      first non-whitespace character. */
  function TrimStart(s: string): (r: string)
    ensures |r| <= |s| && r == s[|s| - |r|..]
    ensures AllWhitespace(s[..|s| - |r|])
    ensures r == [] || !IsWhitespace(r[0])
    decreases |s|
  {
    if |s| > 0 && IsWhitespace(s[0]) then
      var r := TrimStart(s[1..]);
      assert s[..|s| - |r|] == [s[0]] + s[1..][..|s| - 1 - |r|];
      assert s[|s| - |r|..] == s[1..][|s| - 1 - |r|..];
      r
    else s
  }

  /** Drops trailing whitespace: the result is the prefix that ends at the
      last non-whitespace character. */
  function TrimEnd(s: string): (r: string)
    ensures |r| <= |s| && r == s[..|r|]
    ensures AllWhitespace(s[|r|..])
    ensures r == [] || !IsWhitespace(r[|r| - 1])
    decreases |s|
  {
    if |s| > 0 && IsWhitespace(s[|s| - 1]) then
      var t := s[..|s| - 1];
      var r := TrimEnd(t);
      assert s[|r|..] == t[|r|..] + [s[|s| - 1]];
      assert s[..|r|] == t[..|r|];
      r
    else s
  }

  /** `r` occurs in `s` at offset `k`, with only whitespace before and after it. */
  predicate Surrounds(s: string, k: int, r: string) {
    && 0 <= k && k + |r| <= |s| && s[k..k + |r|] == r
    && AllWhitespace(s[..k]) && AllWhitespace(s[k + |r|..])
  }

  /** `trimmingCharacters(in: .whitespacesAndNewlines)`, over the fixed set. */
  function Trim(s: string): (r: string)
    ensures |r| <= |s|
    ensures IsTrimmed(r)
    ensures r == [] <==> AllWhitespace(s)
  {
    TrimShape(s);
    TrimEnd(TrimStart(s))
  }

  /** The shape of the trimmed text: no longer than `s`, no whitespace at
      either end, and empty exactly for all-whitespace text. */
  lemma TrimShape(s: string)
    ensures var r := TrimEnd(TrimStart(s));
      && |r| <= |s| && IsTrimmed(r) && (r == [] <==> AllWhitespace(s))
  {
    TrimStartEmpty(s);
    TrimEndEmpty(TrimStart(s));
  }

  /** What trimming keeps: the trimmed text sits in `s` between two runs of
      whitespace. */
  lemma TrimWindow(s: string)
    ensures exists k :: Surrounds(s, k, Trim(s))
  {
    var t := TrimStart(s);
    var r := TrimEnd(t);
    var k := |s| - |t|;
    assert Trim(s) == r;
    assert s[k..k + |r|] == t[..|r|];
    assert s[k + |r|..] == t[|r|..];
    assert Surrounds(s, k, r);
  }

  /** Trimming is determined by what it keeps: a text without whitespace at
      either end that sits in `s` between two runs of whitespace is the
      trimmed text. */
  lemma TrimUnique(s: string, k: int, r: string)
    requires Surrounds(s, k, r) && IsTrimmed(r)
    ensures Trim(s) == r
  {
    if r == [] {
      forall i | 0 <= i < |s|
        ensures IsWhitespace(s[i])
      {
        if i < k {
          assert s[..k][i] == s[i];
        } else {
          assert s[k..][i - k] == s[i];
        }
      }
    } else {
      assert s[k] == r[0];
      TrimStartAt(s, k);
      var t := s[k..];
      assert t[..|r|] == r;
      assert t[|r|..] == s[k + |r|..];
      TrimEndAt(t, |r|);
    }
  }

  /** Leading whitespace that ends at `k` is exactly what `TrimStart` drops. */
  lemma TrimStartAt(s: string, k: int)
    requires 0 <= k < |s| && AllWhitespace(s[..k]) && !IsWhitespace(s[k])
    ensures TrimStart(s) == s[k..]
  {
    var r := TrimStart(s);
    var j := |s| - |r|;
    forall i | 0 <= i < j
      ensures IsWhitespace(s[i])
    {
      assert s[..j][i] == s[i];
    }
    forall i | 0 <= i < k
      ensures IsWhitespace(s[i])
    {
      assert s[..k][i] == s[i];
    }
    assert r != [] ==> r[0] == s[j];
    assert j == k;
  }

  /** Trailing whitespace that starts at `m` is exactly what `TrimEnd` drops. */
  lemma TrimEndAt(t: string, m: int)
    requires 0 < m <= |t| && AllWhitespace(t[m..]) && !IsWhitespace(t[m - 1])
    ensures TrimEnd(t) == t[..m]
  {
  }

  /** Only an all-whitespace text trims to nothing at the front. */
  lemma {:induction false} TrimStartEmpty(s: string)
    ensures TrimStart(s) == [] <==> AllWhitespace(s)
    decreases |s|
  {
    if |s| > 0 && IsWhitespace(s[0]) {
      TrimStartEmpty(s[1..]);
    }
  }

  /** Only an all-whitespace text trims to nothing at the back. */
  lemma TrimEndEmpty(s: string)
    ensures TrimEnd(s) == [] ==> AllWhitespace(s)
  {
    assert s[0..] == s;
  }

  lemma TrimOfTrimmed(s: string)
    requires IsTrimmed(s)
    ensures Trim(s) == s
  {
    assert TrimStart(s) == s;
    assert TrimEnd(s) == s;
  }

  /** Trimming twice is trimming once. */
  lemma TrimIdempotent(s: string)
    ensures Trim(Trim(s)) == Trim(s)
  {
    TrimOfTrimmed(Trim(s));
  }

  /** A leading whitespace character does not survive trimming. */
  lemma TrimLeadingWhitespace(c: char, s: string)
    requires IsWhitespace(c)
    ensures Trim([c] + s) == Trim(s)
  {
    assert ([c] + s)[1..] == s;
  }

  /** All comma-separated pieces of `s`, empty ones included: one more piece
      than there are commas. */
  function Fields(s: string): (r: seq<string>)
    ensures |r| >= 1
    ensures forall i :: 0 <= i < |r| ==> ',' !in r[i]
    decreases |s|
  {
    if s == [] then [""]
    else
      var rest := Fields(s[1..]);
      if s[0] == ',' then [""] + rest
      else [[s[0]] + rest[0]] + rest[1..]
  }

  /** `xs.joined(separator: sep)`. */
  function Join(xs: seq<string>, sep: string): string
  {
    if |xs| == 0 then ""
    else if |xs| == 1 then xs[0]
    else xs[0] + sep + Join(xs[1..], sep)
  }

  /** Joining one more element appends the separator and that element. */
  lemma {:induction false} JoinSnoc(xs: seq<string>, x: string, sep: string)
    requires xs != []
    ensures Join(xs + [x], sep) == Join(xs, sep) + sep + x
    decreases |xs|
  {
    var ys := xs + [x];
    if |xs| == 1 {
      assert ys[1..] == [x];
    } else {
      assert ys[0] == xs[0] && ys[1..] == xs[1..] + [x];
      JoinSnoc(xs[1..], x, sep);
    }
  }

  /** Joining the pieces with "," gives the original text back. */
  lemma {:induction false} JoinFields(s: string)
    ensures Join(Fields(s), ",") == s
    decreases |s|
  {
    if s != [] {
      var rest := Fields(s[1..]);
      JoinFields(s[1..]);
      if s[0] == ',' {
        assert Fields(s) == [""] + rest;
        assert Join(Fields(s), ",") == "" + "," + Join(rest, ",");
        assert s == [s[0]] + s[1..];
      } else {
        var f := Fields(s);
        assert f == [[s[0]] + rest[0]] + rest[1..];
        if |rest| == 1 {
          assert Join(rest, ",") == rest[0];
          assert Join(f, ",") == [s[0]] + rest[0];
        } else {
          assert Join(rest, ",") == rest[0] + "," + Join(rest[1..], ",");
          assert f[1..] == rest[1..];
          assert Join(f, ",") == ([s[0]] + rest[0]) + "," + Join(rest[1..], ",");
        }
        assert s == [s[0]] + s[1..];
      }
    }
  }

  /** Text with no comma is one piece. */
  lemma {:induction false} FieldsOfCommaFree(s: string)
    requires ',' !in s
    ensures Fields(s) == [s]
    decreases |s|
  {
    if s != [] {
      FieldsOfCommaFree(s[1..]);
      assert s == [s[0]] + s[1..];
    }
  }

  /** A comma-free head and a comma split off the front. */
  lemma {:induction false} FieldsAfterHead(a: string, b: string)
    requires ',' !in a
    ensures Fields(a + "," + b) == [a] + Fields(b)
    decreases |a|
  {
    if a == [] {
      assert a + "," + b == [','] + b;
      assert ([','] + b)[1..] == b;
    } else {
      assert (a + "," + b)[1..] == a[1..] + "," + b;
      FieldsAfterHead(a[1..], b);
      assert a == [a[0]] + a[1..];
    }
  }

  /** A leading character other than a comma joins the first piece. */
  lemma FieldsAfterChar(c: char, s: string)
    requires c != ','
    ensures Fields([c] + s) == [[c] + Fields(s)[0]] + Fields(s)[1..]
  {
    assert ([c] + s)[1..] == s;
  }

  /** Splitting at a comma splits the pieces: the pieces of `a + "," + b`
      are those of `a` followed by those of `b`. */
  lemma {:induction false} FieldsComma(a: string, b: string)
    ensures Fields(a + "," + b) == Fields(a) + Fields(b)
    decreases |a|
  {
    var s := a + "," + b;
    if a == [] {
      assert s[1..] == b;
    } else {
      assert s[0] == a[0] && s[1..] == a[1..] + "," + b;
      FieldsComma(a[1..], b);
      var head, tail := Fields(a[1..]), Fields(b);
      if a[0] != ',' {
        assert (head + tail)[0] == head[0];
        assert (head + tail)[1..] == head[1..] + tail;
      }
    }
  }

  /** The non-empty elements of `xs`, in order. */
  function NonEmpty(xs: seq<string>): (r: seq<string>)
    ensures |r| <= |xs|
    ensures forall i :: 0 <= i < |r| ==> r[i] != ""
    ensures forall x :: x in r <==> x in xs && x != ""
  {
    if xs == [] then []
    else (if xs[0] == "" then [] else [xs[0]]) + NonEmpty(xs[1..])
  }

  /** Whatever holds of every element still holds after the filter. */
  lemma {:induction false} NonEmptyKeeps(xs: seq<string>, p: string -> bool)
    requires forall i :: 0 <= i < |xs| ==> p(xs[i])
    ensures forall i :: 0 <= i < |NonEmpty(xs)| ==> p(NonEmpty(xs)[i])
  {
    if xs != [] {
      NonEmptyKeeps(xs[1..], p);
    }
  }

  /** The filter works element by element, so it keeps order and
      duplicates: filtering a concatenation filters each part. */
  lemma {:induction false} NonEmptyAppend(xs: seq<string>, ys: seq<string>)
    ensures NonEmpty(xs + ys) == NonEmpty(xs) + NonEmpty(ys)
    decreases |xs|
  {
    if xs == [] {
      assert xs + ys == ys;
    } else {
      var zs := xs + ys;
      assert zs[0] == xs[0] && zs[1..] == xs[1..] + ys;
      NonEmptyAppend(xs[1..], ys);
    }
  }

  /** Every element trimmed. */
  function Trims(xs: seq<string>): (r: seq<string>)
    ensures |r| == |xs|
    ensures forall i :: 0 <= i < |xs| ==> r[i] == Trim(xs[i])
  {
    if xs == [] then [] else [Trim(xs[0])] + Trims(xs[1..])
  }

  /** Trimming a concatenation trims each part. */
  lemma TrimsAppend(xs: seq<string>, ys: seq<string>)
    ensures Trims(xs + ys) == Trims(xs) + Trims(ys)
  {
    var l, r := Trims(xs + ys), Trims(xs) + Trims(ys);
    forall i | 0 <= i < |l|
      ensures l[i] == r[i]
    {
      if i < |xs| {
        assert (xs + ys)[i] == xs[i];
      } else {
        assert (xs + ys)[i] == ys[i - |xs|];
      }
    }
  }

  /** Dropping empty elements before trimming changes nothing once empty
      elements are dropped again after trimming. */
  lemma {:induction false} NonEmptyTrimsNonEmpty(xs: seq<string>)
    ensures NonEmpty(Trims(NonEmpty(xs))) == NonEmpty(Trims(xs))
  {
    if xs != [] {
      NonEmptyTrimsNonEmpty(xs[1..]);
      var t := NonEmpty(xs[1..]);
      if xs[0] == "" {
        assert NonEmpty(xs) == t;
        assert Trims(xs) == [""] + Trims(xs[1..]);
        assert NonEmpty(Trims(xs)) == NonEmpty(Trims(xs[1..])) by {
          assert Trims(xs)[1..] == Trims(xs[1..]);
        }
      } else {
        assert NonEmpty(xs) == [xs[0]] + t;
        assert Trims([xs[0]] + t) == [Trim(xs[0])] + Trims(t) by {
          assert ([xs[0]] + t)[1..] == t;
        }
        assert NonEmpty([Trim(xs[0])] + Trims(t)) ==
          (if Trim(xs[0]) == "" then [] else [Trim(xs[0])]) + NonEmpty(Trims(t)) by {
          assert ([Trim(xs[0])] + Trims(t))[1..] == Trims(t);
        }
        assert Trims(xs)[1..] == Trims(xs[1..]);
      }
    }
  }

  predicate IsDigit(c: char) {
    '0' <= c <= '9'
  }

  function DigitChar(d: nat): (c: char)
    requires d < 10
    ensures IsDigit(c) && c as int - '0' as int == d
  {
    "0123456789"[d]
  }

  /** Decimal digits of `n`, most significant first, with no leading zero. */
  function NatToString(n: nat): (r: string)
    ensures |r| >= 1
    ensures forall i :: 0 <= i < |r| ==> IsDigit(r[i])
    ensures |r| > 1 ==> r[0] != '0'
    ensures n > 0 ==> r[0] != '0'
  {
    if n < 10 then [DigitChar(n)] else NatToString(n / 10) + [DigitChar(n % 10)]
  }

  /** The number a string of decimal digits denotes. */
  function DigitsValue(s: string): nat
    requires forall i :: 0 <= i < |s| ==> IsDigit(s[i])
  {
    if s == [] then 0
    else
      assert IsDigit(s[|s| - 1]);
      10 * DigitsValue(s[..|s| - 1]) + (s[|s| - 1] as int - '0' as int)
  }

  /** Reading the rendered digits back gives the number. */
  lemma {:induction false} NatToStringValue(n: nat)
    ensures DigitsValue(NatToString(n)) == n
  {
    if n >= 10 {
      NatToStringValue(n / 10);
      var r := NatToString(n);
      assert r[..|r| - 1] == NatToString(n / 10);
    }
  }

  /** Swift's `String(n)` for an `Int`: a minus sign for negative numbers,
      then the decimal digits of the magnitude. */
  function IntToString(n: int): (r: string)
    ensures r != [] && ',' !in r && IsTrimmed(r)
    ensures (r[0] == '-') <==> n < 0
    ensures n >= 0 ==> (|r| > 1 ==> r[0] != '0')
    ensures n < 0 ==> |r| >= 2 && r[1] != '0'
  {
    if n < 0 then "-" + NatToString(-n) else NatToString(n)
  }

  /** The rendered digits denote the number's magnitude: everything after
      the minus sign, if there is one, reads back as `|n|`. */
  lemma IntToStringValue(n: int)
    ensures var d := if n < 0 then IntToString(n)[1..] else IntToString(n);
      && (forall i :: 0 <= i < |d| ==> IsDigit(d[i]))
      && DigitsValue(d) == (if n < 0 then -n else n)
  {
    var m: nat := if n < 0 then -n else n;
    NatToStringValue(m);
    if n < 0 {
      assert IntToString(n)[1..] == NatToString(m);
    }
  }

  /** `s.hasPrefix(p)`. */
  predicate StartsWith(s: string, p: string) {
    |p| <= |s| && s[..|p|] == p
  }

  /** `s.contains(sub)`: `sub` occurs somewhere in `s`. */
  predicate Contains(s: string, sub: string)
    decreases |s|
  {
    StartsWith(s, sub) || (|s| > 0 && Contains(s[1..], sub))
  }

  /** `s.firstIndex(of: c)`. */
  function FirstIndexOf(s: string, c: char): (r: Option<nat>)
    ensures r.None? <==> c !in s
    ensures r.Some? ==> r.value < |s| && s[r.value] == c && c !in s[..r.value]
  {
    if s == [] then None
    else if s[0] == c then Some(0)
    else
      match FirstIndexOf(s[1..], c)
      case None => None
      case Some(i) =>
        assert s[..i + 1] == [s[0]] + s[1..][..i];
        Some(i + 1)
  }
}
