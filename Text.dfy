/** The few Python `str` operations the core relies on, on `seq<char>`:
    `pat in s`, `s.startswith(pat)` (Dafny's `pat <= s`), `s.replace(pat, rep, 1)`,
    `s.replace(pat, "")`, `s.split(sep)`, `str(n)` and `int(s)`, plus the code-point
    ordering a database uses to sort text. */
module Text {
  import opened Wrappers

  /** `pat in s`. */
  predicate Contains(s: string, pat: string)
    decreases |s|
  {
    pat <= s || (|s| > 0 && Contains(s[1..], pat))
  }

  /** `a` and `b` differ at some position both of them have, so neither is a prefix of the other. */
  predicate Clash(a: string, b: string)
    decreases |a|
  {
    |a| > 0 && |b| > 0 && (a[0] != b[0] || Clash(a[1..], b[1..]))
  }

  /** No occurrence of `pat` starts inside `p`, whatever follows `p`. */
  predicate NoneStartsWithin(p: string, pat: string)
  {
    forall i :: 0 <= i < |p| ==> Clash(p[i..], pat)
  }

  lemma {:induction false} ClashNotPrefix(a: string, b: string, s: string)
    requires Clash(a, b)
    ensures !(b <= a + s)
    decreases |a|
  {
    if a[0] == b[0] {
      ClashNotPrefix(a[1..], b[1..], s);
      assert (a + s)[1..] == a[1..] + s;
    }
  }

  lemma {:induction false} ClashExtends(a: string, b: string, s: string)
    requires Clash(a, b)
    ensures Clash(a + s, b)
    decreases |a|
  {
    if a[0] == b[0] {
      ClashExtends(a[1..], b[1..], s);
      assert (a + s)[1..] == a[1..] + s;
    }
  }

  /** Two pieces in which no occurrence starts give a whole in which none starts. */
  lemma NoneStartsWithinConcat(a: string, b: string, pat: string)
    requires NoneStartsWithin(a, pat) && NoneStartsWithin(b, pat)
    ensures NoneStartsWithin(a + b, pat)
  {
    forall i | 0 <= i < |a + b| ensures Clash((a + b)[i..], pat) {
      if i < |a| {
        assert (a + b)[i..] == a[i..] + b;
        ClashExtends(a[i..], pat, b);
      } else {
        assert (a + b)[i..] == b[i - |a|..];
      }
    }
  }

  /** No occurrence starts where the first character of `pat` does not appear. */
  lemma NoneStartsWithinFree(p: string, pat: string)
    requires |pat| > 0 && pat[0] !in p
    ensures NoneStartsWithin(p, pat)
  {
    forall i | 0 <= i < |p| ensures Clash(p[i..], pat) {
      assert p[i..][0] == p[i];
    }
  }

  /** A two-character piece that neither starts `pat` nor ends with its first character. */
  lemma NoneStartsWithinPair(x: char, y: char, pat: string)
    requires |pat| >= 2 && (x != pat[0] || y != pat[1]) && y != pat[0]
    ensures NoneStartsWithin([x, y], pat)
  {
    assert [x, y][1..] == [y];
    if x == pat[0] {
      assert [x, y][1..] == [y] && pat[1..][0] == pat[1];
      assert Clash([y], pat[1..]);
    }
  }

  /** A three-character piece in which no occurrence of `pat` starts. */
  lemma NoneStartsWithinTriple(x: char, y: char, z: char, pat: string)
    requires |pat| >= 3 && (x != pat[0] || y != pat[1] || z != pat[2]) && (y != pat[0] || z != pat[1]) && z != pat[0]
    ensures NoneStartsWithin([x, y, z], pat)
  {
    NoneStartsWithinPair(y, z, pat);
    assert [x, y, z][1..] == [y, z];
    assert [x, y, z][0..] == [x, y, z];
    if x == pat[0] {
      var rest := pat[1..];
      if y == pat[1] {
        assert Clash([z], rest[1..]);
        assert Clash([y, z], rest) by {
          assert [y, z][1..] == [z];
        }
      } else {
        assert Clash([y, z], rest);
      }
    }
    assert Clash([x, y, z], pat);
    forall i | 0 <= i < 3 ensures Clash([x, y, z][i..], pat) {
      if i > 0 {
        assert [x, y, z][i..] == [y, z][i - 1..];
      }
    }
  }

  /** Where no occurrence starts, there is none. */
  lemma {:induction false} NoneStartsWithinAbsent(s: string, pat: string)
    requires NoneStartsWithin(s, pat) && |pat| > 0
    ensures !Contains(s, pat)
    decreases |s|
  {
    if |s| > 0 {
      assert s[0..] == s;
      ClashNotPrefix(s, pat, []);
      assert s + [] == s;
      assert NoneStartsWithin(s[1..], pat) by {
        forall i | 0 <= i < |s[1..]| ensures Clash(s[1..][i..], pat) {
          assert s[1..][i..] == s[i + 1..];
        }
      }
      NoneStartsWithinAbsent(s[1..], pat);
    }
  }

  /** `s.replace(pat, rep, 1)`: the leftmost occurrence of `pat` is replaced by `rep`. */
  function ReplaceFirst(s: string, pat: string, rep: string): string
    decreases |s|
  {
    if pat <= s then rep + s[|pat|..]
    else if |s| == 0 then s
    else [s[0]] + ReplaceFirst(s[1..], pat, rep)
  }

  lemma {:induction false} ReplaceFirstAbsent(s: string, pat: string, rep: string)
    requires !Contains(s, pat)
    ensures ReplaceFirst(s, pat, rep) == s
    decreases |s|
  {
    if |s| > 0 {
      ReplaceFirstAbsent(s[1..], pat, rep);
    }
  }

  lemma {:induction false} ReplaceFirstSame(s: string, pat: string)
    ensures ReplaceFirst(s, pat, pat) == s
    decreases |s|
  {
    if !(pat <= s) && |s| > 0 {
      ReplaceFirstSame(s[1..], pat);
    }
  }

  /** A prefix in which no occurrence of `pat` starts is left as it is. */
  lemma {:induction false} ReplaceFirstSkips(p: string, s: string, pat: string, rep: string)
    requires NoneStartsWithin(p, pat)
    ensures ReplaceFirst(p + s, pat, rep) == p + ReplaceFirst(s, pat, rep)
    decreases |p|
  {
    if |p| > 0 {
      assert p[0..] == p;
      ClashNotPrefix(p, pat, s);
      assert NoneStartsWithin(p[1..], pat) by {
        forall i | 0 <= i < |p[1..]| ensures Clash(p[1..][i..], pat) {
          assert p[1..][i..] == p[i + 1..];
        }
      }
      ReplaceFirstSkips(p[1..], s, pat, rep);
      calc {
        ReplaceFirst(p + s, pat, rep);
        [(p + s)[0]] + ReplaceFirst((p + s)[1..], pat, rep);
        { assert (p + s)[1..] == p[1..] + s; }
        [p[0]] + (p[1..] + ReplaceFirst(s, pat, rep));
        { assert [p[0]] + p[1..] == p; }
        p + ReplaceFirst(s, pat, rep);
      }
    } else {
      assert p + s == s;
    }
  }

  /** `s.replace(pat, "")` for a non-empty `pat`: every occurrence, scanning left to right, is removed. */
  function RemoveAll(s: string, pat: string): string
    requires |pat| > 0
    decreases |s|
  {
    if |s| == 0 then s
    else if pat <= s then RemoveAll(s[|pat|..], pat)
    else [s[0]] + RemoveAll(s[1..], pat)
  }

  lemma {:induction false} RemoveAllAbsent(s: string, pat: string)
    requires |pat| > 0 && !Contains(s, pat)
    ensures RemoveAll(s, pat) == s
    decreases |s|
  {
    if |s| > 0 {
      RemoveAllAbsent(s[1..], pat);
    }
  }

  lemma {:induction false} RemoveAllSkips(p: string, s: string, pat: string)
    requires |pat| > 0 && NoneStartsWithin(p, pat)
    ensures RemoveAll(p + s, pat) == p + RemoveAll(s, pat)
    decreases |p|
  {
    if |p| > 0 {
      assert p[0..] == p;
      ClashNotPrefix(p, pat, s);
      assert NoneStartsWithin(p[1..], pat) by {
        forall i | 0 <= i < |p[1..]| ensures Clash(p[1..][i..], pat) {
          assert p[1..][i..] == p[i + 1..];
        }
      }
      RemoveAllSkips(p[1..], s, pat);
      calc {
        RemoveAll(p + s, pat);
        [(p + s)[0]] + RemoveAll((p + s)[1..], pat);
        { assert (p + s)[1..] == p[1..] + s; }
        [p[0]] + (p[1..] + RemoveAll(s, pat));
        { assert [p[0]] + p[1..] == p; }
        p + RemoveAll(s, pat);
      }
    } else {
      assert p + s == s;
    }
  }

  lemma RemoveAllHead(s: string, pat: string)
    requires |pat| > 0
    ensures RemoveAll(pat + s, pat) == RemoveAll(s, pat)
  {
    assert pat <= pat + s;
    assert (pat + s)[|pat|..] == s;
  }

  /** `s.split(sep)`: the pieces between occurrences of `sep`, always at least one. */
  function Split(s: string, sep: char): (parts: seq<string>)
    ensures |parts| >= 1
  {
    if |s| == 0 then [""]
    else
      var rest := Split(s[1..], sep);
      if s[0] == sep then [""] + rest else [[s[0]] + rest[0]] + rest[1..]
  }

  /** `sep.join(parts)`. */
  function Join(parts: seq<string>, sep: char): string
  {
    if |parts| == 0 then ""
    else if |parts| == 1 then parts[0]
    else parts[0] + [sep] + Join(parts[1..], sep)
  }

  /** Splitting loses nothing: the pieces joined back with the separator give the input,
      and no piece holds the separator. */
  lemma SplitJoin(s: string, sep: char)
    ensures Join(Split(s, sep), sep) == s
    ensures forall i :: 0 <= i < |Split(s, sep)| ==> sep !in Split(s, sep)[i]
  {
    SplitRejoins(s, sep);
    SplitPiecesFree(s, sep);
  }

  lemma {:induction false} SplitRejoins(s: string, sep: char)
    ensures Join(Split(s, sep), sep) == s
    decreases |s|
  {
    if |s| > 0 {
      var rest := Split(s[1..], sep);
      SplitRejoins(s[1..], sep);
      assert s == [s[0]] + s[1..];
      if s[0] == sep {
        assert Split(s, sep) == [""] + rest;
        assert ([""] + rest)[1..] == rest;
      } else {
        var parts := [[s[0]] + rest[0]] + rest[1..];
        assert Split(s, sep) == parts;
        if |rest| == 1 {
          assert Join(parts, sep) == [s[0]] + rest[0];
        } else {
          assert parts[1..] == rest[1..];
          assert Join(rest, sep) == rest[0] + [sep] + Join(rest[1..], sep);
          assert Join(parts, sep) == [s[0]] + rest[0] + [sep] + Join(rest[1..], sep);
        }
      }
    }
  }

  lemma {:induction false} SplitPiecesFree(s: string, sep: char)
    ensures forall i :: 0 <= i < |Split(s, sep)| ==> sep !in Split(s, sep)[i]
    decreases |s|
  {
    if |s| > 0 {
      var rest := Split(s[1..], sep);
      SplitPiecesFree(s[1..], sep);
      if s[0] != sep {
        var parts := [[s[0]] + rest[0]] + rest[1..];
        assert Split(s, sep) == parts;
        forall i | 0 <= i < |parts| ensures sep !in parts[i] {
          if i == 0 {
            assert sep !in rest[0];
          } else {
            assert parts[i] == rest[i];
          }
        }
      }
    }
  }

  predicate IsDigit(c: char) { '0' <= c <= '9' }

  predicate AllDigits(s: string) { forall i :: 0 <= i < |s| ==> IsDigit(s[i]) }

  /** The value of a string of decimal digits, most significant first. */
  function DigitsValue(s: string): nat
    requires AllDigits(s)
  {
    if |s| == 0 then 0 else 10 * DigitsValue(s[..|s| - 1]) + (s[|s| - 1] as int - '0' as int)
  }

  /** `int(s)` for a string: an optional sign followed by one or more ASCII digits;
      anything else is Python's ValueError, here `None`. */
  function ParseInt(s: string): Option<int>
  {
    if |s| > 0 && (s[0] == '-' || s[0] == '+') then
      if |s| > 1 && AllDigits(s[1..]) then
        var magnitude: int := DigitsValue(s[1..]);
        Some(if s[0] == '-' then -magnitude else magnitude)
      else None
    else if |s| > 0 && AllDigits(s) then Some(DigitsValue(s))
    else None
  }

  /** `str(n)` for a natural number. */
  function NatToString(n: nat): (s: string)
    ensures |s| > 0 && AllDigits(s)
  {
    if n < 10 then [('0' as int + n) as char]
    else NatToString(n / 10) + [('0' as int + n % 10) as char]
  }

  /** `str(i)` for an integer. */
  function IntToString(i: int): string
  {
    if i < 0 then "-" + NatToString(-i) else NatToString(i)
  }

  lemma {:induction false} NatToStringValue(n: nat)
    ensures DigitsValue(NatToString(n)) == n
  {
    if n >= 10 {
      NatToStringValue(n / 10);
      var s := NatToString(n);
      assert s[..|s| - 1] == NatToString(n / 10);
    }
  }

  /** `int(str(i)) == i`. */
  lemma ParseIntOfIntToString(i: int)
    ensures ParseInt(IntToString(i)) == Some(i)
  {
    if i < 0 {
      var s := IntToString(i);
      assert s[1..] == NatToString(-i);
      NatToStringValue(-i);
    } else {
      NatToStringValue(i);
      assert NatToString(i)[0] != '-' && NatToString(i)[0] != '+' by {
        assert IsDigit(NatToString(i)[0]);
      }
    }
  }

  /** Three-way comparison of texts by code point, as an ORDER BY on a text column with a
      binary collation: negative, zero or positive. */
  function CompareText(a: string, b: string): int
  {
    if |a| == 0 then (if |b| == 0 then 0 else -1)
    else if |b| == 0 then 1
    else if a[0] < b[0] then -1
    else if a[0] > b[0] then 1
    else CompareText(a[1..], b[1..])
  }

  lemma {:induction false} CompareTextProperties(a: string, b: string)
    ensures CompareText(a, b) == -CompareText(b, a)
    ensures CompareText(a, b) == 0 <==> a == b
    ensures -1 <= CompareText(a, b) <= 1
  {
    if |a| > 0 && |b| > 0 && a[0] == b[0] {
      CompareTextProperties(a[1..], b[1..]);
      assert a == [a[0]] + a[1..] && b == [b[0]] + b[1..];
    }
  }

  lemma {:induction false} CompareTextTransitive(a: string, b: string, c: string)
    requires CompareText(a, b) <= 0 && CompareText(b, c) <= 0
    ensures CompareText(a, c) <= 0
    ensures CompareText(a, c) == 0 ==> CompareText(a, b) == 0
  {
    if |a| > 0 && |b| > 0 && |c| > 0 && a[0] == b[0] && b[0] == c[0] {
      CompareTextTransitive(a[1..], b[1..], c[1..]);
    }
    if CompareText(a, c) == 0 {
      CompareTextProperties(a, c);
      CompareTextProperties(a, b);
      CompareTextProperties(b, c);
    }
  }
}
