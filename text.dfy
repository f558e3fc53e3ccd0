/**
 * The Ruby string operations the identifier code relies on, on `seq<char>`:
 * `\d` (ASCII digits only), `gsub` of a single character, `strip` and
 * `split` on a one-character separator.
 */
module Text {

  /** Ruby's `\d` matches the ASCII digits only. */
  predicate IsDigit(c: char) {
    '0' <= c <= '9'
  }

  /** The characters `String#strip` removes: NUL, tab, line feed, vertical tab, form feed, carriage return, space. */
  predicate IsStripSpace(c: char) {
    c == '\0' || c == '\t' || c == '\n' || c == '\U{000B}' || c == '\U{000C}' || c == '\r' || c == ' '
  }

  /** `s.gsub(from, to)` for one-character strings: every occurrence replaced, nothing else touched. */
  function ReplaceChar(s: string, from: char, to: char): (r: string)
    ensures |r| == |s|
    ensures forall i :: 0 <= i < |s| ==> r[i] == (if s[i] == from then to else s[i])
  {
    if s == [] then [] else [if s[0] == from then to else s[0]] + ReplaceChar(s[1..], from, to)
  }

  /** Replacing works piece by piece: it commutes with concatenation. */
  lemma {:induction false} ReplaceCharAppend(a: string, b: string, from: char, to: char)
    ensures ReplaceChar(a + b, from, to) == ReplaceChar(a, from, to) + ReplaceChar(b, from, to)
  {
    var r, ra, rb := ReplaceChar(a + b, from, to), ReplaceChar(a, from, to), ReplaceChar(b, from, to);
    forall i | 0 <= i < |r|
      ensures r[i] == (ra + rb)[i]
    {
      if i < |a| {
        assert (a + b)[i] == a[i];
      } else {
        assert (a + b)[i] == b[i - |a|];
      }
    }
  }

  /** A string without `from` is left as it is. */
  lemma ReplaceCharAbsent(s: string, from: char, to: char)
    requires from !in s
    ensures ReplaceChar(s, from, to) == s
  {
  }

  /** `s.gsub(c, "")`: every occurrence of `c` dropped, every other character kept. */
  function RemoveChar(s: string, c: char): (r: string)
    ensures c !in r
    ensures |r| <= |s|
  {
    if s == [] then [] else (if s[0] == c then [] else [s[0]]) + RemoveChar(s[1..], c)
  }

  /** Removing a character works piece by piece: it commutes with concatenation. */
  lemma {:induction false} RemoveCharAppend(a: string, b: string, c: char)
    ensures RemoveChar(a + b, c) == RemoveChar(a, c) + RemoveChar(b, c)
  {
    if a == [] {
      assert a + b == b;
    } else {
      var h := if a[0] == c then [] else [a[0]];
      assert (a + b)[0] == a[0] && (a + b)[1..] == a[1..] + b;
      calc {
        RemoveChar(a + b, c);
        h + RemoveChar(a[1..] + b, c);
        { RemoveCharAppend(a[1..], b, c); }
        h + (RemoveChar(a[1..], c) + RemoveChar(b, c));
        (h + RemoveChar(a[1..], c)) + RemoveChar(b, c);
        RemoveChar(a, c) + RemoveChar(b, c);
      }
    }
  }

  /** A string without `c` is left as it is. */
  lemma {:induction false} RemoveCharAbsent(s: string, c: char)
    requires c !in s
    ensures RemoveChar(s, c) == s
  {
    if s != [] {
      RemoveCharAbsent(s[1..], c);
    }
  }

  /** Exactly the characters of `s` other than `c` survive `RemoveChar`. */
  lemma {:induction false} RemoveCharMembers(s: string, c: char, x: char)
    ensures x in RemoveChar(s, c) <==> x in s && x != c
  {
    if s != [] {
      RemoveCharMembers(s[1..], c, x);
      assert x in s <==> x == s[0] || x in s[1..];
    }
  }

  /** A string with one occurrence of `from` gets exactly that character replaced. */
  lemma ReplaceSingle(a: string, b: string, from: char, to: char)
    requires from !in a && from !in b
    ensures ReplaceChar(a + [from] + b, from, to) == a + [to] + b
  {
    ReplaceCharAppend(a + [from], b, from, to);
    ReplaceCharAppend(a, [from], from, to);
    ReplaceCharAbsent(a, from, to);
    ReplaceCharAbsent(b, from, to);
  }

  /** A string with one occurrence of `c` loses exactly that character. */
  lemma RemoveSingle(a: string, b: string, c: char)
    requires c !in a && c !in b
    ensures RemoveChar(a + [c] + b, c) == a + b
  {
    var ac := a + [c];
    RemoveCharAppend(ac, b, c);
    RemoveCharAppend(a, [c], c);
    assert [c][1..] == [];
    assert RemoveChar([c], c) == [];
    RemoveCharAbsent(a, c);
    RemoveCharAbsent(b, c);
    assert RemoveChar(ac, c) == a;
  }

  /** The number of strip-whitespace characters `s` starts with. */
  function LeadingSpaces(s: string): (n: nat)
    ensures n <= |s|
    ensures forall i :: 0 <= i < n ==> IsStripSpace(s[i])
    ensures n == |s| || !IsStripSpace(s[n])
  {
    if s == [] || !IsStripSpace(s[0]) then 0 else 1 + LeadingSpaces(s[1..])
  }

  /** The number of strip-whitespace characters `s` ends with. */
  function TrailingSpaces(s: string): (n: nat)
    ensures n <= |s|
    ensures forall i :: |s| - n <= i < |s| ==> IsStripSpace(s[i])
    ensures n == |s| || !IsStripSpace(s[|s| - n - 1])
  {
    if s == [] || !IsStripSpace(s[|s| - 1]) then 0 else 1 + TrailingSpaces(s[..|s| - 1])
  }

  /**
   * `String#strip`: the infix of `s` left once its leading and its trailing
   * whitespace are removed; a string with neither is returned unchanged.
   */
  function Strip(s: string): (r: string)
    ensures r == [] || (!IsStripSpace(r[0]) && !IsStripSpace(r[|r| - 1]))
    ensures LeadingSpaces(s) + |r| <= |s| && r == s[LeadingSpaces(s)..LeadingSpaces(s) + |r|]
    ensures forall c :: c in r ==> c in s
    ensures (s == [] || (!IsStripSpace(s[0]) && !IsStripSpace(s[|s| - 1]))) ==> r == s
    ensures LeadingSpaces(s) == |s| ==> r == []
    ensures LeadingSpaces(s) < |s| ==> |r| == |s| - LeadingSpaces(s) - TrailingSpaces(s)
  {
    var a := LeadingSpaces(s);
    if a == |s| then []
    else
      var b := TrailingSpaces(s);
      s[a..|s| - b]
  }

  /**
   * All the fields of `s` between occurrences of `sep`, empty ones included
   * (Ruby's `split(sep, -1)`): there is always at least one.
   */
  function Fields(s: string, sep: char): (r: seq<string>)
    ensures |r| >= 1
    ensures forall i :: 0 <= i < |r| ==> sep !in r[i]
  {
    if s == [] then [""]
    else
      var rest := Fields(s[1..], sep);
      if s[0] == sep then [""] + rest else [[s[0]] + rest[0]] + rest[1..]
  }

  /** The fields joined back with `sep` between them. */
  function Join(fs: seq<string>, sep: char): string
    requires |fs| >= 1
  {
    if |fs| == 1 then fs[0] else fs[0] + [sep] + Join(fs[1..], sep)
  }

  /** Splitting undoes joining, for fields that do not contain the separator. */
  lemma {:induction false} FieldsOfJoin(fs: seq<string>, sep: char)
    requires |fs| >= 1
    requires forall i :: 0 <= i < |fs| ==> sep !in fs[i]
    ensures Fields(Join(fs, sep), sep) == fs
  {
    if |fs| == 1 {
      FieldsOfFieldFree(fs[0], sep);
    } else {
      FieldsOfJoin(fs[1..], sep);
      FieldsOfPrefix(fs[0], Join(fs[1..], sep), sep);
      assert [fs[0]] + fs[1..] == fs;
    }
  }

  /** A string without the separator is a single field. */
  lemma {:induction false} FieldsOfFieldFree(s: string, sep: char)
    requires sep !in s
    ensures Fields(s, sep) == [s]
  {
    if s != [] {
      FieldsOfFieldFree(s[1..], sep);
      assert [s[0]] + s[1..] == s;
    }
  }

  /** A separator-free prefix followed by the separator becomes the first field. */
  lemma {:induction false} FieldsOfPrefix(x: string, y: string, sep: char)
    requires sep !in x
    ensures Fields(x + [sep] + y, sep) == [x] + Fields(y, sep)
  {
    if x == [] {
      assert x + [sep] + y == [sep] + y;
      assert ([sep] + y)[1..] == y;
    } else {
      FieldsOfPrefix(x[1..], y, sep);
      assert (x + [sep] + y)[1..] == x[1..] + [sep] + y;
      assert [x[0]] + x[1..] == x;
    }
  }

  /** Ruby's `split(sep)` with the default limit: trailing empty fields are dropped, so `""` gives `[]`. */
  function Split(s: string, sep: char): (r: seq<string>)
    ensures |r| <= |Fields(s, sep)| && r == Fields(s, sep)[..|r|]
    ensures r == [] || r[|r| - 1] != ""
    ensures forall i :: |r| <= i < |Fields(s, sep)| ==> Fields(s, sep)[i] == ""
  {
    DropTrailingEmpty(Fields(s, sep))
  }

  function DropTrailingEmpty(fs: seq<string>): (r: seq<string>)
    ensures |r| <= |fs| && r == fs[..|r|]
    ensures r == [] || r[|r| - 1] != ""
    ensures forall i :: |r| <= i < |fs| ==> fs[i] == ""
  {
    if fs == [] || fs[|fs| - 1] != "" then fs else DropTrailingEmpty(fs[..|fs| - 1])
  }
}
