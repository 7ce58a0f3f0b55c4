/**
 * The behaviour of Python's built-in `str` and list operations that the dump
 * script relies on: `strip`, `split('\n')`, `'sep'.join`, `upper`, `endswith`,
 * and the cleaning comprehension `[p.strip() for p in ps if p.strip()]`.
 * Whitespace and case are restricted to ASCII.
 */
module Text {
  import opened Seqs

  /** `str.isspace()` on one ASCII character: \t \n \v \f \r, 0x1C-0x1F and space. */
  predicate IsSpace(c: char) {
    var n := c as int;
    n == 32 || 9 <= n <= 13 || 28 <= n <= 31
  }

  predicate AllSpace(s: string) {
    forall i :: 0 <= i < |s| ==> IsSpace(s[i])
  }

  /** A string with no whitespace at either end. */
  predicate IsStripped(s: string) {
    s == [] || (!IsSpace(s[0]) && !IsSpace(s[|s| - 1]))
  }

  /** `str.lstrip()`: drops the leading whitespace. */
  function TrimStart(s: string): (r: string)
    ensures |r| <= |s|
    ensures r == [] || !IsSpace(r[0])
  {
    if |s| > 0 && IsSpace(s[0]) then TrimStart(s[1..]) else s
  }

  /** `str.rstrip()`: drops the trailing whitespace; what is left starts where `s` starts. */
  function TrimEnd(s: string): (r: string)
    ensures |r| <= |s|
    ensures r == [] || (!IsSpace(r[|r| - 1]) && r[0] == s[0])
  {
    if |s| > 0 && IsSpace(s[|s| - 1]) then TrimEnd(s[..|s| - 1]) else s
  }

  /** What `lstrip()` keeps is a suffix of `s`, and all before it is whitespace. */
  lemma {:induction false} TrimStartIsSuffix(s: string)
    ensures TrimStart(s) == s[|s| - |TrimStart(s)|..]
    ensures AllSpace(s[..|s| - |TrimStart(s)|])
  {
    if |s| > 0 && IsSpace(s[0]) {
      var r := TrimStart(s[1..]);
      TrimStartIsSuffix(s[1..]);
      assert s[1..][|s| - 1 - |r|..] == s[|s| - |r|..];
      assert s[..|s| - |r|] == [s[0]] + s[1..][..|s| - 1 - |r|];
    }
  }

  /** What `rstrip()` keeps is a prefix of `s`, and all after it is whitespace. */
  lemma {:induction false} TrimEndIsPrefix(s: string)
    ensures TrimEnd(s) == s[..|TrimEnd(s)|]
    ensures AllSpace(s[|TrimEnd(s)|..])
  {
    if |s| > 0 && IsSpace(s[|s| - 1]) {
      var r := TrimEnd(s[..|s| - 1]);
      TrimEndIsPrefix(s[..|s| - 1]);
      assert s[..|s| - 1][..|r|] == s[..|r|];
      assert s[|r|..] == s[..|s| - 1][|r|..] + [s[|s| - 1]];
    }
  }

  /** How many whitespace characters `str.strip()` removes from the front. */
  function LeadingSpace(s: string): nat {
    |s| - |TrimStart(s)|
  }

  /** `str.strip()`: the whitespace at both ends removed. */
  function Strip(s: string): (r: string)
    ensures IsStripped(r) && |r| <= |s|
  {
    TrimEnd(TrimStart(s))
  }

  /**
   * What `strip()` keeps is the slice of `s` left once the whitespace at both
   * ends is gone: all that precedes it and all that follows it is whitespace.
   */
  lemma StripIsSlice(s: string)
    ensures LeadingSpace(s) + |Strip(s)| <= |s|
    ensures Strip(s) == s[LeadingSpace(s)..LeadingSpace(s) + |Strip(s)|]
    ensures AllSpace(s[..LeadingSpace(s)]) && AllSpace(s[LeadingSpace(s) + |Strip(s)|..])
  {
    var t := TrimStart(s);
    var r := TrimEnd(t);
    var l := LeadingSpace(s);
    TrimStartIsSuffix(s);
    TrimEndIsPrefix(t);
    assert t == s[l..];
    DropSlices(s, l, |r|);
  }

  /** Python's truthiness of a stripped string: `strip()` yields "" exactly for blank strings. */
  lemma StripEmptyIffBlank(s: string)
    ensures Strip(s) == [] <==> AllSpace(s)
  {
    var l := LeadingSpace(s);
    StripIsSlice(s);
    if Strip(s) == [] {
      forall i | 0 <= i < |s| ensures IsSpace(s[i]) {
        if i < l {
          assert s[i] == s[..l][i];
        } else {
          assert s[i] == s[l + |Strip(s)|..][i - l];
        }
      }
    }
  }

  /** `strip()` leaves an already stripped string alone, so stripping twice is stripping once. */
  lemma StripIdempotent(s: string)
    ensures Strip(Strip(s)) == Strip(s)
  {
    StripFixesStripped(Strip(s));
  }

  lemma StripFixesStripped(s: string)
    requires IsStripped(s)
    ensures Strip(s) == s
  {
    assert TrimStart(s) == s;
    assert TrimEnd(s) == s;
  }

  /**
   * Concatenation is associative. Stated over an arbitrary element type so that
   * proofs about lists of strings need not compare the strings themselves.
   */
  lemma {:induction false} TrimStartPadded(lead: string, x: string)
    requires AllSpace(lead) && (x == [] || !IsSpace(x[0]))
    ensures TrimStart(lead + x) == x
  {
    if lead != [] {
      assert (lead + x)[1..] == lead[1..] + x;
      TrimStartPadded(lead[1..], x);
    } else {
      assert lead + x == x;
    }
  }

  lemma {:induction false} TrimEndPadded(x: string, trail: string)
    requires AllSpace(trail) && (x == [] || !IsSpace(x[|x| - 1]))
    ensures TrimEnd(x + trail) == x
  {
    if trail != [] {
      assert (x + trail)[..|x + trail| - 1] == x + trail[..|trail| - 1];
      TrimEndPadded(x, trail[..|trail| - 1]);
    } else {
      assert x + trail == x;
    }
  }

  /**
   * `strip()` is determined by what it keeps: a stripped text surrounded by
   * whitespace strips to that text.
   */
  lemma StripPadded(lead: string, x: string, trail: string)
    requires AllSpace(lead) && AllSpace(trail) && IsStripped(x) && x != []
    ensures Strip(lead + x + trail) == x
  {
    assert lead + x + trail == lead + (x + trail);
    TrimStartPadded(lead, x + trail);
    TrimEndPadded(x, trail);
  }

  /** `s.split('\n')`: the pieces between newlines, always at least one. */
  function SplitLines(s: string): (r: seq<string>)
    ensures |r| >= 1
    ensures forall k :: 0 <= k < |r| ==> '\n' !in r[k]
  {
    if |s| == 0 then
      [""]
    else
      var rest := SplitLines(s[1..]);
      if s[0] == '\n' then [""] + rest else [[s[0]] + rest[0]] + rest[1..]
  }

  /** The summed length of the parts. */
  function TotalLength(parts: seq<string>): nat {
    if parts == [] then 0 else |parts[0]| + TotalLength(parts[1..])
  }

  /** `sep.join(parts)`: the parts with one separator between each two neighbours. */
  function Join(parts: seq<string>, sep: string): (r: string)
    ensures |r| >= TotalLength(parts)
  {
    if |parts| == 0 then ""
    else if |parts| == 1 then parts[0]
    else parts[0] + sep + Join(parts[1..], sep)
  }

  /** A join is as long as its parts together plus one separator between each two neighbours. */
  lemma {:induction false} JoinLength(parts: seq<string>, sep: string)
    requires parts != []
    ensures |Join(parts, sep)| + |sep| == TotalLength(parts) + |parts| * |sep|
  {
    if |parts| > 1 {
      JoinLength(parts[1..], sep);
      assert |parts| * |sep| == |sep| + |parts[1..]| * |sep|;
    }
  }

  /** Joining two non-empty lists is joining each and gluing them with one separator. */
  lemma {:induction false} JoinAppend(a: seq<string>, b: seq<string>, sep: string)
    requires a != [] && b != []
    ensures Join(a + b, sep) == Join(a, sep) + sep + Join(b, sep)
  {
    if |a| == 1 {
      assert (a + b)[1..] == b;
    } else {
      assert (a + b)[1..] == a[1..] + b;
      JoinAppend(a[1..], b, sep);
    }
  }

  /** A join of a non-empty list starts with its first part and ends with its last part. */
  lemma {:induction false} JoinEnds(parts: seq<string>, sep: string)
    requires parts != []
    ensures |Join(parts, sep)| >= |parts[0]| && |Join(parts, sep)| >= |parts[|parts| - 1]|
    ensures Join(parts, sep)[..|parts[0]|] == parts[0]
    ensures Join(parts, sep)[|Join(parts, sep)| - |parts[|parts| - 1]|..] == parts[|parts| - 1]
  {
    if |parts| > 1 {
      JoinEnds(parts[1..], sep);
      var j := Join(parts[1..], sep);
      assert Join(parts, sep) == parts[0] + (sep + j);
    }
  }

  /** Joining the pieces of a split with newlines gives back the split text. */
  lemma {:induction false} JoinSplitLines(s: string)
    ensures Join(SplitLines(s), "\n") == s
  {
    if |s| > 0 {
      var rest := SplitLines(s[1..]);
      JoinSplitLines(s[1..]);
      if s[0] == '\n' {
        assert SplitLines(s) == [""] + rest;
      } else {
        var r := SplitLines(s);
        assert r[0] == [s[0]] + rest[0] && r[1..] == rest[1..];
        if |rest| > 1 {
          assert Join(rest, "\n") == rest[0] + "\n" + Join(rest[1..], "\n");
        }
      }
    }
  }

  lemma {:induction false} SplitLinesOfLine(p: string)
    requires '\n' !in p
    ensures SplitLines(p) == [p]
  {
    if |p| > 0 {
      SplitLinesOfLine(p[1..]);
      assert [p[0]] + p[1..] == p;
    }
  }

  lemma {:induction false} SplitLinesCons(p: string, rest: string)
    requires '\n' !in p
    ensures SplitLines(p + "\n" + rest) == [p] + SplitLines(rest)
  {
    if |p| == 0 {
      assert (p + "\n" + rest)[1..] == rest;
    } else {
      assert (p + "\n" + rest)[1..] == p[1..] + "\n" + rest;
      SplitLinesCons(p[1..], rest);
      assert [p[0]] + p[1..] == p;
    }
  }

  /** Splitting newline-joined lines that hold no newline gives back the lines. */
  lemma {:induction false} SplitJoinLines(parts: seq<string>)
    requires parts != []
    requires forall k :: 0 <= k < |parts| ==> '\n' !in parts[k]
    ensures SplitLines(Join(parts, "\n")) == parts
  {
    if |parts| == 1 {
      SplitLinesOfLine(parts[0]);
    } else {
      SplitJoinLines(parts[1..]);
      SplitLinesCons(parts[0], Join(parts[1..], "\n"));
    }
  }

  /** A text with a non-blank character has a non-blank piece once split at newlines. */
  lemma {:induction false} NonBlankPiece(s: string) returns (k: nat)
    requires !AllSpace(s)
    ensures k < |SplitLines(s)| && !AllSpace(SplitLines(s)[k])
  {
    var rest := SplitLines(s[1..]);
    if IsSpace(s[0]) {
      assert !AllSpace(s[1..]) by {
        var i :| 0 <= i < |s| && !IsSpace(s[i]);
        assert s[1..][i - 1] == s[i];
      }
      var j := NonBlankPiece(s[1..]);
      if s[0] == '\n' {
        k := j + 1;
        assert SplitLines(s)[k] == rest[j];
      } else if j == 0 {
        k := 0;
        var i :| 0 <= i < |rest[0]| && !IsSpace(rest[0][i]);
        assert SplitLines(s)[0][i + 1] == rest[0][i];
      } else {
        k := j;
        assert SplitLines(s)[k] == rest[j];
      }
    } else {
      k := 0;
      assert SplitLines(s)[0][0] == s[0];
    }
  }

  /** `[p.strip() for p in pieces if p.strip()]`: stripped pieces, blank ones dropped, order kept. */
  function Cleaned(pieces: seq<string>): (r: seq<string>)
    ensures |r| <= |pieces|
    ensures forall k :: 0 <= k < |r| ==> r[k] != "" && IsStripped(r[k])
  {
    if pieces == [] then
      []
    else
      var h := Strip(pieces[0]);
      (if h == "" then [] else [h]) + Cleaned(pieces[1..])
  }

  lemma CleanedSingle(p: string)
    ensures Cleaned([p]) == if Strip(p) == "" then [] else [Strip(p)]
  {
    assert [p][1..] == [];
  }

  /** Cleaning works piece by piece: the cleaned concatenation is the concatenation of the cleaned parts. */
  lemma {:induction false} CleanedAppend(a: seq<string>, b: seq<string>)
    ensures Cleaned(a + b) == Cleaned(a) + Cleaned(b)
  {
    if a != [] {
      assert (a + b)[1..] == a[1..] + b;
      CleanedAppend(a[1..], b);
    } else {
      assert a + b == b;
    }
  }

  /** A piece that is not blank survives cleaning, so the cleaned list is not empty. */
  lemma {:induction false} CleanedNonEmpty(pieces: seq<string>, k: nat)
    requires k < |pieces| && !AllSpace(pieces[k])
    ensures Cleaned(pieces) != []
  {
    if k == 0 {
      StripEmptyIffBlank(pieces[0]);
    } else {
      CleanedNonEmpty(pieces[1..], k - 1);
    }
  }

  /** Cleaning the pieces of a split yields lines without a newline. */
  lemma {:induction false} CleanedHasNoNewline(pieces: seq<string>)
    requires forall k :: 0 <= k < |pieces| ==> '\n' !in pieces[k]
    ensures forall k :: 0 <= k < |Cleaned(pieces)| ==> '\n' !in Cleaned(pieces)[k]
  {
    if pieces != [] {
      StripIsSlice(pieces[0]);
      CleanedHasNoNewline(pieces[1..]);
    }
  }

  /** The cleaned lines of a text that is not blank: at least one. */
  lemma CleanedLinesNonEmpty(s: string)
    requires Strip(s) != ""
    ensures Cleaned(SplitLines(s)) != []
  {
    StripEmptyIffBlank(s);
    var k := NonBlankPiece(s);
    CleanedNonEmpty(SplitLines(s), k);
  }

  predicate IsLower(c: char) {
    'a' <= c <= 'z'
  }

  function UpperChar(c: char): char {
    if IsLower(c) then (c as int - 32) as char else c
  }

  /** `str.upper()` on ASCII: every lower-case letter becomes its capital, every other character stays. */
  function Upper(s: string): (r: string)
    ensures |r| == |s|
    ensures forall i :: 0 <= i < |r| ==> !IsLower(r[i])
    ensures forall i :: 0 <= i < |s| && IsLower(s[i]) ==> 'A' <= r[i] <= 'Z' && r[i] as int == s[i] as int - 32
    ensures forall i :: 0 <= i < |s| && !IsLower(s[i]) ==> r[i] == s[i]
  {
    seq(|s|, i requires 0 <= i < |s| => UpperChar(s[i]))
  }

  /** `s.endswith(suffix)`: `s` is some text followed by `suffix`. */
  function EndsWith(s: string, suffix: string): (b: bool)
    ensures b <==> exists p :: s == p + suffix
  {
    if |suffix| <= |s| && s[|s| - |suffix|..] == suffix then
      TakeDrop(s, |s| - |suffix|);
      true
    else
      assert forall p :: s != p + suffix by {
        forall p ensures s != p + suffix {
          SuffixOfConcat(p, suffix);
        }
      }
      false
  }

}
