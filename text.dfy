/** String operations of the JavaScript runtime that the quote code relies on:
    `trim`, `split("\n")`, `filter(Boolean)`, case mapping, `includes`,
    `replace` with a string pattern and the `/\/$/` trailing-slash regex. */
module Text {

  /** The characters `String.prototype.trim` removes: WhiteSpace and LineTerminator of ECMAScript. */
  predicate IsSpace(c: char) {
    || c == '\t' || c == '\n' || c == '\U{000B}' || c == '\U{000C}' || c == '\r' || c == ' '
    || c == '\U{00A0}' || c == '\U{1680}' || ('\U{2000}' <= c <= '\U{200A}')
    || c == '\U{2028}' || c == '\U{2029}' || c == '\U{202F}' || c == '\U{205F}'
    || c == '\U{3000}' || c == '\U{FEFF}'
  }

  /** Every character is white space (this includes the empty string). */
  predicate IsBlank(s: string) {
    forall k :: 0 <= k < |s| ==> IsSpace(s[k])
  }

  /** Neither end of `s` is white space. */
  predicate IsTrimmed(s: string) {
    s == [] || (!IsSpace(s[0]) && !IsSpace(s[|s| - 1]))
  }

  /** Drops leading white space; the result is the longest suffix starting with a non-space. */
  function TrimStart(s: string): (r: string)
    ensures |r| <= |s| && r == s[|s| - |r|..]
    ensures forall k :: 0 <= k < |s| - |r| ==> IsSpace(s[k])
    ensures r == [] || !IsSpace(r[0])
  {
    if s != [] && IsSpace(s[0]) then TrimStart(s[1..]) else s
  }

  /** Drops trailing white space; the result is the longest prefix ending with a non-space. */
  function TrimEnd(s: string): (r: string)
    ensures |r| <= |s| && r == s[..|r|]
    ensures forall k :: |r| <= k < |s| ==> IsSpace(s[k])
    ensures r == [] || !IsSpace(r[|r| - 1])
  {
    if s != [] && IsSpace(s[|s| - 1]) then TrimEnd(s[..|s| - 1]) else s
  }

  /** `s.trim()`: a contiguous part of `s`, trimmed, that is empty exactly when `s` is blank. */
  function Trim(s: string): (r: string)
    ensures IsTrimmed(r) && |r| <= |s|
    ensures r == [] <==> IsBlank(s)
  {
    TrimParts(s);
    TrimEnd(TrimStart(s))
  }

  lemma TrimParts(s: string)
    ensures IsTrimmed(TrimEnd(TrimStart(s)))
    ensures TrimEnd(TrimStart(s)) == [] <==> IsBlank(s)
  {
    TrimEndParts(TrimStart(s));
    BlankTrimStart(s);
  }

  /** The trimmed text sits in `s` right after the leading white space. */
  /** A prefix of a suffix of `s` occurs in `s` where the suffix starts. */
  lemma PrefixOfSuffix(s: string, a: string, r: string)
    requires |a| <= |s| && a == s[|s| - |a|..]
    requires |r| <= |a| && r == a[..|r|]
    ensures OccursAt(s, r, |s| - |a|)
  {
    assert s[|s| - |a|..|s| - |a| + |r|] == a[..|r|];
  }

  lemma TrimEndParts(a: string)
    requires a == [] || !IsSpace(a[0])
    ensures IsTrimmed(TrimEnd(a))
    ensures TrimEnd(a) == [] <==> a == []
  {
    var r := TrimEnd(a);
    if r != [] {
      assert r[0] == a[0];
    }
  }

  lemma BlankTrimStart(s: string)
    ensures TrimStart(s) == [] <==> IsBlank(s)
  {
    var a := TrimStart(s);
    if a != [] {
      assert s[|s| - |a|] == a[0];
    }
  }

  /** Trimming only cuts off the two ends: the result is a contiguous part of the input. */
  lemma TrimIsSlice(s: string)
    ensures exists i :: OccursAt(s, Trim(s), i)
  {
    var a := TrimStart(s);
    PrefixOfSuffix(s, a, TrimEnd(a));
    assert OccursAt(s, Trim(s), |s| - |a|);
  }

  lemma {:induction false} TrimStartOfTrimmed(s: string)
    requires s == [] || !IsSpace(s[0])
    ensures TrimStart(s) == s
  {
  }

  lemma {:induction false} TrimEndOfTrimmed(s: string)
    requires s == [] || !IsSpace(s[|s| - 1])
    ensures TrimEnd(s) == s
  {
  }

  /** Trimming leaves a trimmed string alone, so trimming twice is trimming once. */
  lemma {:induction false} TrimOfTrimmed(s: string)
    requires IsTrimmed(s)
    ensures Trim(s) == s
  {
    TrimStartOfTrimmed(s);
    TrimEndOfTrimmed(s);
  }

  lemma TrimIdempotent(s: string)
    ensures Trim(Trim(s)) == Trim(s)
  {
    TrimOfTrimmed(Trim(s));
  }

  /** Number of occurrences of `c` in `s`. */
  function Occurrences(s: string, c: char): nat
  {
    if s == [] then 0 else (if s[0] == c then 1 else 0) + Occurrences(s[1..], c)
  }

  /** `s.split(sep)` for a one-character separator: one more segment than separators,
      and no segment contains the separator. */
  function Split(s: string, sep: char): (r: seq<string>)
    ensures |r| == Occurrences(s, sep) + 1
    ensures forall i :: 0 <= i < |r| ==> sep !in r[i]
  {
    if s == [] then [[]]
    else
      var rest := Split(s[1..], sep);
      if s[0] == sep then [[]] + rest
      else [[s[0]] + rest[0]] + rest[1..]
  }

  /** `parts.join(sep)`, the inverse of Split. */
  function Join(parts: seq<string>, sep: char): string
  {
    if parts == [] then []
    else if |parts| == 1 then parts[0]
    else parts[0] + [sep] + Join(parts[1..], sep)
  }

  /** Splitting loses nothing: joining the segments back gives the input. */
  lemma {:induction false} JoinSplit(s: string, sep: char)
    ensures Join(Split(s, sep), sep) == s
  {
    if s != [] {
      JoinSplit(s[1..], sep);
      var rest := Split(s[1..], sep);
      assert s == [s[0]] + s[1..];
      if s[0] == sep {
        assert Split(s, sep) == [[]] + rest;
        assert Join(Split(s, sep), sep) == [] + [sep] + Join(rest, sep);
      } else if |rest| == 1 {
        assert Split(s, sep) == [[s[0]] + rest[0]];
      } else {
        assert Join(Split(s, sep), sep) == [s[0]] + rest[0] + [sep] + Join(rest[1..], sep);
        assert Join(rest, sep) == rest[0] + [sep] + Join(rest[1..], sep);
      }
    }
  }

  /** Splitting at a separator splits the segment lists: segment order is the text order. */
  lemma {:induction false} SplitAppend(a: string, b: string, sep: char)
    ensures Split(a + [sep] + b, sep) == Split(a, sep) + Split(b, sep)
  {
    if a == [] {
      assert a + [sep] + b == [sep] + b;
      assert ([sep] + b)[1..] == b;
    } else {
      assert (a + [sep] + b)[1..] == a[1..] + [sep] + b;
      SplitAppend(a[1..], b, sep);
    }
  }

  /** A string without the separator is a single segment. */
  lemma {:induction false} SplitNoSeparator(s: string, sep: char)
    requires sep !in s
    ensures Split(s, sep) == [s]
  {
    if s != [] {
      SplitNoSeparator(s[1..], sep);
      assert [s[0]] + s[1..] == s;
    }
  }

  /** Trims every segment and keeps the non-empty ones, in order (`.map(trim).filter(Boolean)`). */
  function TrimNonEmpty(lines: seq<string>): (r: seq<string>)
    ensures |r| <= |lines|
    ensures forall i :: 0 <= i < |r| ==> r[i] != [] && IsTrimmed(r[i])
  {
    if lines == [] then []
    else
      var t := Trim(lines[0]);
      var rest := TrimNonEmpty(lines[1..]);
      if t == [] then rest
      else
        ConsClean(t, rest);
        [t] + rest
  }

  /** Putting a non-empty trimmed entry in front of such entries keeps them all so. */
  lemma ConsClean(t: string, rest: seq<string>)
    requires t != [] && IsTrimmed(t)
    requires forall i :: 0 <= i < |rest| ==> rest[i] != [] && IsTrimmed(rest[i])
    ensures forall i :: 0 <= i < |[t] + rest| ==> ([t] + rest)[i] != [] && IsTrimmed(([t] + rest)[i])
  {
    forall i | 0 <= i < |[t] + rest|
      ensures ([t] + rest)[i] != [] && IsTrimmed(([t] + rest)[i])
    {
      if i > 0 {
        assert ([t] + rest)[i] == rest[i - 1];
      }
    }
  }

  /** TrimNonEmpty treats the segments one at a time, so it distributes over concatenation. */
  lemma {:induction false} TrimNonEmptyAppend(a: seq<string>, b: seq<string>)
    ensures TrimNonEmpty(a + b) == TrimNonEmpty(a) + TrimNonEmpty(b)
  {
    if a == [] {
      assert a + b == b;
    } else {
      DropFirstAppend(a, b);
      TrimNonEmptyAppend(a[1..], b);
      var t := Trim(a[0]);
      if t != [] {
        ConsAppend(t, TrimNonEmpty(a[1..]), TrimNonEmpty(b));
      }
    }
  }

  lemma ConsAppend<T>(x: T, a: seq<T>, b: seq<T>)
    ensures [x] + (a + b) == ([x] + a) + b
  {
  }

  lemma SplitAround<T>(s: seq<T>, i: int)
    requires 0 <= i < |s|
    ensures s == s[..i] + ([s[i]] + s[i + 1..])
  {
  }

  lemma DropFirstAppend<T>(a: seq<T>, b: seq<T>)
    requires a != []
    ensures (a + b)[0] == a[0] && (a + b)[1..] == a[1..] + b
  {
  }

  /** Every surviving entry is the trimmed form of some segment. */
  lemma {:induction false} TrimNonEmptyOrigin(lines: seq<string>, x: string)
    requires x in TrimNonEmpty(lines)
    ensures x != [] && exists i :: 0 <= i < |lines| && Trim(lines[i]) == x
  {
    var t := Trim(lines[0]);
    if x != t {
      TrimNonEmptyOrigin(lines[1..], x);
      var i :| 0 <= i < |lines[1..]| && Trim(lines[1..][i]) == x;
      assert Trim(lines[i + 1]) == x;
    }
  }

  /** The trimmed form of every non-blank segment survives. */
  lemma TrimNonEmptyKeeps(lines: seq<string>, i: int)
    requires 0 <= i < |lines| && Trim(lines[i]) != []
    ensures Trim(lines[i]) in TrimNonEmpty(lines)
  {
    var before, after := lines[..i], lines[i + 1..];
    SplitAround(lines, i);
    TrimNonEmptyAppend(before, [lines[i]] + after);
    TrimNonEmptyAppend([lines[i]], after);
    assert [lines[i]][1..] == [];
    var mid := TrimNonEmpty([lines[i]]);
    assert mid == [Trim(lines[i])];
    assert TrimNonEmpty(lines) == TrimNonEmpty(before) + (mid + TrimNonEmpty(after));
    assert TrimNonEmpty(lines)[|TrimNonEmpty(before)|] == Trim(lines[i]);
  }

  /** What survives: exactly the trimmed forms of the non-blank segments. */
  lemma TrimNonEmptyMembers(lines: seq<string>, x: string)
    ensures x in TrimNonEmpty(lines) <==> x != [] && exists i :: 0 <= i < |lines| && Trim(lines[i]) == x
  {
    if x in TrimNonEmpty(lines) {
      TrimNonEmptyOrigin(lines, x);
    }
    if x != [] && exists i :: 0 <= i < |lines| && Trim(lines[i]) == x {
      var i :| 0 <= i < |lines| && Trim(lines[i]) == x;
      TrimNonEmptyKeeps(lines, i);
    }
  }

  /** `value.split("\n").map((line) => line.trim()).filter(Boolean)`. */
  function SplitLines(s: string): (r: seq<string>)
    ensures forall i :: 0 <= i < |r| ==> r[i] != [] && IsTrimmed(r[i])
    ensures |r| <= Occurrences(s, '\n') + 1
  {
    TrimNonEmpty(Split(s, '\n'))
  }

  predicate AllBlank(lines: seq<string>) {
    forall k :: 0 <= k < |lines| ==> IsBlank(lines[k])
  }

  /** No segment survives exactly when every segment is blank. */
  lemma {:induction false} TrimNonEmptyEmpty(lines: seq<string>)
    ensures TrimNonEmpty(lines) == [] <==> AllBlank(lines)
  {
    if lines != [] {
      TrimNonEmptyEmpty(lines[1..]);
      if AllBlank(lines[1..]) {
        forall k | 1 <= k < |lines| ensures IsBlank(lines[k]) {
          assert lines[k] == lines[1..][k - 1];
        }
      }
    }
  }

  /** No line survives exactly when every line is blank. */
  lemma SplitLinesEmpty(s: string)
    ensures SplitLines(s) == [] <==> AllBlank(Split(s, '\n'))
  {
    TrimNonEmptyEmpty(Split(s, '\n'));
  }

  /** The lines of `a` come before the lines of `b`: the order of the text is kept. */
  lemma SplitLinesAppend(a: string, b: string)
    ensures SplitLines(a + "\n" + b) == SplitLines(a) + SplitLines(b)
  {
    SplitAppend(a, b, '\n');
    TrimNonEmptyAppend(Split(a, '\n'), Split(b, '\n'));
  }

  /** A single line yields its trimmed form, or nothing when it is blank. */
  lemma SplitLinesSingle(s: string)
    requires '\n' !in s
    ensures SplitLines(s) == if IsBlank(s) then [] else [Trim(s)]
  {
    SplitNoSeparator(s, '\n');
    assert [s][1..] == [];
  }

  /** `xs.filter(Boolean)` on strings: the non-empty entries, in order. */
  function Compact(xs: seq<string>): (r: seq<string>)
    ensures |r| <= |xs|
    ensures forall i :: 0 <= i < |r| ==> r[i] != []
  {
    if xs == [] then [] else Compact(xs[..|xs| - 1]) + (if xs[|xs| - 1] == [] then [] else [xs[|xs| - 1]])
  }

  /** An entry survives exactly when it is non-empty. */
  lemma {:induction false} CompactMembers(xs: seq<string>, x: string)
    ensures x in Compact(xs) <==> x != [] && x in xs
  {
    if xs != [] {
      var init := xs[..|xs| - 1];
      CompactMembers(init, x);
      assert xs == init + [xs[|xs| - 1]];
    }
  }

  /** Filtering treats the entries one at a time, so the order of the parts is kept. */
  lemma {:induction false} CompactAppend(a: seq<string>, b: seq<string>)
    ensures Compact(a + b) == Compact(a) + Compact(b)
  {
    if b == [] {
      assert a + b == a;
    } else {
      assert (a + b)[..|a + b| - 1] == a + b[..|b| - 1];
      CompactAppend(a, b[..|b| - 1]);
    }
  }

  /** A single entry is kept exactly when it is non-empty. */
  lemma CompactSingle(x: string)
    ensures Compact([x]) == if x == [] then [] else [x]
  {
    assert [x][..0] == [];
  }

  /** A list without empty entries is kept as it is. */
  lemma {:induction false} CompactKeeps(xs: seq<string>)
    requires forall i :: 0 <= i < |xs| ==> xs[i] != []
    ensures Compact(xs) == xs
  {
    if xs != [] {
      CompactKeeps(xs[..|xs| - 1]);
    }
  }

  /** `c.toUpperCase()` on ASCII letters. */
  function UpperChar(c: char): char {
    if 'a' <= c <= 'z' then (c as int - 32) as char else c
  }

  /** `c.toLowerCase()` on ASCII letters. */
  function LowerChar(c: char): char {
    if 'A' <= c <= 'Z' then (c as int + 32) as char else c
  }

  predicate HasLowerAscii(s: string) {
    exists k :: 0 <= k < |s| && 'a' <= s[k] <= 'z'
  }

  /** `s.toUpperCase()` restricted to ASCII: same length, no lower-case ASCII letter remains. */
  function Upper(s: string): (r: string)
    ensures |r| == |s| && !HasLowerAscii(r)
    ensures forall k :: 0 <= k < |s| && 'a' <= s[k] <= 'z' ==> r[k] == (s[k] as int - 32) as char
    ensures forall k :: 0 <= k < |s| && !('a' <= s[k] <= 'z') ==> r[k] == s[k]
  {
    seq(|s|, k requires 0 <= k < |s| => UpperChar(s[k]))
  }

  /** `s.toLowerCase()` restricted to ASCII: each capital becomes its small letter and every
      other character is kept. */
  function Lower(s: string): (r: string)
    ensures |r| == |s|
    ensures forall k :: 0 <= k < |s| ==> !('A' <= r[k] <= 'Z')
    ensures forall k :: 0 <= k < |s| && 'A' <= s[k] <= 'Z' ==> r[k] == (s[k] as int + 32) as char
    ensures forall k :: 0 <= k < |s| && !('A' <= s[k] <= 'Z') ==> r[k] == s[k]
  {
    seq(|s|, k requires 0 <= k < |s| => LowerChar(s[k]))
  }

  /** Lower-casing an upper-cased text gives its lower-cased form: the two mappings are
      inverse on letters. */
  lemma LowerUpper(s: string)
    ensures Lower(Upper(s)) == Lower(s)
  {
  }

  /** Upper-casing is idempotent. */
  lemma UpperIdempotent(s: string)
    ensures Upper(Upper(s)) == Upper(s)
  {
  }

  predicate IsPrefix(p: string, s: string) {
    |p| <= |s| && s[..|p|] == p
  }

  /** `s.includes(sub)`. */
  predicate Contains(s: string, sub: string)
    decreases |s|
  {
    IsPrefix(sub, s) || (s != [] && Contains(s[1..], sub))
  }

  /** Every text includes the empty text. */
  lemma ContainsEmpty(s: string)
    ensures Contains(s, "")
  {
    assert IsPrefix("", s);
  }

  /** `sub` occurs in `s` starting at index `i`. */
  predicate OccursAt(s: string, sub: string, i: int) {
    0 <= i <= |s| - |sub| && s[i..i + |sub|] == sub
  }

  /** `includes` finds `sub` exactly when it occurs at some position. */
  lemma {:induction false} ContainsAt(s: string, sub: string)
    ensures Contains(s, sub) <==> exists i :: OccursAt(s, sub, i)
  {
    if IsPrefix(sub, s) {
      assert OccursAt(s, sub, 0);
    } else if s != [] {
      ContainsAt(s[1..], sub);
      if Contains(s[1..], sub) {
        var i :| OccursAt(s[1..], sub, i);
        assert s[1..][i..i + |sub|] == s[i + 1..i + 1 + |sub|];
        assert OccursAt(s, sub, i + 1);
      }
      if exists i :: OccursAt(s, sub, i) {
        var i :| OccursAt(s, sub, i);
        assert i != 0;
        assert s[1..][i - 1..i - 1 + |sub|] == s[i..i + |sub|];
        assert OccursAt(s[1..], sub, i - 1);
      }
    }
  }

  /** `s.replace(/\/$/, "")`: removes one trailing slash, if there is one. */
  function StripTrailingSlash(s: string): (r: string)
    ensures r + (if s != [] && s[|s| - 1] == '/' then "/" else "") == s
  {
    if s != [] && s[|s| - 1] == '/' then s[..|s| - 1] else s
  }

  /** `s.replace(pat, rep)` with a string pattern: only the first occurrence is replaced. */
  function ReplaceFirst(s: string, pat: string, rep: string): string
    decreases |s|
  {
    if IsPrefix(pat, s) then rep + s[|pat|..]
    else if s == [] then s
    else [s[0]] + ReplaceFirst(s[1..], pat, rep)
  }

  /** A string that does not contain the pattern is returned unchanged. */
  lemma {:induction false} ReplaceFirstAbsent(s: string, pat: string, rep: string)
    requires !Contains(s, pat)
    ensures ReplaceFirst(s, pat, rep) == s
  {
    if s != [] {
      ReplaceFirstAbsent(s[1..], pat, rep);
    }
  }
}
