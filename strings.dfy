// Python string operations the backend relies on, written out over seq<char>.
// Case mapping is ASCII only; whitespace follows str.isspace().

module Wrappers {
  datatype Option<T> = None | Some(value: T)
  {
    function GetOr(default: T): T
    {
      if Some? then value else default
    }
  }

  datatype Result<T, E> = Ok(value: T) | Err(error: E)
}

module Strings {

  /** The characters for which Python's str.isspace() holds. */
  predicate IsSpace(c: char)
  {
    c == ' ' || ('\t' <= c <= '\r') || ('\U{1C}' <= c <= '\U{1F}') || c == '\U{85}' || c == '\U{A0}'
    || c == '\U{1680}' || ('\U{2000}' <= c <= '\U{200A}') || c == '\U{2028}' || c == '\U{2029}'
    || c == '\U{202F}' || c == '\U{205F}' || c == '\U{3000}'
  }

  /** A string with no character other than whitespace (Python: `not s.strip()`). */
  predicate IsBlank(s: string)
  {
    forall i :: 0 <= i < |s| ==> IsSpace(s[i])
  }

  function TrimStart(s: string): (r: string)
    ensures |r| <= |s| && r == s[|s| - |r|..]
  {
    if |s| > 0 && IsSpace(s[0]) then TrimStart(s[1..]) else s
  }

  /** TrimStart removes exactly the leading whitespace. */
  lemma {:induction false} TrimStartShape(s: string)
    ensures forall i :: 0 <= i < |s| - |TrimStart(s)| ==> IsSpace(s[i])
    ensures TrimStart(s) != [] ==> !IsSpace(TrimStart(s)[0])
  {
    if |s| > 0 && IsSpace(s[0]) {
      var rest := s[1..];
      TrimStartShape(rest);
      var r := TrimStart(rest);
      assert TrimStart(s) == r;
      forall i | 1 <= i < |s| - |r| ensures IsSpace(s[i]) {
        assert s[i] == rest[i - 1];
      }
    }
  }

  function TrimEnd(s: string): (r: string)
    ensures |r| <= |s| && r == s[..|r|]
  {
    if |s| > 0 && IsSpace(s[|s| - 1]) then TrimEnd(s[..|s| - 1]) else s
  }

  /** TrimEnd removes exactly the trailing whitespace. */
  lemma {:induction false} TrimEndShape(s: string)
    ensures forall i :: |TrimEnd(s)| <= i < |s| ==> IsSpace(s[i])
    ensures TrimEnd(s) != [] ==> !IsSpace(TrimEnd(s)[|TrimEnd(s)| - 1])
  {
    if |s| > 0 && IsSpace(s[|s| - 1]) {
      var init := s[..|s| - 1];
      TrimEndShape(init);
      forall i | |TrimEnd(s)| <= i < |s| - 1 ensures IsSpace(s[i]) {
        assert s[i] == init[i];
      }
    }
  }

  /** Python str.strip() with no argument. */
  function Strip(s: string): string
  {
    TrimEnd(TrimStart(s))
  }

  lemma StripShape(s: string)
    ensures var r := Strip(s); r != [] ==> !IsSpace(r[0]) && !IsSpace(r[|r| - 1])
    ensures |Strip(s)| <= |s|
  {
    TrimStartShape(s);
    TrimEndShape(TrimStart(s));
  }

  /** Stripping leaves nothing exactly when the string is blank. */
  lemma StripEmptyIffBlank(s: string)
    ensures Strip(s) == "" <==> IsBlank(s)
  {
    var t := TrimStart(s);
    TrimStartShape(s);
    TrimEndShape(t);
    if Strip(s) == "" {
      assert t[|Strip(s)|..] == t;
      assert t == [];
      assert s[..|s|] == s;
    }
    if IsBlank(s) {
      BlankTrimStart(s);
    }
  }

  lemma {:induction false} BlankTrimStart(s: string)
    requires IsBlank(s)
    ensures TrimStart(s) == ""
  {
    if s != [] {
      assert IsSpace(s[0]);
      BlankTrimStart(s[1..]);
    }
  }

  lemma StripIdempotent(s: string)
    ensures Strip(Strip(s)) == Strip(s)
  {
    var r := Strip(s);
    StripShape(s);
    if r != [] {
      assert TrimStart(r) == r;
      assert TrimEnd(r) == r;
    }
  }

  function LowerChar(c: char): char
  {
    if 'A' <= c <= 'Z' then (c as int + 32) as char else c
  }

  function UpperChar(c: char): char
  {
    if 'a' <= c <= 'z' then (c as int - 32) as char else c
  }

  predicate IsCased(c: char)
  {
    ('a' <= c <= 'z') || ('A' <= c <= 'Z')
  }

  /** Python str.lower() on ASCII letters. */
  function Lower(s: string): (r: string)
    ensures |r| == |s|
    ensures forall i :: 0 <= i < |s| ==> r[i] == LowerChar(s[i])
  {
    if s == [] then [] else [LowerChar(s[0])] + Lower(s[1..])
  }

  /** Python str.upper() on ASCII letters. */
  function Upper(s: string): (r: string)
    ensures |r| == |s|
    ensures forall i :: 0 <= i < |s| ==> r[i] == UpperChar(s[i])
  {
    if s == [] then [] else [UpperChar(s[0])] + Upper(s[1..])
  }

  /** A string without upper-case letters is its own lower-case form. */
  lemma LowerKeeps(s: string)
    requires forall i :: 0 <= i < |s| ==> !('A' <= s[i] <= 'Z')
    ensures Lower(s) == s
  {
    assert forall i :: 0 <= i < |s| ==> Lower(s)[i] == s[i];
  }

  lemma LowerIdempotent(s: string)
    ensures Lower(Lower(s)) == Lower(s)
  {
  }

  /** Python sep.join(parts). */
  function Join(parts: seq<string>, sep: string): string
  {
    if |parts| == 0 then ""
    else if |parts| == 1 then parts[0]
    else parts[0] + sep + Join(parts[1..], sep)
  }

  lemma {:induction false} JoinSnoc(parts: seq<string>, x: string, sep: string)
    requires parts != []
    ensures Join(parts + [x], sep) == Join(parts, sep) + sep + x
  {
    if |parts| == 1 {
      assert parts + [x] == [parts[0], x];
    } else {
      assert (parts + [x])[1..] == parts[1..] + [x];
      JoinSnoc(parts[1..], x, sep);
    }
  }

  /** Python's `s += part + term` repeated over a sequence of parts. */
  function Terminated(parts: seq<string>, term: string): (r: string)
    ensures |r| >= |parts| * |term|
  {
    if parts == [] then "" else parts[0] + term + Terminated(parts[1..], term)
  }

  lemma {:induction false} TerminatedSnoc(parts: seq<string>, x: string, term: string)
    ensures Terminated(parts + [x], term) == Terminated(parts, term) + x + term
  {
    if parts == [] {
      assert [x][1..] == [];
    } else {
      assert (parts + [x])[1..] == parts[1..] + [x];
      TerminatedSnoc(parts[1..], x, term);
    }
  }

  /** Whitespace before a non-blank string's first visible character is all TrimStart removes. */
  lemma {:induction false} TrimStartAppend(s: string, x: string)
    requires !IsBlank(s)
    ensures TrimStart(s + x) == TrimStart(s) + x
  {
    if IsSpace(s[0]) {
      assert (s + x)[1..] == s[1..] + x;
      assert !IsBlank(s[1..]) by {
        var i :| 0 <= i < |s| && !IsSpace(s[i]);
        assert s[1..][i - 1] == s[i];
      }
      TrimStartAppend(s[1..], x);
    }
  }

  /** A trailing whitespace character makes no difference to str.strip(). */
  lemma StripTrailingSpace(s: string, c: char)
    requires IsSpace(c)
    ensures Strip(s + [c]) == Strip(s)
  {
    if IsBlank(s) {
      assert IsBlank(s + [c]) by {
        forall i | 0 <= i < |s + [c]| ensures IsSpace((s + [c])[i]) {
          if i < |s| {
            assert (s + [c])[i] == s[i];
          }
        }
      }
      BlankTrimStart(s + [c]);
      BlankTrimStart(s);
    } else {
      TrimStartAppend(s, [c]);
      TrimEndSpace(TrimStart(s), c);
    }
  }

  lemma TrimEndSpace(t: string, c: char)
    requires IsSpace(c)
    ensures TrimEnd(t + [c]) == TrimEnd(t)
  {
    assert (t + [c])[..|t|] == t;
  }

  /** Terminating every part is joining them and terminating the last one. */
  lemma {:induction false} TerminatedJoin(parts: seq<string>, term: string)
    requires parts != []
    ensures Terminated(parts, term) == Join(parts, term) + term
  {
    if |parts| > 1 {
      TerminatedJoin(parts[1..], term);
    } else {
      assert parts[1..] == [];
    }
  }

  /** Stripped, the newline-terminated parts are the newline-joined parts. */
  lemma StripTerminated(parts: seq<string>)
    ensures Strip(Terminated(parts, "\n")) == Strip(Join(parts, "\n"))
  {
    if parts != [] {
      TerminatedJoin(parts, "\n");
      StripTrailingSpace(Join(parts, "\n"), '\n');
    }
  }

  function Concat(parts: seq<string>): string
  {
    if parts == [] then "" else parts[0] + Concat(parts[1..])
  }

  lemma {:induction false} ConcatSnoc(parts: seq<string>, x: string)
    ensures Concat(parts + [x]) == Concat(parts) + x
  {
    if parts == [] {
      assert [x][1..] == [];
    } else {
      assert (parts + [x])[1..] == parts[1..] + [x];
      ConcatSnoc(parts[1..], x);
    }
  }

  lemma {:induction false} ConcatAppend(a: seq<string>, b: seq<string>)
    ensures Concat(a + b) == Concat(a) + Concat(b)
  {
    if a != [] {
      assert (a + b)[1..] == a[1..] + b;
      ConcatAppend(a[1..], b);
    } else {
      assert a + b == b;
    }
  }

  /** A join is empty only when every part is. */
  lemma {:induction false} JoinNonEmpty(parts: seq<string>, sep: string, i: nat)
    requires i < |parts| && parts[i] != ""
    ensures Join(parts, sep) != ""
  {
    if i > 0 {
      JoinNonEmpty(parts[1..], sep, i - 1);
    }
  }

  /** The concatenation of what `f` makes of each element, in order. */
  function FlatMap<T, U>(f: T -> seq<U>, xs: seq<T>): seq<U>
  {
    if xs == [] then [] else FlatMap(f, xs[..|xs| - 1]) + f(xs[|xs| - 1])
  }

  lemma {:induction false} FlatMapAppend<T, U>(f: T -> seq<U>, xs: seq<T>, ys: seq<T>)
    ensures FlatMap(f, xs + ys) == FlatMap(f, xs) + FlatMap(f, ys)
    decreases |ys|
  {
    if ys == [] {
      assert xs + ys == xs;
    } else {
      var ys' := ys[..|ys| - 1];
      FlatMapAppend(f, xs, ys');
      assert (xs + ys)[..|xs + ys| - 1] == xs + ys';
    }
  }

  lemma FlatMapSnoc<T, U>(f: T -> seq<U>, xs: seq<T>, x: T)
    ensures FlatMap(f, xs + [x]) == FlatMap(f, xs) + f(x)
  {
    assert (xs + [x])[..|xs|] == xs;
  }

  lemma AppendAssoc<T>(a: seq<T>, b: seq<T>, c: seq<T>)
    ensures (a + b) + c == a + (b + c)
  {
  }

  lemma FlatMapStep<T, U>(f: T -> seq<U>, xs: seq<T>, i: nat)
    requires i < |xs|
    ensures FlatMap(f, xs[..i + 1]) == FlatMap(f, xs[..i]) + f(xs[i])
  {
    assert xs[..i + 1][..i] == xs[..i];
  }

  lemma SameElements<T>(l: seq<T>, m: seq<T>)
    requires |l| == |m|
    requires forall i :: 0 <= i < |l| ==> l[i] == m[i]
    ensures l == m
  {
  }

  /** `f` applied to each element, in order. */
  function MapSeq<T, U>(f: T -> U, xs: seq<T>): (r: seq<U>)
    ensures |r| == |xs|
  {
    if xs == [] then [] else MapSeq(f, xs[..|xs| - 1]) + [f(xs[|xs| - 1])]
  }

  lemma MapSeqStep<T, U>(f: T -> U, xs: seq<T>, i: nat)
    requires i < |xs|
    ensures MapSeq(f, xs[..i + 1]) == MapSeq(f, xs[..i]) + [f(xs[i])]
  {
    assert xs[..i + 1][..i] == xs[..i];
  }

  lemma {:induction false} MapSeqAt<T, U>(f: T -> U, xs: seq<T>)
    ensures forall k :: 0 <= k < |xs| ==> MapSeq(f, xs)[k] == f(xs[k])
  {
    if xs != [] {
      var init := xs[..|xs| - 1];
      MapSeqAt(f, init);
      forall k | 0 <= k < |init| ensures MapSeq(f, xs)[k] == f(xs[k]) {
        assert init[k] == xs[k];
      }
    }
  }

  /** `f` applied to each element and its 1-based position. */
  function MapNumbered<T, U>(f: (nat, T) -> U, xs: seq<T>): (r: seq<U>)
    ensures |r| == |xs|
  {
    if xs == [] then [] else MapNumbered(f, xs[..|xs| - 1]) + [f(|xs|, xs[|xs| - 1])]
  }

  lemma {:induction false} MapNumberedAt<T, U>(f: (nat, T) -> U, xs: seq<T>)
    ensures forall k :: 0 <= k < |xs| ==> MapNumbered(f, xs)[k] == f(k + 1, xs[k])
  {
    if xs != [] {
      var init := xs[..|xs| - 1];
      MapNumberedAt(f, init);
      forall k | 0 <= k < |init| ensures MapNumbered(f, xs)[k] == f(k + 1, xs[k]) {
        assert init[k] == xs[k];
      }
    }
  }

  /** `f` applied to each element and its 0-based position. */
  function MapIndexed<T, U>(f: (nat, T) -> U, xs: seq<T>): (r: seq<U>)
    ensures |r| == |xs|
  {
    if xs == [] then [] else MapIndexed(f, xs[..|xs| - 1]) + [f(|xs| - 1, xs[|xs| - 1])]
  }

  lemma MapIndexedStep<T, U>(f: (nat, T) -> U, xs: seq<T>, i: nat)
    requires i < |xs|
    ensures MapIndexed(f, xs[..i + 1]) == MapIndexed(f, xs[..i]) + [f(i, xs[i])]
  {
    assert xs[..i + 1][..i] == xs[..i];
  }

  lemma {:induction false} MapIndexedAt<T, U>(f: (nat, T) -> U, xs: seq<T>)
    ensures forall k :: 0 <= k < |xs| ==> MapIndexed(f, xs)[k] == f(k, xs[k])
  {
    if xs != [] {
      var init := xs[..|xs| - 1];
      MapIndexedAt(f, init);
      forall k | 0 <= k < |init| ensures MapIndexed(f, xs)[k] == f(k, xs[k]) {
        assert init[k] == xs[k];
      }
    }
  }

  /** An element of FlatMap(f, xs) is exactly an element of some f(xs[i]). */
  lemma {:induction false} FlatMapMembers<T, U>(f: T -> seq<U>, xs: seq<T>)
    ensures forall i, x :: 0 <= i < |xs| && x in f(xs[i]) ==> x in FlatMap(f, xs)
    ensures forall x :: x in FlatMap(f, xs) ==> exists i :: 0 <= i < |xs| && x in f(xs[i])
  {
    if xs != [] {
      var init := xs[..|xs| - 1];
      FlatMapMembers(f, init);
      forall i, x | 0 <= i < |xs| && x in f(xs[i]) ensures x in FlatMap(f, xs) {
        if i < |init| {
          assert init[i] == xs[i];
        }
      }
      forall x | x in FlatMap(f, xs) ensures exists i :: 0 <= i < |xs| && x in f(xs[i]) {
        if x in FlatMap(f, init) {
          var i :| 0 <= i < |init| && x in f(init[i]);
          assert xs[i] == init[i];
        } else {
          assert x in f(xs[|xs| - 1]);
        }
      }
    }
  }

  predicate StartsWith(s: string, prefix: string)
  {
    |prefix| <= |s| && s[..|prefix|] == prefix
  }

  predicate EndsWith(s: string, suffix: string)
  {
    |suffix| <= |s| && s[|s| - |suffix|..] == suffix
  }

  /** `sub` occurs in `s` starting at position i. */
  predicate OccursAt(s: string, sub: string, i: int)
  {
    0 <= i && i + |sub| <= |s| && s[i..i + |sub|] == sub
  }

  /** Python `sub in s`. */
  predicate Contains(s: string, sub: string)
  {
    exists i :: 0 <= i <= |s| && OccursAt(s, sub, i)
  }

  /** The first position at or after `i` at which `sub` occurs in `s`, or -1 (Python str.find). */
  function FindFrom(s: string, sub: string, i: nat): (r: int)
    requires i <= |s|
    ensures r == -1 || i <= r <= |s| - |sub|
    ensures r >= 0 ==> OccursAt(s, sub, r)
    ensures r >= 0 ==> forall j :: i <= j < r ==> !OccursAt(s, sub, j)
    ensures r == -1 ==> forall j :: i <= j ==> !OccursAt(s, sub, j)
    decreases |s| - i
  {
    if i + |sub| > |s| then -1
    else if s[i..i + |sub|] == sub then i
    else FindFrom(s, sub, i + 1)
  }

  function Find(s: string, sub: string): (r: int)
    ensures r == -1 || 0 <= r <= |s| - |sub|
    ensures r >= 0 ==> OccursAt(s, sub, r)
    ensures r >= 0 ==> forall j :: 0 <= j < r ==> !OccursAt(s, sub, j)
    ensures r == -1 <==> !Contains(s, sub)
  {
    FindFrom(s, sub, 0)
  }

  lemma FindFound(s: string, sub: string)
    ensures Contains(s, sub) <==> Find(s, sub) >= 0
  {
  }

  /** Python str.replace(old, new) with a non-empty `old`: left to right, non-overlapping. */
  function ReplaceAll(s: string, pat: string, rep: string): (r: string)
    requires pat != []
    ensures !Contains(s, pat) ==> r == s
    decreases |s|
  {
    var k := Find(s, pat);
    if k < 0 then s
    else s[..k] + rep + ReplaceAll(s[k + |pat|..], pat, rep)
  }

  /** Python str.replace(old, new) where both are single characters: every `c` becomes `d`. */
  function ReplaceChar(s: string, c: char, d: char): (r: string)
    ensures |r| == |s|
    ensures forall i :: 0 <= i < |s| ==> r[i] == if s[i] == c then d else s[i]
  {
    if s == [] then [] else [if s[0] == c then d else s[0]] + ReplaceChar(s[1..], c, d)
  }

  /**
   * Python str.title() on ASCII: a letter becomes upper case when the character before it is
   * not a letter, lower case otherwise.
   */
  function Title(s: string): (r: string)
    ensures |r| == |s|
    ensures forall i :: 0 <= i < |s| ==> r[i] == TitleCharAt(s, i)
  {
    TitleFrom(s, false)
  }

  function TitleCharAt(s: string, i: nat): char
    requires i < |s|
  {
    if i > 0 && IsCased(s[i - 1]) then LowerChar(s[i]) else UpperChar(s[i])
  }

  function TitleFrom(s: string, prevCased: bool): (r: string)
    ensures |r| == |s|
    ensures s != [] ==> r[0] == (if prevCased then LowerChar(s[0]) else UpperChar(s[0]))
    ensures forall i :: 1 <= i < |s| ==> r[i] == TitleCharAt(s, i)
  {
    if s == [] then []
    else
      var c := if prevCased then LowerChar(s[0]) else UpperChar(s[0]);
      var rest := TitleFrom(s[1..], IsCased(s[0]));
      assert forall i :: 2 <= i < |s| ==> rest[i - 1] == TitleCharAt(s, i) by {
        forall i | 2 <= i < |s| ensures rest[i - 1] == TitleCharAt(s, i) {
          assert TitleCharAt(s[1..], i - 1) == TitleCharAt(s, i);
        }
      }
      [c] + rest
  }

  function DigitChar(d: nat): char
    requires d < 10
  {
    ['0','1','2','3','4','5','6','7','8','9'][d]
  }

  /** Decimal rendering of a natural number, as Python's str(n). */
  function NatToString(n: nat): (r: string)
    ensures |r| >= 1
    ensures forall i :: 0 <= i < |r| ==> '0' <= r[i] <= '9'
  {
    if n < 10 then [DigitChar(n)] else NatToString(n / 10) + [DigitChar(n % 10)]
  }

  /** Python f"{n:04d}" for a natural number. */
  function ZeroPad4(n: nat): (r: string)
    ensures |r| == if |NatToString(n)| < 4 then 4 else |NatToString(n)|
  {
    var d := NatToString(n);
    if |d| < 4 then Repeat('0', 4 - |d|) + d else d
  }

  function Repeat(c: char, n: nat): (r: string)
    ensures |r| == n
    ensures forall i :: 0 <= i < n ==> r[i] == c
  {
    if n == 0 then [] else [c] + Repeat(c, n - 1)
  }

  function IsDigit(c: char): bool
  {
    '0' <= c <= '9'
  }

  function DigitsValue(s: string): nat
    requires forall i :: 0 <= i < |s| ==> IsDigit(s[i])
  {
    if s == [] then 0
    else
      assert IsDigit(s[|s| - 1]);
      DigitsValue(s[..|s| - 1]) * 10 + (s[|s| - 1] as int - '0' as int)
  }

  /** Python str.split(sep) with a one-character separator. */
  function SplitOn(s: string, sep: char): (r: seq<string>)
    ensures |r| >= 1
    ensures forall i :: 0 <= i < |r| ==> sep !in r[i]
    ensures Join(r, [sep]) == s
  {
    if s == [] then [""]
    else
      var rest := SplitOn(s[1..], sep);
      if s[0] == sep then
        assert Join([""] + rest, [sep]) == "" + [sep] + Join(rest, [sep]);
        [""] + rest
      else
        var r := [[s[0]] + rest[0]] + rest[1..];
        assert Join(r, [sep]) == s by {
          if |rest| == 1 {
          } else {
            assert Join(rest, [sep]) == rest[0] + [sep] + Join(rest[1..], [sep]);
            assert r[1..] == rest[1..];
          }
        }
        r
  }

  /** Python str.splitlines(): \r\n counts as one boundary, and a trailing boundary adds no line. */
  function SplitLines(s: string): (r: seq<string>)
    decreases |s|
  {
    if s == [] then []
    else
      var k := LineEnd(s, 0);
      if k == |s| then [s]
      else
        var skip := if s[k] == '\r' && k + 1 < |s| && s[k + 1] == '\n' then 2 else 1;
        [s[..k]] + SplitLines(s[k + skip..])
  }

  /** The line boundaries of str.splitlines(). */
  predicate IsLineBreak(c: char)
  {
    ('\n' <= c <= '\r') || ('\U{1C}' <= c <= '\U{1E}') || c == '\U{85}' || c == '\U{2028}' || c == '\U{2029}'
  }

  function LineEnd(s: string, i: nat): (k: nat)
    requires i <= |s|
    ensures i <= k <= |s|
    ensures k < |s| ==> IsLineBreak(s[k])
    ensures forall j :: i <= j < k ==> !IsLineBreak(s[j])
    decreases |s| - i
  {
    if i == |s| || IsLineBreak(s[i]) then i else LineEnd(s, i + 1)
  }

  /** The index of the last occurrence of `c` in `s`, or -1 (str.rfind). */
  function LastIndexOf(s: string, c: char): (r: int)
    ensures -1 <= r < |s|
    ensures r >= 0 ==> s[r] == c
    ensures forall j :: r < j < |s| ==> s[j] != c
  {
    if s == [] then -1
    else if s[|s| - 1] == c then |s| - 1
    else LastIndexOf(s[..|s| - 1], c)
  }

  /** os.path.basename: everything after the last '/'. */
  function Basename(path: string): string
  {
    path[LastIndexOf(path, '/') + 1..]
  }

  /**
   * os.path.splitext(path)[1]: from the last '.' of the last component, unless every character
   * of that component before the dot is a dot as well.
   */
  function SplitExt(path: string): (r: string)
    ensures r == "" || (r[0] == '.' && EndsWith(path, r) && '/' !in r)
  {
    var sep := LastIndexOf(path, '/');
    var dot := LastIndexOf(path, '.');
    if dot > sep && (exists k :: sep < k < dot && path[k] != '.') then
      assert forall j :: 0 <= j < |path[dot..]| ==> path[dot..][j] == path[dot + j];
      path[dot..]
    else ""
  }
}
