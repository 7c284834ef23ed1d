/**
 * The JavaScript string operations the resume code relies on
 * (`trim`, `split`, `join`, `includes`, `startsWith`, `replace`,
 * `toLowerCase`), on strings seen as sequences of characters.
 */
module JsText {
  import opened Options

  /** The characters `String.prototype.trim` removes: ECMAScript WhiteSpace and LineTerminator. */
  predicate IsJsSpace(c: char) {
    var n := c as int;
    n == 0x09 || n == 0x0A || n == 0x0B || n == 0x0C || n == 0x0D || n == 0x20
    || n == 0xA0 || n == 0x1680 || (0x2000 <= n <= 0x200A) || n == 0x2028 || n == 0x2029
    || n == 0x202F || n == 0x205F || n == 0x3000 || n == 0xFEFF
  }

  /** `s.trimStart()`: the suffix left after dropping leading spaces. */
  function TrimStart(s: string): (r: string)
    ensures |r| <= |s|
    ensures r == "" || !IsJsSpace(r[0])
    ensures forall i :: 0 <= i < |s| - |r| ==> IsJsSpace(s[i])
    decreases |s|
  {
    if |s| > 0 && IsJsSpace(s[0]) then TrimStart(s[1..]) else s
  }

  /** What `trimStart` keeps is the rest of the string after the leading spaces. */
  lemma {:induction false} TrimStartSuffix(s: string)
    ensures TrimStart(s) == s[|s| - |TrimStart(s)|..]
    decreases |s|
  {
    if |s| > 0 && IsJsSpace(s[0]) {
      TrimStartSuffix(s[1..]);
      assert s[1..][|s| - 1 - |TrimStart(s)|..] == s[|s| - |TrimStart(s)|..];
    }
  }

  /** `s.trimEnd()`: the prefix left after dropping trailing spaces. */
  function TrimEnd(s: string): (r: string)
    ensures |r| <= |s| && r == s[..|r|]
    ensures r == "" || !IsJsSpace(r[|r| - 1])
    ensures forall i :: |r| <= i < |s| ==> IsJsSpace(s[i])
    decreases |s|
  {
    if |s| > 0 && IsJsSpace(s[|s| - 1]) then TrimEnd(s[..|s| - 1]) else s
  }

  /** `s.trim()` */
  function Trim(s: string): (r: string)
    ensures |r| <= |s|
    ensures IsTrimmed(r)
  {
    TrimEnd(TrimStart(s))
  }

  /** Neither end of `s` is a space: `trim` leaves it as it is. */
  predicate IsTrimmed(s: string) {
    s == "" || (!IsJsSpace(s[0]) && !IsJsSpace(s[|s| - 1]))
  }

  lemma TrimStartOfTrimmed(s: string)
    requires s == "" || !IsJsSpace(s[0])
    ensures TrimStart(s) == s
  {
  }

  lemma TrimEndOfTrimmed(s: string)
    requires s == "" || !IsJsSpace(s[|s| - 1])
    ensures TrimEnd(s) == s
  {
  }

  lemma TrimOfTrimmed(s: string)
    requires IsTrimmed(s)
    ensures Trim(s) == s
  {
    TrimStartOfTrimmed(s);
    TrimEndOfTrimmed(s);
  }

  lemma TrimIdempotent(s: string)
    ensures Trim(Trim(s)) == Trim(s)
  {
    TrimOfTrimmed(Trim(s));
  }

  /** Leading spaces of a concatenation come from its left part first. */
  lemma {:induction false} TrimStartConcat(a: string, b: string)
    ensures TrimStart(a + b) == if TrimStart(a) == "" then TrimStart(b) else TrimStart(a) + b
    decreases |a|
  {
    if |a| > 0 {
      assert (a + b)[0] == a[0];
      if IsJsSpace(a[0]) {
        assert (a + b)[1..] == a[1..] + b;
        TrimStartConcat(a[1..], b);
      }
    } else {
      assert a + b == b;
    }
  }

  /** Trailing spaces of a concatenation come from its right part first. */
  lemma {:induction false} TrimEndConcat(a: string, b: string)
    ensures TrimEnd(a + b) == if TrimEnd(b) == "" then TrimEnd(a) else a + TrimEnd(b)
    decreases |b|
  {
    if |b| > 0 {
      assert (a + b)[|a + b| - 1] == b[|b| - 1];
      if IsJsSpace(b[|b| - 1]) {
        assert (a + b)[..|a + b| - 1] == a + b[..|b| - 1];
        TrimEndConcat(a, b[..|b| - 1]);
      }
    } else {
      assert a + b == a;
    }
  }

  /** The first character of a trimmed string is the first character left by `trimStart`. */
  lemma TrimFirstChar(s: string)
    requires Trim(s) != ""
    ensures TrimStart(s) != "" && Trim(s)[0] == TrimStart(s)[0]
  {
  }

  // ---------------------------------------------------------------------------
  // Searching

  /** `sub` occurs in `s` starting at index `i`. */
  predicate OccursAt(s: string, sub: string, i: int) {
    0 <= i && i + |sub| <= |s| && s[i..i + |sub|] == sub
  }

  /** `s.includes(sub)` */
  predicate Contains(s: string, sub: string) {
    exists i :: 0 <= i <= |s| - |sub| && OccursAt(s, sub, i)
  }

  /** `s.startsWith(p)` */
  predicate StartsWith(s: string, p: string) {
    p <= s
  }

  /** The first occurrence of `sub` in `s` at or after `from`. */
  function IndexOfFrom(s: string, sub: string, from: nat): (r: Option<nat>)
    ensures r.Some? ==> from <= r.value && OccursAt(s, sub, r.value)
    ensures r.Some? ==> forall j :: from <= j < r.value ==> !OccursAt(s, sub, j)
    ensures r.None? ==> forall j :: from <= j ==> !OccursAt(s, sub, j)
    decreases |s| - from
  {
    if from + |sub| > |s| then None
    else if OccursAt(s, sub, from) then Some(from)
    else IndexOfFrom(s, sub, from + 1)
  }

  /** `s.indexOf(sub)`, `None` standing for -1. */
  function IndexOf(s: string, sub: string): (r: Option<nat>)
    ensures r.None? <==> !Contains(s, sub)
    ensures r.Some? ==> OccursAt(s, sub, r.value) && forall j :: 0 <= j < r.value ==> !OccursAt(s, sub, j)
  {
    IndexOfFrom(s, sub, 0)
  }

  /** `s.replace(pattern, "")`: a string pattern replaces its first occurrence only. */
  function RemoveFirst(s: string, pattern: string): (r: string)
    ensures !Contains(s, pattern) ==> r == s
    ensures Contains(s, pattern) ==> |r| == |s| - |pattern|
  {
    match IndexOf(s, pattern)
    case None => s
    case Some(i) => s[..i] + s[i + |pattern|..]
  }

  lemma ContainsAt(s: string, sub: string, i: int)
    requires OccursAt(s, sub, i)
    ensures Contains(s, sub)
  {
  }

  /** A prefix is removed by `replace` when it is the first occurrence. */
  lemma RemoveFirstOfPrefix(p: string, rest: string)
    ensures RemoveFirst(p + rest, p) == rest
  {
    assert (p + rest)[0..|p|] == p;
    assert OccursAt(p + rest, p, 0);
    assert (p + rest)[|p|..] == rest;
  }

  /** An occurrence inside the right operand is an occurrence in the concatenation. */
  lemma ContainsRight(a: string, b: string, sub: string)
    requires Contains(b, sub)
    ensures Contains(a + b, sub)
  {
    var i :| 0 <= i <= |b| - |sub| && OccursAt(b, sub, i);
    assert (a + b)[|a| + i..|a| + i + |sub|] == b[i..i + |sub|];
    assert OccursAt(a + b, sub, |a| + i);
  }

  /** An occurrence inside the left operand is an occurrence in the concatenation. */
  lemma ContainsLeft(a: string, b: string, sub: string)
    requires Contains(a, sub)
    ensures Contains(a + b, sub)
  {
    var i :| 0 <= i <= |a| - |sub| && OccursAt(a, sub, i);
    assert (a + b)[i..i + |sub|] == a[i..i + |sub|];
    assert OccursAt(a + b, sub, i);
  }

  /**
   * When the first character of `sub` does not occur in `a`, every occurrence
   * of `sub` in `a + b` lies inside `b`.
   */
  lemma ContainsSkipPrefix(a: string, b: string, sub: string)
    requires |sub| > 0 && sub[0] !in a
    ensures Contains(a + b, sub) <==> Contains(b, sub)
  {
    if Contains(a + b, sub) {
      var i :| 0 <= i <= |a + b| - |sub| && OccursAt(a + b, sub, i);
      assert (a + b)[i] == sub[0];
      assert i >= |a|;
      assert b[i - |a|..i - |a| + |sub|] == (a + b)[i..i + |sub|];
      assert OccursAt(b, sub, i - |a|);
    }
    if Contains(b, sub) {
      ContainsRight(a, b, sub);
    }
  }

  /** A string without the character `c` contains no string that has `c`. */
  lemma NotContainsMissingChar(s: string, sub: string, k: nat)
    requires k < |sub| && sub[k] !in s
    ensures !Contains(s, sub)
  {
    forall i | 0 <= i <= |s| - |sub|
      ensures !OccursAt(s, sub, i)
    {
      assert s[i + k] in s;
      assert s[i..i + |sub|][k] == s[i + k];
    }
  }

  // ---------------------------------------------------------------------------
  // Splitting and joining

  /** `parts.join(sep)` */
  function Join(parts: seq<string>, sep: string): string
    decreases |parts|
  {
    if |parts| == 0 then ""
    else if |parts| == 1 then parts[0]
    else parts[0] + sep + Join(parts[1..], sep)
  }

  /** `s.split(sep)` for a one-character separator: never empty, pieces free of `sep`, joined back to `s`. */
  function Split(s: string, sep: char): (parts: seq<string>)
    ensures |parts| >= 1
    ensures forall p :: p in parts ==> sep !in p
    ensures Join(parts, [sep]) == s
    decreases |s|
  {
    if |s| == 0 then [""]
    else
      var rest := Split(s[1..], sep);
      if s[0] == sep then
        assert Join([""] + rest, [sep]) == [sep] + Join(rest, [sep]) by {
          assert ([""] + rest)[1..] == rest;
        }
        [""] + rest
      else
        var parts := [[s[0]] + rest[0]] + rest[1..];
        assert Join(parts, [sep]) == [s[0]] + Join(rest, [sep]) by {
          if |rest| > 1 {
            assert parts[1..] == rest[1..];
          }
        }
        parts
  }

  /** Splitting `a + [sep] + b` where `a` is free of `sep` gives `a` first. */
  lemma {:induction false} SplitFront(a: string, b: string, sep: char)
    requires sep !in a
    ensures Split(a + [sep] + b, sep) == [a] + Split(b, sep)
    decreases |a|
  {
    if |a| == 0 {
      assert a + [sep] + b == [sep] + b;
      assert ([sep] + b)[1..] == b;
    } else {
      assert (a + [sep] + b)[1..] == a[1..] + [sep] + b;
      SplitFront(a[1..], b, sep);
      assert [a[0]] + a[1..] == a;
    }
  }

  /** A string free of `sep` splits into itself. */
  lemma {:induction false} SplitWhole(a: string, sep: char)
    requires sep !in a
    ensures Split(a, sep) == [a]
    decreases |a|
  {
    if |a| > 0 {
      SplitWhole(a[1..], sep);
      assert [a[0]] + a[1..] == a;
    }
  }

  /** `split` undoes `join` when no piece holds the separator. */
  lemma {:induction false} SplitJoin(parts: seq<string>, sep: char)
    requires |parts| >= 1
    requires forall p :: p in parts ==> sep !in p
    ensures Split(Join(parts, [sep]), sep) == parts
    decreases |parts|
  {
    if |parts| == 1 {
      SplitWhole(parts[0], sep);
    } else {
      SplitJoin(parts[1..], sep);
      assert parts[0] in parts;
      assert parts[0] + [sep] + Join(parts[1..], [sep]) == Join(parts, [sep]);
      SplitFront(parts[0], Join(parts[1..], [sep]), sep);
      assert [parts[0]] + parts[1..] == parts;
    }
  }

  // ---------------------------------------------------------------------------
  // Case

  /** `toLowerCase` on one character, for the ASCII letters. */
  function LowerChar(c: char): (r: char)
    ensures 'A' <= c <= 'Z' ==> 'a' <= r <= 'z' && r as int - c as int == 32
    ensures !('A' <= c <= 'Z') ==> r == c
  {
    if 'A' <= c <= 'Z' then (c as int + 32) as char else c
  }

  /** `s.toLowerCase()`, for the ASCII letters. */
  function ToLower(s: string): (r: string)
    ensures |r| == |s|
    ensures forall i :: 0 <= i < |s| ==> r[i] == LowerChar(s[i])
  {
    seq(|s|, i requires 0 <= i < |s| => LowerChar(s[i]))
  }
}
