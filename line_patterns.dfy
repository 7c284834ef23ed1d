/**
 * The regular expressions the Markdown parser applies to a line, as
 * JavaScript evaluates them: the leftmost match wins, every `(.+)` is
 * greedy (so a separator splits at its last usable occurrence), and `.`
 * matches any character but a line terminator.
 */
module LinePatterns {
  import opened Options
  import opened JsText

  /** What `.` matches in a JavaScript regular expression without the `s` flag. */
  predicate IsDot(c: char) {
    c != '\n' && c != '\r' && c as int != 0x2028 && c as int != 0x2029
  }

  predicate AllDots(s: string) {
    forall i :: 0 <= i < |s| ==> IsDot(s[i])
  }

  /** The longest prefix of `s` that `.+` can cover. */
  function DotRun(s: string): (r: string)
    ensures r <= s && AllDots(r)
    ensures |r| < |s| ==> !IsDot(s[|r|])
    decreases |s|
  {
    if |s| > 0 && IsDot(s[0]) then [s[0]] + DotRun(s[1..]) else ""
  }

  lemma DotRunOfDots(s: string)
    requires AllDots(s)
    ensures DotRun(s) == s
  {
  }

  lemma AllDotsConcat(a: string, b: string)
    requires AllDots(a) && AllDots(b)
    ensures AllDots(a + b)
  {
  }

  // ---------------------------------------------------------------------------
  // (.+)SEP(.+)

  /** `sep` at index `i` of `seg` leaves at least one character on each side. */
  predicate IsSplitPoint(seg: string, sep: string, i: int) {
    1 <= i && i + |sep| < |seg| && OccursAt(seg, sep, i)
  }

  /** The last split point at or below `i`. */
  function LastSplitBelow(seg: string, sep: string, i: int): (r: Option<nat>)
    ensures r.Some? ==> r.value <= i && IsSplitPoint(seg, sep, r.value)
    ensures r.Some? ==> forall j :: r.value < j <= i ==> !IsSplitPoint(seg, sep, j)
    ensures r.None? ==> forall j :: j <= i ==> !IsSplitPoint(seg, sep, j)
    decreases i
  {
    if i < 1 then None
    else if IsSplitPoint(seg, sep, i) then Some(i)
    else LastSplitBelow(seg, sep, i - 1)
  }

  /** Where greedy `(.+)SEP(.+)` splits a run of dot characters: at its last split point. */
  function LastSplit(seg: string, sep: string): (r: Option<nat>)
    ensures r.Some? ==> IsSplitPoint(seg, sep, r.value)
    ensures r.Some? ==> forall j :: r.value < j ==> !IsSplitPoint(seg, sep, j)
    ensures r.None? ==> forall j :: !IsSplitPoint(seg, sep, j)
  {
    LastSplitBelow(seg, sep, |seg| - |sep| - 1)
  }

  /**
   * `s.match(/(.+)SEP(.+)/)`: the first run of dot characters that holds a
   * split point, split at its last one; the two groups are never empty.
   */
  function MatchPair(s: string, sep: string): (r: Option<(string, string)>)
    ensures r.Some? ==> r.value.0 != "" && r.value.1 != ""
    ensures r.Some? ==> AllDots(r.value.0) && AllDots(r.value.1)
    decreases |s|
  {
    var seg := DotRun(s);
    match LastSplit(seg, sep)
    case Some(i) => Some((seg[..i], seg[i + |sep|..]))
    case None => if |seg| == |s| then None else MatchPair(s[|seg| + 1..], sep)
  }

  /** In a run of dot characters, the split point is the last one: no later occurrence of `sep` is usable. */
  lemma LastSplitAt(a: string, sep: string, b: string)
    requires |sep| > 0 && a != "" && b != ""
    requires !Contains(sep[1..] + b, sep)
    ensures LastSplit(a + sep + b, sep) == Some(|a|)
  {
    var s := a + sep + b;
    assert s[|a|..|a| + |sep|] == sep;
    assert IsSplitPoint(s, sep, |a|);
    var t := sep[1..] + b;
    assert s[|a| + 1..] == t;
    forall j | |a| < j
      ensures !OccursAt(s, sep, j)
    {
      if j + |sep| <= |s| {
        assert t[j - |a| - 1..j - |a| - 1 + |sep|] == s[j..j + |sep|];
        assert !OccursAt(t, sep, j - |a| - 1);
      }
    }
  }

  /**
   * `(.+)SEP(.+)` recovers the two parts of `a + sep + b` when the line has
   * no line terminator and `sep` does not occur again after `a`.
   */
  lemma MatchPairRecovers(a: string, sep: string, b: string)
    requires AllDots(a + sep + b) && |sep| > 0 && a != "" && b != ""
    requires !Contains(sep[1..] + b, sep)
    ensures MatchPair(a + sep + b, sep) == Some((a, b))
  {
    var s := a + sep + b;
    DotRunOfDots(s);
    LastSplitAt(a, sep, b);
    assert s[..|a|] == a;
    assert s[|a| + |sep|..] == b;
  }

  /** `(.+)SEP(.+)` only matches a line that holds `sep`. */
  lemma {:induction false} MatchPairHasSep(s: string, sep: string)
    ensures MatchPair(s, sep).Some? ==> Contains(s, sep)
    decreases |s|
  {
    var seg := DotRun(s);
    match LastSplit(seg, sep)
    case Some(i) =>
      assert s[i..i + |sep|] == seg[i..i + |sep|];
      assert OccursAt(s, sep, i);
    case None =>
      if |seg| < |s| {
        var rest := s[|seg| + 1..];
        MatchPairHasSep(rest, sep);
        if MatchPair(rest, sep).Some? {
          assert s == s[..|seg| + 1] + rest;
          ContainsRight(s[..|seg| + 1], rest, sep);
        }
      }
  }

  // ---------------------------------------------------------------------------
  // (.+)S1(.+)S2(.+)

  /** `s1` at index `i`, at least one character before it, and `(.+)S2(.+)` matches the rest. */
  predicate IsTriplePoint(seg: string, s1: string, s2: string, i: int) {
    1 <= i && OccursAt(seg, s1, i) && LastSplit(seg[i + |s1|..], s2).Some?
  }

  function LastTripleBelow(seg: string, s1: string, s2: string, i: int): (r: Option<nat>)
    ensures r.Some? ==> r.value <= i && IsTriplePoint(seg, s1, s2, r.value)
    ensures r.Some? ==> forall j :: r.value < j <= i ==> !IsTriplePoint(seg, s1, s2, j)
    ensures r.None? ==> forall j :: j <= i ==> !IsTriplePoint(seg, s1, s2, j)
    decreases i
  {
    if i < 1 then None
    else if IsTriplePoint(seg, s1, s2, i) then Some(i)
    else LastTripleBelow(seg, s1, s2, i - 1)
  }

  /** Where greedy `(.+)S1(.+)S2(.+)` puts the first separator: its last occurrence that lets the rest match. */
  function LastTriple(seg: string, s1: string, s2: string): (r: Option<nat>)
    ensures r.Some? ==> IsTriplePoint(seg, s1, s2, r.value)
    ensures r.Some? ==> forall j :: r.value < j ==> !IsTriplePoint(seg, s1, s2, j)
    ensures r.None? ==> forall j :: !IsTriplePoint(seg, s1, s2, j)
  {
    LastTripleBelow(seg, s1, s2, |seg| - |s1|)
  }

  /** `s.match(/(.+)S1(.+)S2(.+)/)`: three non-empty groups, in the first run of dot characters that matches. */
  function MatchTriple(s: string, s1: string, s2: string): (r: Option<(string, string, string)>)
    ensures r.Some? ==> r.value.0 != "" && r.value.1 != "" && r.value.2 != ""
    decreases |s|
  {
    var seg := DotRun(s);
    match LastTriple(seg, s1, s2)
    case Some(i) =>
      var rest := seg[i + |s1|..];
      var j := LastSplit(rest, s2).value;
      Some((seg[..i], rest[..j], rest[j + |s2|..]))
    case None => if |seg| == |s| then None else MatchTriple(s[|seg| + 1..], s1, s2)
  }

  /** In a run of dot characters, the first separator of `(.+)S1(.+)S2(.+)` is its last usable occurrence. */
  lemma LastTripleAt(a: string, s1: string, b: string, s2: string, c: string)
    requires |s1| > 0 && |s2| > 0 && a != "" && b != "" && c != ""
    requires !Contains(s1[1..] + (b + s2 + c), s1)
    requires !Contains(s2[1..] + c, s2)
    ensures LastTriple(a + s1 + (b + s2 + c), s1, s2) == Some(|a|)
  {
    var rest := b + s2 + c;
    var s := a + s1 + rest;
    assert s[|a|..|a| + |s1|] == s1;
    assert s[|a| + |s1|..] == rest;
    LastSplitAt(b, s2, c);
    assert IsTriplePoint(s, s1, s2, |a|);
    var t := s1[1..] + rest;
    assert s[|a| + 1..] == t;
    forall j | |a| < j
      ensures !OccursAt(s, s1, j)
    {
      if j + |s1| <= |s| {
        assert t[j - |a| - 1..j - |a| - 1 + |s1|] == s[j..j + |s1|];
        assert !OccursAt(t, s1, j - |a| - 1);
      }
    }
  }

  /**
   * `(.+)S1(.+)S2(.+)` recovers the three parts of `a + s1 + b + s2 + c`
   * when the line has no line terminator, `s1` does not occur after `a`
   * and `s2` does not occur after `b`.
   */
  lemma MatchTripleRecovers(a: string, s1: string, b: string, s2: string, c: string)
    requires AllDots(a + s1 + (b + s2 + c)) && |s1| > 0 && |s2| > 0
    requires a != "" && b != "" && c != ""
    requires !Contains(s1[1..] + (b + s2 + c), s1)
    requires !Contains(s2[1..] + c, s2)
    ensures MatchTriple(a + s1 + (b + s2 + c), s1, s2) == Some((a, b, c))
  {
    var rest := b + s2 + c;
    var s := a + s1 + rest;
    DotRunOfDots(s);
    LastTripleAt(a, s1, b, s2, c);
    LastSplitAt(b, s2, c);
    assert s[|a| + |s1|..] == rest;
    assert s[..|a|] == a;
    assert rest[..|b|] == b;
    assert rest[|b| + |s2|..] == c;
  }

  /** `(.+)S1(.+)S2(.+)` only matches a line that holds `s1`. */
  lemma {:induction false} MatchTripleHasFirst(s: string, s1: string, s2: string)
    ensures MatchTriple(s, s1, s2).Some? ==> Contains(s, s1)
    decreases |s|
  {
    var seg := DotRun(s);
    match LastTriple(seg, s1, s2)
    case Some(i) =>
      assert s[i..i + |s1|] == seg[i..i + |s1|];
      assert OccursAt(s, s1, i);
    case None =>
      if |seg| < |s| {
        var rest := s[|seg| + 1..];
        MatchTripleHasFirst(rest, s1, s2);
        if MatchTriple(rest, s1, s2).Some? {
          assert s == s[..|seg| + 1] + rest;
          ContainsRight(s[..|seg| + 1], rest, s1);
        }
      }
  }

  // ---------------------------------------------------------------------------
  // - (.+): (.+)

  /** The leftmost `- ` at or after `p` that `- (.+): (.+)` can match from. */
  function BulletFrom(s: string, p: nat): (r: Option<(string, string)>)
    ensures r.Some? ==> r.value.0 != "" && r.value.1 != ""
    decreases |s| - p
  {
    if p + 2 > |s| then None
    else if OccursAt(s, "- ", p) && LastSplit(DotRun(s[p + 2..]), ": ").Some? then
      var seg := DotRun(s[p + 2..]);
      var i := LastSplit(seg, ": ").value;
      Some((seg[..i], seg[i + 2..]))
    else BulletFrom(s, p + 1)
  }

  /** `s.match(/- (.+): (.+)/)`: a label and a value, split at the last `": "`. */
  function MatchBullet(s: string): (r: Option<(string, string)>)
    ensures r.Some? ==> r.value.0 != "" && r.value.1 != ""
  {
    BulletFrom(s, 0)
  }

  /** `- (.+): (.+)` recovers label and value of `- label: value` when the value has no further `": "`. */
  lemma MatchBulletRecovers(a: string, b: string)
    requires AllDots(a + ": " + b) && a != "" && b != ""
    requires !Contains(" " + b, ": ")
    ensures MatchBullet("- " + a + ": " + b) == Some((a, b))
  {
    var s := "- " + a + ": " + b;
    assert s[0..2] == "- ";
    assert s[2..] == a + ": " + b;
    DotRunOfDots(a + ": " + b);
    assert ": "[1..] == " ";
    LastSplitAt(a, ": ", b);
    var seg := a + ": " + b;
    assert seg[..|a|] == a;
    assert seg[|a| + 2..] == b;
  }

  // ---------------------------------------------------------------------------
  // URL: (.+)

  /** The leftmost `URL: ` at or after `p` followed by at least one dot character. */
  function UrlFrom(s: string, p: nat): (r: Option<string>)
    ensures r.Some? ==> r.value != "" && AllDots(r.value)
    decreases |s| - p
  {
    if p + 5 >= |s| then None
    else if OccursAt(s, "URL: ", p) && IsDot(s[p + 5]) then Some(DotRun(s[p + 5..]))
    else UrlFrom(s, p + 1)
  }

  /** `s.match(/URL: (.+)/)`: the rest of the run after the first usable `URL: `. */
  function MatchUrl(s: string): (r: Option<string>)
    ensures r.Some? ==> r.value != "" && AllDots(r.value)
  {
    UrlFrom(s, 0)
  }

  lemma {:induction false} UrlFromHasMarker(s: string, p: nat)
    ensures UrlFrom(s, p).Some? ==> Contains(s, "URL: ")
    decreases |s| - p
  {
    if p + 5 < |s| && !(OccursAt(s, "URL: ", p) && IsDot(s[p + 5])) {
      UrlFromHasMarker(s, p + 1);
    }
  }

  /** `URL: (.+)` only matches a line that holds `URL: `. */
  lemma MatchUrlHasMarker(s: string)
    ensures MatchUrl(s).Some? ==> Contains(s, "URL: ")
  {
    UrlFromHasMarker(s, 0);
  }

  lemma MatchUrlRecovers(u: string)
    requires u != "" && AllDots(u)
    ensures MatchUrl("URL: " + u) == Some(u)
  {
    var s := "URL: " + u;
    assert s[0..5] == "URL: ";
    assert s[5..] == u;
    DotRunOfDots(u);
  }

  // ---------------------------------------------------------------------------
  // ^P(.+)

  /** `line.match(/^P(.+)/)` for a literal prefix `P`: the dot run after it, if non-empty. */
  function MatchHeading(line: string, prefix: string): (r: Option<string>)
    ensures r.Some? <==> StartsWith(line, prefix) && |line| > |prefix| && IsDot(line[|prefix|])
    ensures r.Some? ==> r.value != "" && AllDots(r.value) && r.value <= line[|prefix|..]
  {
    if StartsWith(line, prefix) && |line| > |prefix| && IsDot(line[|prefix|]) then
      Some(DotRun(line[|prefix|..]))
    else
      None
  }

  lemma MatchHeadingRecovers(prefix: string, t: string)
    requires t != "" && AllDots(t)
    ensures MatchHeading(prefix + t, prefix) == Some(t)
  {
    assert (prefix + t)[|prefix|..] == t;
    assert (prefix + t)[|prefix|] == t[0];
    DotRunOfDots(t);
  }
}
