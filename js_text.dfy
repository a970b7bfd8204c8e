/** The pieces of JavaScript's string library that the contact form relies on:
    `String.prototype.trim`, the regular-expression class `\s`, and the
    e-mail pattern `^[^\s@]+@[^\s@]+\.[^\s@]+$` as a predicate on strings. */
module JsText {
  import opened Wrappers

  /** ECMAScript WhiteSpace and LineTerminator code points: the set that `trim`
      strips and that `\s` matches. */
  predicate IsSpace(c: char)
  {
    if c <= ' ' then
      c == ' ' || '\t' <= c <= '\r'
    else if c < '\U{2000}' then
      c == '\U{A0}' || c == '\U{1680}'
    else
      c <= '\U{200A}' || c == '\U{2028}' || c == '\U{2029}' || c == '\U{202F}'
      || c == '\U{205F}' || c == '\U{3000}' || c == '\U{FEFF}'
  }

  /** Every character of s[lo..hi] is whitespace. */
  predicate AllSpaceIn(s: string, lo: int, hi: int)
    requires 0 <= lo <= hi <= |s|
  {
    forall i | lo <= i < hi :: IsSpace(s[i])
  }

  predicate AllSpace(s: string)
  {
    AllSpaceIn(s, 0, |s|)
  }

  /** s without its leading whitespace. */
  function TrimStart(s: string): string
  {
    if |s| > 0 && IsSpace(s[0]) then TrimStart(s[1..]) else s
  }

  /** TrimStart removes a whitespace prefix and stops at the first visible character. */
  lemma {:induction false} TrimStartSpec(s: string)
    ensures |TrimStart(s)| <= |s| && TrimStart(s) == s[|s| - |TrimStart(s)|..]
    ensures AllSpaceIn(s, 0, |s| - |TrimStart(s)|)
    ensures TrimStart(s) == [] || !IsSpace(TrimStart(s)[0])
  {
    if |s| > 0 && IsSpace(s[0]) {
      var t := s[1..];
      TrimStartSpec(t);
      forall i | 0 < i < |s| - |TrimStart(t)| ensures IsSpace(s[i]) {
        assert s[i] == t[i - 1];
      }
    }
  }

  /** s without its trailing whitespace. */
  function TrimEnd(s: string): string
  {
    if |s| > 0 && IsSpace(s[|s| - 1]) then TrimEnd(s[..|s| - 1]) else s
  }

  /** TrimEnd removes a whitespace suffix and stops at the last visible character. */
  lemma {:induction false} TrimEndSpec(s: string)
    ensures |TrimEnd(s)| <= |s| && TrimEnd(s) == s[..|TrimEnd(s)|]
    ensures AllSpaceIn(s, |TrimEnd(s)|, |s|)
    ensures TrimEnd(s) == [] || !IsSpace(TrimEnd(s)[|TrimEnd(s)| - 1])
  {
    if |s| > 0 && IsSpace(s[|s| - 1]) {
      var t := s[..|s| - 1];
      TrimEndSpec(t);
      forall i | |TrimEnd(t)| <= i < |s| - 1 ensures IsSpace(s[i]) {
        assert s[i] == t[i];
      }
    }
  }

  /** What `trim` promises: r is the slice of s left after removing a whitespace
      prefix and a whitespace suffix, and r itself neither starts nor ends with
      whitespace. */
  ghost predicate IsTrimOf(s: string, r: string)
  {
    (exists lo | 0 <= lo <= |s| - |r| ::
       r == s[lo..lo + |r|] && AllSpaceIn(s, 0, lo) && AllSpaceIn(s, lo + |r|, |s|))
    && (r == [] || (!IsSpace(r[0]) && !IsSpace(r[|r| - 1])))
  }

  /** `String.prototype.trim`. */
  function Trim(s: string): string
  {
    TrimEnd(TrimStart(s))
  }

  /** Trim meets its definition. */
  lemma TrimSpec(s: string)
    ensures IsTrimOf(s, Trim(s))
  {
    var t := TrimStart(s);
    var r := TrimEnd(t);
    TrimStartSpec(s);
    TrimEndSpec(t);
    var lo := |s| - |t|;
    assert r == s[lo..lo + |r|];
    forall i | lo + |r| <= i < |s| ensures IsSpace(s[i]) {
      assert s[i] == t[i - lo];
    }
    assert AllSpaceIn(s, lo + |r|, |s|);
  }

  /** The trim of a string is unique, so IsTrimOf is an independent definition of Trim. */
  lemma TrimOfUnique(s: string, r1: string, r2: string)
    requires IsTrimOf(s, r1) && IsTrimOf(s, r2)
    ensures r1 == r2
  {
    var lo1 :| 0 <= lo1 <= |s| - |r1| && r1 == s[lo1..lo1 + |r1|]
      && AllSpaceIn(s, 0, lo1) && AllSpaceIn(s, lo1 + |r1|, |s|);
    var lo2 :| 0 <= lo2 <= |s| - |r2| && r2 == s[lo2..lo2 + |r2|]
      && AllSpaceIn(s, 0, lo2) && AllSpaceIn(s, lo2 + |r2|, |s|);
    if r1 != [] && r2 != [] {
      assert r1[0] == s[lo1] && r2[0] == s[lo2];
      assert lo1 == lo2;
      assert r1[|r1| - 1] == s[lo1 + |r1| - 1] && r2[|r2| - 1] == s[lo2 + |r2| - 1];
      assert |r1| == |r2|;
    }
  }

  /** The number of non-whitespace characters of s. */
  function NonSpaceCount(s: string): (n: nat)
    ensures n <= |s|
  {
    if s == [] then 0
    else NonSpaceCount(s[..|s| - 1]) + (if IsSpace(s[|s| - 1]) then 0 else 1)
  }

  /** A string has no visible character exactly when it is all whitespace. */
  lemma {:induction false} NoVisibleIffAllSpace(s: string)
    ensures NonSpaceCount(s) == 0 <==> AllSpace(s)
  {
    if s != [] {
      var init := s[..|s| - 1];
      NoVisibleIffAllSpace(init);
      if AllSpace(s) {
        assert AllSpace(init) by {
          forall i | 0 <= i < |init| ensures IsSpace(init[i]) { assert init[i] == s[i]; }
        }
      }
      if NonSpaceCount(s) == 0 {
        forall i | 0 <= i < |s| ensures IsSpace(s[i]) {
          if i < |s| - 1 { assert s[i] == init[i]; }
        }
      }
    }
  }

  lemma {:induction false} NonSpaceCountAppend(a: string, b: string)
    ensures NonSpaceCount(a + b) == NonSpaceCount(a) + NonSpaceCount(b)
    decreases |b|
  {
    if b != [] {
      assert (a + b)[..|a + b| - 1] == a + b[..|b| - 1];
      NonSpaceCountAppend(a, b[..|b| - 1]);
    } else {
      assert a + b == a;
    }
  }

  lemma {:induction false} TrimStartKeepsVisible(s: string)
    ensures NonSpaceCount(TrimStart(s)) == NonSpaceCount(s)
  {
    if |s| > 0 && IsSpace(s[0]) {
      TrimStartKeepsVisible(s[1..]);
      assert [s[0]] + s[1..] == s;
      NonSpaceCountAppend([s[0]], s[1..]);
      assert NonSpaceCount([s[0]]) == 0 by { assert [s[0]][..0] == []; }
    }
  }

  lemma {:induction false} TrimEndKeepsVisible(s: string)
    ensures NonSpaceCount(TrimEnd(s)) == NonSpaceCount(s)
  {
    if |s| > 0 && IsSpace(s[|s| - 1]) {
      TrimEndKeepsVisible(s[..|s| - 1]);
    }
  }

  /** A string that starts and ends with distinct visible characters has at least two. */
  lemma VisibleAtBothEnds(r: string)
    requires |r| >= 2 && !IsSpace(r[0]) && !IsSpace(r[|r| - 1])
    ensures NonSpaceCount(r) >= 2
  {
    var init := r[..|r| - 1];
    assert init[0] == r[0];
    NoVisibleIffAllSpace(init);
  }

  /** Trimming removes only whitespace, so it keeps every visible character;
      in particular the trim has length 1 exactly when the string has exactly
      one visible character. */
  lemma TrimKeepsVisible(s: string)
    ensures NonSpaceCount(Trim(s)) == NonSpaceCount(s) <= |Trim(s)|
    ensures |Trim(s)| == 0 <==> NonSpaceCount(s) == 0
    ensures |Trim(s)| == 1 <==> NonSpaceCount(s) == 1
  {
    var t := TrimStart(s);
    var r := TrimEnd(t);
    TrimStartSpec(s);
    TrimEndSpec(t);
    TrimStartKeepsVisible(s);
    TrimEndKeepsVisible(t);
    NoVisibleIffAllSpace(s);
    NoVisibleIffAllSpace(r);
    if |r| >= 2 {
      assert r[0] == t[0];
      VisibleAtBothEnds(r);
    } else if |r| == 1 {
      assert r[0] == t[0];
    }
  }

  /** No character of s[lo..hi] is whitespace or '@': s[lo..hi] is a run of
      the class `[^\s@]`. */
  predicate NoSpaceOrAtIn(s: string, lo: int, hi: int)
    requires 0 <= lo <= hi <= |s|
  {
    forall i | lo <= i < hi :: !IsSpace(s[i]) && s[i] != '@'
  }

  /** The language of `^[^\s@]+@[^\s@]+\.[^\s@]+$`: three non-empty runs of
      characters other than whitespace and '@', joined by '@' and then '.'. */
  ghost predicate MatchesEmailPattern(s: string)
  {
    exists at, dot | 0 < at && at + 1 < dot && dot + 1 < |s| ::
      s[at] == '@' && s[dot] == '.'
      && NoSpaceOrAtIn(s, 0, at) && NoSpaceOrAtIn(s, at + 1, dot) && NoSpaceOrAtIn(s, dot + 1, |s|)
  }

  /** The index of the first '@' of s, if any. */
  function IndexOfAt(s: string): (r: Option<nat>)
    ensures r.Some? ==> r.value < |s| && s[r.value] == '@'
  {
    if s == [] then None
    else if s[0] == '@' then Some(0)
    else match IndexOfAt(s[1..])
      case None => None
      case Some(k) => Some(k + 1)
  }

  /** IndexOfAt finds the first '@', and finds none only when there is none. */
  lemma {:induction false} IndexOfAtSpec(s: string)
    ensures IndexOfAt(s).Some? ==> IndexOfAt(s).value < |s| && s[IndexOfAt(s).value] == '@'
    ensures IndexOfAt(s).Some? ==> forall j | 0 <= j < IndexOfAt(s).value :: s[j] != '@'
    ensures IndexOfAt(s).None? ==> forall j | 0 <= j < |s| :: s[j] != '@'
  {
    if s != [] && s[0] != '@' {
      IndexOfAtSpec(s[1..]);
      forall j | 1 <= j < |s| ensures s[j] == s[1..][j - 1] { }
    }
  }

  /** s[lo..hi] contains a '.' that is neither its first nor its last character. */
  predicate HasInnerDot(s: string, lo: int, hi: int)
    requires 0 <= lo <= hi <= |s|
  {
    exists k | lo < k < hi - 1 :: s[k] == '.'
  }

  /** The e-mail check, split at the first '@': a non-empty local part before it
      and a domain after it, neither holding whitespace or another '@', the
      domain with an inner '.'. */
  predicate IsValidEmail(s: string)
  {
    match IndexOfAt(s)
    case None => false
    case Some(at) =>
      at > 0 && NoSpaceOrAtIn(s, 0, at) && NoSpaceOrAtIn(s, at + 1, |s|) && HasInnerDot(s, at + 1, |s|)
  }

  lemma EmailCheckSound(s: string)
    requires IsValidEmail(s)
    ensures MatchesEmailPattern(s)
  {
    var at := IndexOfAt(s).value;
    var dot :| at + 1 < dot < |s| - 1 && s[dot] == '.';
    assert NoSpaceOrAtIn(s, at + 1, dot) && NoSpaceOrAtIn(s, dot + 1, |s|);
  }

  /** An '@' with none before it is the one IndexOfAt finds. */
  lemma {:induction false} FirstAtFound(s: string, at: nat)
    requires at < |s| && s[at] == '@'
    requires forall j | 0 <= j < at :: s[j] != '@'
    ensures IndexOfAt(s) == Some(at)
  {
    if at > 0 {
      var t := s[1..];
      forall j | 0 <= j < at - 1 ensures t[j] != '@' {
        assert t[j] == s[j + 1];
      }
      FirstAtFound(t, at - 1);
    }
  }

  /** Two runs of `[^\s@]` around a '.' form one run. */
  lemma JoinAtDot(s: string, lo: int, dot: int, hi: int)
    requires 0 <= lo <= dot < hi <= |s| && s[dot] == '.'
    requires NoSpaceOrAtIn(s, lo, dot) && NoSpaceOrAtIn(s, dot + 1, hi)
    ensures NoSpaceOrAtIn(s, lo, hi)
  {
    forall i | lo <= i < hi ensures !IsSpace(s[i]) && s[i] != '@' {
      if i == dot {
        assert s[i] == '.';
      }
    }
  }

  lemma EmailCheckComplete(s: string)
    requires MatchesEmailPattern(s)
    ensures IsValidEmail(s)
  {
    var at, dot :| 0 < at && at + 1 < dot && dot + 1 < |s|
      && s[at] == '@' && s[dot] == '.'
      && NoSpaceOrAtIn(s, 0, at) && NoSpaceOrAtIn(s, at + 1, dot) && NoSpaceOrAtIn(s, dot + 1, |s|);
    FirstAtFound(s, at);
    JoinAtDot(s, at + 1, dot, |s|);
    assert HasInnerDot(s, at + 1, |s|);
  }

  /** The split-at-'@' check accepts exactly the strings the regular expression matches. */
  lemma EmailCheckMatchesPattern(s: string)
    ensures IsValidEmail(s) <==> MatchesEmailPattern(s)
  {
    if IsValidEmail(s) {
      EmailCheckSound(s);
    }
    if MatchesEmailPattern(s) {
      EmailCheckComplete(s);
    }
  }
}
