/** The JavaScript string primitives the components use, over `string` (= `seq<char>`):
    `toLowerCase`/`toUpperCase` restricted to ASCII, `includes`, `startsWith`, `indexOf`,
    `replace` with a string pattern, `split` with a string separator, and `trim`. */
module Text {
  import opened Common

  // ---------------------------------------------------------------------------
  // Case mapping (ASCII only)
  // ---------------------------------------------------------------------------

  predicate IsAsciiUpper(c: char) { 'A' <= c <= 'Z' }

  predicate IsAsciiLower(c: char) { 'a' <= c <= 'z' }

  function LowerChar(c: char): char
  {
    if IsAsciiUpper(c) then (c as int + 32) as char else c
  }

  function UpperChar(c: char): char
  {
    if IsAsciiLower(c) then (c as int - 32) as char else c
  }

  /** `s.toLowerCase()`: every character lowered, in place. */
  function Lower(s: string): (r: string)
    ensures |r| == |s|
    ensures forall i :: 0 <= i < |s| ==> r[i] == LowerChar(s[i])
  {
    if s == [] then [] else [LowerChar(s[0])] + Lower(s[1..])
  }

  /** Lowering distributes over concatenation. */
  lemma LowerAppend(a: string, b: string)
    ensures Lower(a + b) == Lower(a) + Lower(b)
  {
    assert forall i :: 0 <= i < |a + b| ==> Lower(a + b)[i] == (Lower(a) + Lower(b))[i];
  }

  /** Lowering twice is lowering once. */
  lemma LowerIdempotent(s: string)
    ensures Lower(Lower(s)) == Lower(s)
  {
    var l := Lower(s);
    assert forall i :: 0 <= i < |l| ==> LowerChar(l[i]) == l[i];
  }

  /** No ASCII upper-case letter survives lowering. */
  lemma LowerHasNoUpper(s: string)
    ensures forall i :: 0 <= i < |Lower(s)| ==> !IsAsciiUpper(Lower(s)[i])
  {
  }

  // ---------------------------------------------------------------------------
  // Substrings
  // ---------------------------------------------------------------------------

  /** `sub` occurs in `s` starting at index `i`. */
  ghost predicate OccursAt(s: string, sub: string, i: int)
  {
    0 <= i && i + |sub| <= |s| && s[i..i + |sub|] == sub
  }

  /** `s.includes(sub)`. */
  predicate Contains(s: string, sub: string)
    decreases |s|
  {
    sub <= s || (s != [] && Contains(s[1..], sub))
  }

  lemma OccursAtTail(s: string, sub: string, j: int)
    requires s != [] && 0 <= j
    ensures OccursAt(s[1..], sub, j) <==> OccursAt(s, sub, j + 1)
  {
    if 0 <= j && j + |sub| <= |s| - 1 {
      assert s[1..][j..j + |sub|] == s[j + 1..j + 1 + |sub|];
    }
  }

  /** `Contains` agrees with the positional definition of a substring. */
  lemma {:induction false} ContainsIff(s: string, sub: string)
    ensures Contains(s, sub) <==> exists i :: OccursAt(s, sub, i)
    decreases |s|
  {
    if sub <= s {
      assert OccursAt(s, sub, 0);
    } else {
      assert !OccursAt(s, sub, 0);
      if s != [] {
        ContainsIff(s[1..], sub);
        if Contains(s[1..], sub) {
          var j :| OccursAt(s[1..], sub, j);
          OccursAtTail(s, sub, j);
        }
        if i :| OccursAt(s, sub, i) {
          OccursAtTail(s, sub, i - 1);
        }
      }
    }
  }

  /** A string holding `sub` holds its first character. */
  lemma {:induction false} ContainsHead(s: string, sub: string)
    requires sub != []
    ensures Contains(s, sub) ==> sub[0] in s
    decreases |s|
  {
    if s != [] && !(sub <= s) {
      ContainsHead(s[1..], sub);
      if sub[0] in s[1..] {
        var k :| 0 <= k < |s| - 1 && s[1..][k] == sub[0];
        assert s[k + 1] == sub[0];
      }
    }
  }

  /** A single character that occurs in `s` is a substring of it. */
  lemma {:induction false} CharContained(s: string, c: char)
    requires c in s
    ensures Contains(s, [c])
    decreases |s|
  {
    if s[0] == c {
      assert [c] <= s;
    } else {
      CharContained(s[1..], c);
    }
  }

  /** Every string contains the empty string (so an empty search term matches). */
  lemma ContainsEmpty(s: string)
    ensures Contains(s, [])
  {
  }

  /** `s.indexOf(sub)`, with -1 rendered as `None`: the least position where `sub` occurs. */
  function IndexOf(s: string, sub: string): (r: Option<nat>)
    ensures r.Some? ==> r.value + |sub| <= |s|
  {
    IndexFrom(s, sub, 0)
  }

  /** The least position from `k` on where `sub` occurs. */
  function IndexFrom(s: string, sub: string, k: nat): (r: Option<nat>)
    ensures r.Some? ==> k <= r.value && r.value + |sub| <= |s|
    decreases |s| - k
  {
    if k + |sub| > |s| then None
    else if s[k..k + |sub|] == sub then Some(k)
    else IndexFrom(s, sub, k + 1)
  }

  lemma {:induction false} IndexFromSpec(s: string, sub: string, k: nat)
    ensures IndexFrom(s, sub, k).Some? ==> OccursAt(s, sub, IndexFrom(s, sub, k).value)
    ensures IndexFrom(s, sub, k).Some? ==>
      forall j :: k <= j < IndexFrom(s, sub, k).value ==> !OccursAt(s, sub, j)
    ensures IndexFrom(s, sub, k).None? ==> forall j :: k <= j ==> !OccursAt(s, sub, j)
    decreases |s| - k
  {
    if k + |sub| <= |s| && s[k..k + |sub|] != sub {
      IndexFromSpec(s, sub, k + 1);
    }
  }

  /** `IndexOf` reports the least position where `sub` occurs, and `None` only when it
      occurs nowhere. */
  lemma IndexOfSpec(s: string, sub: string)
    ensures IndexOf(s, sub).Some? ==> OccursAt(s, sub, IndexOf(s, sub).value)
    ensures IndexOf(s, sub).Some? ==> forall j :: 0 <= j < IndexOf(s, sub).value ==> !OccursAt(s, sub, j)
    ensures IndexOf(s, sub).None? ==> forall j :: !OccursAt(s, sub, j)
  {
    IndexFromSpec(s, sub, 0);
  }

  /** `s.replace(pat, rep)` with a string pattern: only the first occurrence is replaced. */
  function ReplaceFirst(s: string, pat: string, rep: string): string
  {
    match IndexOf(s, pat)
    case None => s
    case Some(i) => s[..i] + rep + s[i + |pat|..]
  }

  /** When `s` starts with `pat`, replacing the first `pat` by "" strips that prefix. */
  lemma ReplacePrefix(s: string, pat: string)
    requires pat <= s
    ensures ReplaceFirst(s, pat, "") == s[|pat|..]
  {
    assert OccursAt(s, pat, 0);
    assert IndexOf(s, pat) == Some(0);
  }

  // ---------------------------------------------------------------------------
  // split / join
  // ---------------------------------------------------------------------------

  /** `parts.join(sep)`. */
  function Join(parts: seq<string>, sep: string): string
  {
    if |parts| == 0 then []
    else if |parts| == 1 then parts[0]
    else parts[0] + sep + Join(parts[1..], sep)
  }

  /** `s.split(sep)` for a non-empty string separator: cut at each occurrence, scanning
      left to right. */
  function Split(s: string, sep: string): (r: seq<string>)
    requires sep != []
    ensures |r| >= 1
    decreases |s|
  {
    var found := IndexOf(s, sep);
    if found.None? then [s] else [s[..found.value]] + Split(s[found.value + |sep|..], sep)
  }

  /** Joining a piece in front of at least one more puts the separator between. */
  lemma JoinCons(a: string, r: seq<string>, sep: string)
    requires |r| >= 1
    ensures Join([a] + r, sep) == a + sep + Join(r, sep)
  {
    assert ([a] + r)[1..] == r;
  }

  /** Joining the pieces back with the separator gives the string that was split. */
  lemma {:induction false} JoinSplit(s: string, sep: string)
    requires sep != []
    ensures Join(Split(s, sep), sep) == s
    decreases |s|
  {
    var found := IndexOf(s, sep);
    if found.Some? {
      var i := found.value;
      var rest := s[i + |sep|..];
      SplitStep(s, sep, i);
      JoinSplit(rest, sep);
      JoinCons(s[..i], Split(rest, sep), sep);
      IndexOfSpec(s, sep);
      assert s == s[..i] + s[i..i + |sep|] + rest;
    }
  }

  /** No piece of a split holds the separator. */
  lemma {:induction false} SplitPiecesLackSeparator(s: string, sep: string)
    requires sep != []
    ensures forall p :: p in Split(s, sep) ==> !Contains(p, sep)
    decreases |s|
  {
    IndexOfSpec(s, sep);
    match IndexOf(s, sep)
    case None =>
      ContainsIff(s, sep);
    case Some(i) =>
      var head := s[..i];
      assert !Contains(head, sep) by {
        ContainsIff(head, sep);
        if j :| OccursAt(head, sep, j) {
          assert s[j..j + |sep|] == head[j..j + |sep|];
          assert OccursAt(s, sep, j);
        }
      }
      SplitPiecesLackSeparator(s[i + |sep|..], sep);
      assert Split(s, sep) == [head] + Split(s[i + |sep|..], sep);
  }

  /** A string without `sep` splits into itself alone. */
  lemma SplitWithoutSeparator(s: string, sep: string)
    requires sep != [] && !Contains(s, sep)
    ensures Split(s, sep) == [s]
  {
    ContainsIff(s, sep);
    IndexOfSpec(s, sep);
    assert IndexOf(s, sep).None?;
  }

  /** The least position where `sub` occurs is what `IndexOf` reports. */
  lemma IndexOfIs(s: string, sub: string, i: nat)
    requires OccursAt(s, sub, i) && forall j :: 0 <= j < i ==> !OccursAt(s, sub, j)
    ensures IndexOf(s, sub) == Some(i)
  {
    IndexOfSpec(s, sub);
  }

  /** An occurrence found in `a` is still the first one once `a` is extended. */
  lemma IndexOfExtend(a: string, t: string, sub: string)
    requires IndexOf(a, sub).Some?
    ensures IndexOf(a + t, sub) == IndexOf(a, sub)
  {
    var i := IndexOf(a, sub).value;
    var s := a + t;
    IndexOfSpec(a, sub);
    assert s[i..i + |sub|] == a[i..i + |sub|];
    forall j | 0 <= j < i ensures !OccursAt(s, sub, j) {
      assert !OccursAt(a, sub, j);
      assert s[j..j + |sub|] == a[j..j + |sub|];
    }
    IndexOfIs(s, sub, i);
  }

  /** With no `c` in `a`, the first `c` of `a + [c] + b` is the one after `a`. */
  lemma IndexOfAfter(a: string, c: char, b: string)
    requires IndexOf(a, [c]).None?
    ensures IndexOf(a + [c] + b, [c]) == Some(|a|)
  {
    var s := a + [c] + b;
    IndexOfSpec(a, [c]);
    assert s[|a|..|a| + 1] == [c];
    forall j | 0 <= j < |a| ensures !OccursAt(s, [c], j) {
      assert !OccursAt(a, [c], j);
      assert s[j..j + 1] == a[j..j + 1];
    }
    IndexOfIs(s, [c], |a|);
  }

  /** One step of `Split`: the piece before the first separator, then the rest split. */
  lemma SplitStep(s: string, sep: string, i: nat)
    requires sep != [] && IndexOf(s, sep) == Some(i)
    ensures i + |sep| <= |s|
    ensures Split(s, sep) == [s[..i]] + Split(s[i + |sep|..], sep)
  {
  }

  /** With no `c` in `a`, `a` is the first piece of `a + [c] + b` and `b` is the rest. */
  lemma SplitAtFirst(a: string, c: char, b: string)
    requires IndexOf(a, [c]).None?
    ensures Split(a + [c] + b, [c]) == [a] + Split(b, [c])
  {
    var s := a + [c] + b;
    IndexOfAfter(a, c, b);
    SplitStep(s, [c], |a|);
    assert s[..|a|] == a && s[|a| + 1..] == b;
  }

  /** For a one-character separator, splitting `a + sep + b` is splitting `a` and `b`
      apart: the pieces of the two halves, in order. */
  lemma {:induction false} SplitAround(a: string, c: char, b: string)
    ensures Split(a + [c] + b, [c]) == Split(a, [c]) + Split(b, [c])
    decreases |a|
  {
    var s := a + [c] + b;
    var found := IndexOf(a, [c]);
    if found.None? {
      SplitAtFirst(a, c, b);
      assert Split(a, [c]) == [a];
    } else {
      var i := found.value;
      assert IndexOf(s, [c]) == Some(i) by {
        assert s == a + ([c] + b);
        IndexOfExtend(a, [c] + b, [c]);
      }
      var rest := a[i + 1..];
      assert s[..i] == a[..i] && s[i + 1..] == rest + [c] + b;
      calc {
        Split(s, [c]);
        { SplitStep(s, [c], i); }
        [a[..i]] + Split(rest + [c] + b, [c]);
        { SplitAround(rest, c, b); }
        [a[..i]] + (Split(rest, [c]) + Split(b, [c]));
        { SplitStep(a, [c], i); }
        Split(a, [c]) + Split(b, [c]);
      }
    }
  }

  // ---------------------------------------------------------------------------
  // trim
  // ---------------------------------------------------------------------------

  /** The characters `String.prototype.trim` removes: the ECMAScript WhiteSpace
      (tab, vertical tab, form feed, space, no-break space, byte order mark and the
      Unicode space separators) and LineTerminator code points. */
  predicate IsSpace(c: char)
  {
    c == '\t' || c == '\n' || c == '\U{000B}' || c == '\U{000C}' || c == '\r' || c == ' '
    || c == '\U{00A0}' || c == '\U{1680}' || ('\U{2000}' <= c <= '\U{200A}')
    || c == '\U{2028}' || c == '\U{2029}' || c == '\U{202F}' || c == '\U{205F}'
    || c == '\U{3000}' || c == '\U{FEFF}'
  }

  predicate AllSpace(s: string)
  {
    forall i :: 0 <= i < |s| ==> IsSpace(s[i])
  }

  /** Leading white space removed: `r` is the suffix of `s` after a run of spaces. */
  function TrimStart(s: string): (r: string)
    ensures |r| <= |s| && r == s[|s| - |r|..]
    ensures AllSpace(s[..|s| - |r|])
    ensures r == [] || !IsSpace(r[0])
  {
    if s != [] && IsSpace(s[0]) then
      var r := TrimStart(s[1..]);
      assert s[1..][..|s| - 1 - |r|] == s[1..|s| - |r|];
      r
    else s
  }

  /** Trailing white space removed: `r` is the prefix of `s` before a run of spaces. */
  function TrimEnd(s: string): (r: string)
    ensures |r| <= |s| && r == s[..|r|]
    ensures AllSpace(s[|r|..])
    ensures r == [] || !IsSpace(r[|r| - 1])
  {
    if s != [] && IsSpace(s[|s| - 1]) then
      var r := TrimEnd(s[..|s| - 1]);
      assert s[|r|..] == s[..|s| - 1][|r|..] + [s[|s| - 1]];
      r
    else s
  }

  /** `s.trim()`: `s` without its leading and trailing white space; no space is left at
      either end. */
  function Trim(s: string): (r: string)
    ensures |r| <= |s|
    ensures r == [] || (!IsSpace(r[0]) && !IsSpace(r[|r| - 1]))
  {
    TrimEnd(TrimStart(s))
  }

  /** Trimming adds no character: every character of `Trim(s)` occurs in `s`. */
  lemma TrimChars(s: string, c: char)
    requires c in Trim(s)
    ensures c in s
  {
    var t := TrimStart(s);
    var r := TrimEnd(t);
    assert Trim(s) == r;
    var k :| 0 <= k < |r| && r[k] == c;
    assert t[k] == c;
    assert s[|s| - |t| + k] == c;
  }

  /** Trimming a trimmed string changes nothing. */
  lemma TrimIdempotent(s: string)
    ensures Trim(Trim(s)) == Trim(s)
  {
  }

  /** `!s.trim()`: the string is empty or white space only. */
  predicate IsBlank(s: string)
  {
    Trim(s) == []
  }

  lemma IsBlankIff(s: string)
    ensures IsBlank(s) <==> AllSpace(s)
  {
    var t := TrimStart(s);
    var r := TrimEnd(t);
    var i := |s| - |t|;
    assert Trim(s) == r && t == s[i..];
    if r != [] {
      assert r[0] == s[i];
    } else {
      assert AllSpace(t) by {
        assert t[|r|..] == t;
      }
      forall k | 0 <= k < |s| ensures IsSpace(s[k]) {
        if k < i {
          assert s[..i][k] == s[k];
        } else {
          assert t[k - i] == s[k];
        }
      }
    }
  }
}
