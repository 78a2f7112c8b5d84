/** The post page's content renderer: the text is cut into blocks at every blank line
    ("\n\n"), and each block becomes a second- or third-level heading, a numbered list
    whose lines follow the pattern `\d+\. \*\*(.*?)\*\*: (.*)`, or a paragraph. Also the
    header's category badge and tag badges. */
module PostDetail {
  import opened Common
  import opened Text

  // ---------------------------------------------------------------------------
  // The list-line pattern `\d+\. \*\*(.*?)\*\*: (.*)`, unanchored
  // ---------------------------------------------------------------------------

  predicate IsDigit(c: char) { '0' <= c <= '9' }

  /** The characters `.` does not match: the ECMAScript line terminators. */
  predicate IsLineTerminator(c: char)
  {
    c == '\n' || c == '\r' || c == '\U{2028}' || c == '\U{2029}'
  }

  /** No line terminator among `s[a..b]`. */
  predicate NoTerminatorIn(s: string, a: nat, b: nat)
    requires a <= b <= |s|
  {
    forall m :: a <= m < b ==> !IsLineTerminator(s[m])
  }

  /** The literal text between the digits and the first group. */
  const Open := ". **"

  /** The literal text between the two groups. */
  const Close := "**: "

  predicate CloseAt(s: string, k: nat)
  {
    k + 4 <= |s| && s[k..k + 4] == Close
  }

  /** `\d+` at `i`: the longest run of digits there. No shorter run can be followed by
      the `.` of `Open`, so greedy backtracking never tries another length. */
  function DigitRun(s: string, i: nat): (d: nat)
    requires i <= |s|
    ensures i + d <= |s|
    decreases |s| - i
  {
    if i < |s| && IsDigit(s[i]) then 1 + DigitRun(s, i + 1) else 0
  }

  /** The run is all digits and is followed by a non-digit or the end. */
  lemma {:induction false} DigitRunSpec(s: string, i: nat)
    requires i <= |s|
    ensures forall m :: i <= m < i + DigitRun(s, i) ==> IsDigit(s[m])
    ensures i + DigitRun(s, i) == |s| || !IsDigit(s[i + DigitRun(s, i)])
    decreases |s| - i
  {
    if i < |s| && IsDigit(s[i]) {
      DigitRunSpec(s, i + 1);
    }
  }

  /** `(.*?)\*\*: ` from `j`: the nearest `k` at which `Close` starts and before which no
      line terminator was crossed. */
  function LazyClose(s: string, j: nat): (r: Option<nat>)
    requires j <= |s|
    ensures r.Some? ==> j <= r.value && CloseAt(s, r.value)
    decreases |s| - j
  {
    if CloseAt(s, j) then Some(j)
    else if j < |s| && !IsLineTerminator(s[j]) then LazyClose(s, j + 1)
    else None
  }

  /** The `Close` found is the first after `j` and on the same line; `None` means there is
      none on the line. */
  lemma {:induction false} LazyCloseSpec(s: string, j: nat)
    requires j <= |s|
    ensures LazyClose(s, j).Some? ==> NoTerminatorIn(s, j, LazyClose(s, j).value)
    ensures LazyClose(s, j).Some? ==> forall k :: j <= k < LazyClose(s, j).value ==> !CloseAt(s, k)
    ensures LazyClose(s, j).None? ==>
      forall k :: j <= k <= |s| && NoTerminatorIn(s, j, k) ==> !CloseAt(s, k)
    decreases |s| - j
  {
    if !CloseAt(s, j) && j < |s| && !IsLineTerminator(s[j]) {
      LazyCloseSpec(s, j + 1);
      forall k | j < k <= |s| && NoTerminatorIn(s, j, k) ensures NoTerminatorIn(s, j + 1, k) {
      }
    }
  }

  /** `(.*)` from `k`: up to the first line terminator or the end. */
  function LineEnd(s: string, k: nat): (e: nat)
    requires k <= |s|
    ensures k <= e <= |s|
    decreases |s| - k
  {
    if k < |s| && !IsLineTerminator(s[k]) then LineEnd(s, k + 1) else k
  }

  /** The line ends at the first terminator, or at the end of the text. */
  lemma {:induction false} LineEndSpec(s: string, k: nat)
    requires k <= |s|
    ensures NoTerminatorIn(s, k, LineEnd(s, k))
    ensures LineEnd(s, k) == |s| || IsLineTerminator(s[LineEnd(s, k)])
    decreases |s| - k
  {
    if k < |s| && !IsLineTerminator(s[k]) {
      LineEndSpec(s, k + 1);
    }
  }

  /** The two capture groups: `match[1]` and `match[2]`. */
  datatype ListItem = ListItem(bold: string, rest: string)

  /** The pattern tried at position `i` only. */
  function MatchAt(s: string, i: nat): Option<ListItem>
    requires i <= |s|
  {
    var d := DigitRun(s, i);
    var o := i + d;
    if d == 0 || !(o + 4 <= |s| && s[o..o + 4] == Open) then None
    else
      match LazyClose(s, o + 4)
      case None => None
      case Some(k) => Some(ListItem(s[o + 4..k], s[k + 4..LineEnd(s, k + 4)]))
  }

  /** The text at `i` reads: `d >= 1` digits, `Open`, the first group, `Close`, the second
      group, and then the end of the line. */
  predicate Spells(s: string, i: nat, d: nat, item: ListItem)
  {
    var o := i + d;
    var e := o + 4 + |item.bold| + 4 + |item.rest|;
    && 1 <= d && e <= |s|
    && (forall m :: i <= m < o ==> IsDigit(s[m]))
    && s[o..e] == Open + item.bold + Close + item.rest
    && (e == |s| || IsLineTerminator(s[e]))
  }

  /** A match at `i` spells the matched text. */
  /** The text from `o` to `e` is `Open`, the first group, `Close` and the second group. */
  lemma SliceOfParts(s: string, o: nat, k: nat, e: nat)
    requires o + 4 <= k && k + 4 <= e <= |s| && s[o..o + 4] == Open && CloseAt(s, k)
    ensures s[o..e] == Open + s[o + 4..k] + Close + s[k + 4..e]
  {
    assert s[o..e] == s[o..o + 4] + s[o + 4..k] + s[k..k + 4] + s[k + 4..e];
  }

  lemma MatchAtSpells(s: string, i: nat, item: ListItem)
    requires i <= |s| && MatchAt(s, i) == Some(item)
    ensures Spells(s, i, DigitRun(s, i), item)
  {
    var d := DigitRun(s, i);
    var k := LazyClose(s, i + d + 4).value;
    var e := LineEnd(s, k + 4);
    assert item == ListItem(s[i + d + 4..k], s[k + 4..e]);
    DigitRunSpec(s, i);
    LineEndSpec(s, k + 4);
    PartsSpell(s, i, d, k, e);
  }

  /** Digits, `Open`, text, `Close`, and text up to the end of the line spell the two
      pieces of text as groups. */
  lemma PartsSpell(s: string, i: nat, d: nat, k: nat, e: nat)
    requires 1 <= d && i + d + 4 <= k && k + 4 <= e <= |s|
    requires forall m :: i <= m < i + d ==> IsDigit(s[m])
    requires s[i + d..i + d + 4] == Open && CloseAt(s, k)
    requires e == |s| || IsLineTerminator(s[e])
    ensures Spells(s, i, d, ListItem(s[i + d + 4..k], s[k + 4..e]))
  {
    SliceOfParts(s, i + d, k, e);
  }

  /** Neither group of a match crosses a line. */
  lemma MatchAtOnOneLine(s: string, i: nat, item: ListItem)
    requires i <= |s| && MatchAt(s, i) == Some(item)
    ensures forall m :: 0 <= m < |item.bold| ==> !IsLineTerminator(item.bold[m])
    ensures forall m :: 0 <= m < |item.rest| ==> !IsLineTerminator(item.rest[m])
  {
    var o := i + DigitRun(s, i);
    var k := LazyClose(s, o + 4).value;
    var e := LineEnd(s, k + 4);
    assert item.bold == s[o + 4..k] && item.rest == s[k + 4..e];
    assert NoTerminatorIn(s, o + 4, k) by {
      LazyCloseSpec(s, o + 4);
    }
    assert NoTerminatorIn(s, k + 4, e) by {
      LineEndSpec(s, k + 4);
    }
  }

  /** The first group is lazy: in the first group followed by `Close`, `Close` occurs
      nowhere before the end of the group. */
  lemma MatchAtLazy(s: string, i: nat, item: ListItem)
    requires i <= |s| && MatchAt(s, i) == Some(item)
    ensures forall m :: 0 <= m < |item.bold| ==> !OccursAt(item.bold + Close, Close, m)
  {
    var o := i + DigitRun(s, i);
    var k := LazyClose(s, o + 4).value;
    assert item.bold == s[o + 4..k];
    LazyCloseSpec(s, o + 4);
    FirstClose(s, o + 4, k);
  }

  lemma SliceOfSlice(s: string, a: nat, b: nat, x: nat, y: nat)
    requires a <= b <= |s| && x <= y <= b - a
    ensures s[a..b][x..y] == s[a + x..a + y]
  {
    assert |s[a..b][x..y]| == y - x;
    forall j | 0 <= j < y - x ensures s[a..b][x..y][j] == s[a + x..a + y][j] {
      assert s[a..b][x..y][j] == s[a..b][x + j] == s[a + x + j];
    }
  }

  /** When `Close` starts at `k` and nowhere in `[a, k)`, then in `s[a..k]` followed by
      `Close` it occurs at no position inside `s[a..k]`. */
  lemma FirstClose(s: string, a: nat, k: nat)
    requires a <= k && CloseAt(s, k)
    requires forall j :: a <= j < k ==> !CloseAt(s, j)
    ensures forall m :: 0 <= m < k - a ==> !OccursAt(s[a..k] + Close, Close, m)
  {
    var t := s[a..k] + Close;
    assert t == s[a..k + 4];
    forall m | 0 <= m < k - a ensures !OccursAt(t, Close, m) {
      assert !CloseAt(s, a + m);
      assert t[m..m + 4] == s[a + m..a + m + 4] by {
        assert t[m..m + 4] == s[a..k + 4][m..m + 4];
        SliceOfSlice(s, a, k + 4, m, m + 4);
      }
    }
  }

  /** Conversely, wherever the text at `i` has the pattern's shape the pattern matches. */
  lemma MatchAtComplete(s: string, i: nat, d: nat, k: nat)
    requires 1 <= d && i + d + 4 <= k && k + 4 <= |s|
    requires forall m :: i <= m < i + d ==> IsDigit(s[m])
    requires s[i + d..i + d + 4] == Open && CloseAt(s, k) && NoTerminatorIn(s, i + d + 4, k)
    ensures MatchAt(s, i).Some?
  {
    assert s[i + d] == '.';
    DigitRunIs(s, i, d);
    LazyCloseSpec(s, i + d + 4);
    assert LazyClose(s, i + d + 4).Some?;
  }

  /** A digit run ended by a non-digit is exactly what `\d+` takes. */
  lemma {:induction false} DigitRunIs(s: string, i: nat, d: nat)
    requires i + d < |s| && !IsDigit(s[i + d])
    requires forall m :: i <= m < i + d ==> IsDigit(s[m])
    ensures DigitRun(s, i) == d
    decreases d
  {
    if d > 0 {
      DigitRunIs(s, i + 1, d - 1);
    }
  }

  /** `LazyClose` finds the nearest `Close` on the line. */
  lemma {:induction false} LazyCloseAt(s: string, j: nat, k: nat)
    requires j <= k && CloseAt(s, k) && NoTerminatorIn(s, j, k)
    requires forall m :: j <= m < k ==> !CloseAt(s, m)
    ensures LazyClose(s, j) == Some(k)
    decreases k - j
  {
    if j < k {
      LazyCloseAt(s, j + 1, k);
    }
  }

  /** `line.match(pattern)`: the match starting at the leftmost position where the
      pattern matches, or `None` (the source's `null`) when there is none. */
  function MatchFrom(s: string, i: nat): Option<ListItem>
    requires i <= |s|
    decreases |s| - i
  {
    var here := MatchAt(s, i);
    if here.Some? || i == |s| then here else MatchFrom(s, i + 1)
  }

  /** The pattern matches at no position from `i` up to, not including, `j`. */
  predicate NoMatchIn(s: string, i: nat, j: nat)
    requires i <= j <= |s| + 1
  {
    forall j' :: i <= j' < j ==> MatchAt(s, j').None?
  }

  /** `MatchFrom` is the match at the leftmost position where there is one, and `None`
      only when there is none at all. */
  lemma {:induction false} MatchFromIsLeftmost(s: string, i: nat)
    requires i <= |s|
    ensures MatchFrom(s, i).Some? ==>
      exists j :: i <= j <= |s| && MatchAt(s, j) == MatchFrom(s, i) && NoMatchIn(s, i, j)
    ensures MatchFrom(s, i).None? ==> NoMatchIn(s, i, |s| + 1)
    decreases |s| - i
  {
    if MatchAt(s, i).None? && i < |s| {
      MatchFromIsLeftmost(s, i + 1);
      assert MatchFrom(s, i) == MatchFrom(s, i + 1);
      if MatchFrom(s, i).Some? {
        var j :| i + 1 <= j <= |s| && MatchAt(s, j) == MatchFrom(s, i) && NoMatchIn(s, i + 1, j);
        assert NoMatchIn(s, i, j);
      } else {
        assert NoMatchIn(s, i, |s| + 1);
      }
    } else if MatchAt(s, i).Some? {
      assert NoMatchIn(s, i, i);
    }
  }

  function ParseListLine(line: string): Option<ListItem>
  {
    MatchFrom(line, 0)
  }

  /** No line terminator in `t`: `.` matches every character of it. */
  predicate OnOneLine(t: string)
  {
    '\n' !in t && '\r' !in t && '\U{2028}' !in t && '\U{2029}' !in t
  }

  lemma MatchFromStep(s: string, i: nat)
    requires i < |s| && MatchAt(s, i).None?
    ensures MatchFrom(s, i) == MatchFrom(s, i + 1)
  {
  }

  /** Positions where the pattern fails are skipped. */
  lemma {:induction false} MatchFromSkips(s: string, i: nat, j: nat)
    requires i <= j <= |s| && NoMatchIn(s, i, j)
    ensures MatchFrom(s, i) == MatchFrom(s, j)
    decreases j - i
  {
    if i < j {
      assert MatchAt(s, i).None?;
      MatchFromStep(s, i);
      assert NoMatchIn(s, i + 1, j);
      MatchFromSkips(s, i + 1, j);
    }
  }

  /** One digit, `Open`, a first group without `*`, `Close` and a second group running
      to the end, neither group crossing a line, match at `i` as exactly those groups. */
  lemma MatchAtShape(s: string, i: nat, bold: string, rest: string)
    requires i + 5 + |bold| + 4 <= |s| && IsDigit(s[i]) && s[i + 1..i + 5] == Open
    requires s[i + 5..i + 5 + |bold|] == bold && CloseAt(s, i + 5 + |bold|)
    requires s[i + 5 + |bold| + 4..] == rest
    requires '*' !in bold && OnOneLine(bold) && OnOneLine(rest)
    ensures MatchAt(s, i) == Some(ListItem(bold, rest))
  {
    var o := i + 1;
    var k := o + 4 + |bold|;
    assert DigitRun(s, i) == 1 by {
      DigitRunIs(s, i, 1);
    }
    assert LazyClose(s, o + 4) == Some(k) by {
      forall m | o + 4 <= m < k ensures !CloseAt(s, m) && !IsLineTerminator(s[m]) {
        assert s[m] == bold[m - o - 4];
        assert bold[m - o - 4] in bold;
      }
      LazyCloseAt(s, o + 4, k);
    }
    assert LineEnd(s, k + 4) == |s| by {
      LineEndSpec(s, k + 4);
      forall m | k + 4 <= m < |s| ensures !IsLineTerminator(s[m]) {
        assert s[m] == rest[m - k - 4];
        assert rest[m - k - 4] in rest;
      }
    }
    MatchAtParts(s, i, 1, k, |s|);
    assert s[o + 4..k] == bold && s[k + 4..|s|] == rest;
  }

  /** The match at `i` read off the digit run, the nearest `Close` and the line's end. */
  lemma MatchAtParts(s: string, i: nat, d: nat, k: nat, e: nat)
    requires i <= |s| && DigitRun(s, i) == d && 1 <= d && i + d + 4 <= |s|
    requires s[i + d..i + d + 4] == Open
    requires LazyClose(s, i + d + 4) == Some(k) && LineEnd(s, k + 4) == e
    ensures MatchAt(s, i) == Some(ListItem(s[i + d + 4..k], s[k + 4..e]))
  {
  }

  /** A line made of an indentation of spaces, a one-digit number, `Open`, a first group
      without `*`, `Close` and a second group, neither group crossing a line, parses into
      exactly those two groups. */
  lemma ListLineShape(indent: string, digit: char, bold: string, rest: string)
    requires forall m :: 0 <= m < |indent| ==> indent[m] == ' '
    requires IsDigit(digit)
    requires '*' !in bold && OnOneLine(bold) && OnOneLine(rest)
    ensures ParseListLine(indent + [digit] + Open + bold + Close + rest) == Some(ListItem(bold, rest))
  {
    var s := indent + [digit] + Open + bold + Close + rest;
    var i := |indent|;
    assert NoMatchIn(s, 0, i) by {
      forall j | 0 <= j < i ensures MatchAt(s, j).None? {
        assert s[j] == indent[j];
      }
    }
    assert MatchAt(s, i) == Some(ListItem(bold, rest)) by {
      var k := i + 5 + |bold|;
      assert s[i] == digit;
      assert s[i + 1..i + 5] == Open;
      assert s[i + 5..k] == bold;
      assert s[k..k + 4] == Close;
      assert s[k + 4..] == rest;
      MatchAtShape(s, i, bold, rest);
    }
    MatchFromSkips(s, 0, i);
  }

  /** The first item line of the sample post, with its indentation. */
  const SampleItemLine := "    " + ['1'] + Open + "Precision Measuring" + Close + SampleItemText

  const SampleItemText := "Evidence of " + "highly accurate " + "measuring devices"

  lemma SampleListLine()
    ensures ParseListLine(SampleItemLine) == Some(ListItem("Precision Measuring", SampleItemText))
  {
    SampleTextOnOneLine();
    SampleBoldIsPlain();
    ListLineShape("    ", '1', "Precision Measuring", SampleItemText);
  }

  lemma SampleTextOnOneLine()
    ensures OnOneLine(SampleItemText)
  {
    assert OnOneLine("Evidence of ");
    assert OnOneLine("highly accurate ");
    assert OnOneLine("measuring devices");
  }

  lemma SampleBoldIsPlain()
    ensures OnOneLine("Precision Measuring") && '*' !in "Precision Measuring"
    ensures forall m :: 0 <= m < |"    "| ==> "    "[m] == ' '
  {
  }

  // ---------------------------------------------------------------------------
  // Blocks
  // ---------------------------------------------------------------------------

  datatype Block =
    | Heading2(text: string)
    | Heading3(text: string)
    | OrderedList(items: seq<ListItem>)
    | Paragraph(text: string)

  /** The three markers that make a block a list. */
  predicate HasListMarker(block: string)
  {
    Contains(block, "1. **") || Contains(block, "2. **") || Contains(block, "3. **")
  }

  /** A line the list pattern matches. */
  predicate IsListLine(line: string)
  {
    ParseListLine(line).Some?
  }

  /** A line of a list block that is not blank after trimming. */
  predicate NonBlankLine(line: string)
  {
    !IsBlank(line)
  }

  /** The items of the lines that match: one item per matching line, in line order, and
      nothing for a line that does not match. */
  function MatchedItems(lines: seq<string>): (items: seq<ListItem>)
    ensures |items| == |Filter(lines, IsListLine)|
    ensures forall i :: 0 <= i < |items| ==> Some(items[i]) == ParseListLine(Filter(lines, IsListLine)[i])
  {
    if lines == [] then []
    else
      var rest := MatchedItems(lines[1..]);
      var kept := Filter(lines[1..], IsListLine);
      match ParseListLine(lines[0])
      case None =>
        assert Filter(lines, IsListLine) == kept;
        rest
      case Some(x) =>
        ConsMatched(x, rest, lines[0], kept);
        assert Filter(lines, IsListLine) == [lines[0]] + kept;
        [x] + rest
  }

  /** The step of `MatchedItems` for a matching first line, over abstract lists. */
  lemma ConsMatched(x: ListItem, rest: seq<ListItem>, line: string, kept: seq<string>)
    requires ParseListLine(line) == Some(x)
    requires |rest| == |kept|
    requires forall i :: 0 <= i < |rest| ==> Some(rest[i]) == ParseListLine(kept[i])
    ensures forall i :: 0 <= i < |rest| + 1 ==> Some(([x] + rest)[i]) == ParseListLine(([line] + kept)[i])
  {
  }

  /** Every item comes from a line of the block, and every matching line gives one. */
  lemma MatchedItemsMembership(lines: seq<string>)
    ensures forall x :: x in MatchedItems(lines) <==> exists l :: l in lines && ParseListLine(l) == Some(x)
  {
    var kept := Filter(lines, IsListLine);
    var items := MatchedItems(lines);
    forall x | x in items
      ensures exists l :: l in lines && ParseListLine(l) == Some(x)
    {
      var i :| 0 <= i < |items| && items[i] == x;
      assert kept[i] in kept;
    }
    forall x, l | l in lines && ParseListLine(l) == Some(x)
      ensures x in items
    {
      assert l in kept;
      var i :| 0 <= i < |kept| && kept[i] == l;
      assert items[i] == x;
    }
  }

  /** One block of the content, classified in the source's order of tests. */
  function ClassifyBlock(block: string): (b: Block)
    ensures b.Heading2? <==> "## " <= block
    ensures b.Heading2? ==> b.text == block[3..]
    ensures b.Heading3? <==> !("## " <= block) && "### " <= block
    ensures b.Heading3? ==> b.text == block[4..]
    ensures b.OrderedList? <==> !("## " <= block) && !("### " <= block) && HasListMarker(block)
    ensures b.OrderedList? ==> b.items == MatchedItems(Filter(Split(block, "\n"), NonBlankLine))
    ensures b.Paragraph? ==> b.text == block
  {
    if "## " <= block then
      ReplacePrefix(block, "## ");
      Heading2(ReplaceFirst(block, "## ", ""))
    else if "### " <= block then
      ReplacePrefix(block, "### ");
      Heading3(ReplaceFirst(block, "### ", ""))
    else if HasListMarker(block) then
      OrderedList(MatchedItems(Filter(Split(block, "\n"), NonBlankLine)))
    else
      Paragraph(block)
  }

  /** Headings are detected without trimming: a block that starts with a space is a list
      or a paragraph, whatever follows the indentation. */
  lemma IndentedBlockIsNoHeading(block: string)
    requires |block| > 0 && block[0] == ' '
    ensures !ClassifyBlock(block).Heading2? && !ClassifyBlock(block).Heading3?
  {
  }

  /** An indented block without the digits 1 to 3 is a paragraph, shown verbatim. */
  lemma IndentedPlainBlockIsParagraph(block: string)
    requires |block| > 0 && block[0] == ' '
    requires '1' !in block && '2' !in block && '3' !in block
    ensures ClassifyBlock(block) == Paragraph(block)
  {
    ContainsHead(block, "1. **");
    ContainsHead(block, "2. **");
    ContainsHead(block, "3. **");
  }

  /** So the sample post's indented "## Key Findings" shows as a paragraph. */
  lemma SampleIndentedHeading()
    ensures ClassifyBlock("    ## Key Findings") == Paragraph("    ## Key Findings")
  {
    IndentedPlainBlockIsParagraph("    ## Key Findings");
  }

  /** The content as rendered: one block per piece between blank lines, in order. */
  function RenderContent(content: string): (blocks: seq<Block>)
    ensures var pieces := Split(content, "\n\n");
            |blocks| == |pieces| && forall i :: 0 <= i < |pieces| ==> blocks[i] == ClassifyBlock(pieces[i])
  {
    var pieces := Split(content, "\n\n");
    seq(|pieces|, i requires 0 <= i < |pieces| => ClassifyBlock(pieces[i]))
  }

  /** The pieces the renderer classifies are the whole content, cut at blank lines only. */
  lemma RenderContentCoversContent(content: string)
    ensures Join(Split(content, "\n\n"), "\n\n") == content
    ensures forall p :: p in Split(content, "\n\n") ==> !Contains(p, "\n\n")
    ensures |RenderContent(content)| >= 1
  {
    JoinSplit(content, "\n\n");
    SplitPiecesLackSeparator(content, "\n\n");
  }

  // ---------------------------------------------------------------------------
  // Header badges
  // ---------------------------------------------------------------------------

  /** `s.charAt(0).toUpperCase() + s.slice(1)`, with ASCII upper-casing. */
  function Capitalize(s: string): (r: string)
    ensures |r| == |s|
    ensures |s| > 0 ==> r[0] == UpperChar(s[0]) && r[1..] == s[1..]
  {
    if s == [] then [] else [UpperChar(s[0])] + s[1..]
  }

  /** Only the first character changes, so capitalising twice changes nothing more. */
  lemma CapitalizeIdempotent(s: string)
    ensures Capitalize(Capitalize(s)) == Capitalize(s)
  {
  }

  const Gray := "bg-gray-100 text-gray-800"

  const CategoryColors: map<string, string> := map[
    "monument" := "bg-blue-100 text-blue-800",
    "quarry" := "bg-yellow-100 text-yellow-800",
    "marble" := "bg-purple-100 text-purple-800",
    "company" := "bg-green-100 text-green-800"]

  /** `getCategoryColor`: the four categories are coloured, anything else is gray. */
  function CategoryColor(category: string): (color: string)
    ensures category == "monument" ==> color == "bg-blue-100 text-blue-800"
    ensures category == "quarry" ==> color == "bg-yellow-100 text-yellow-800"
    ensures category == "marble" ==> color == "bg-purple-100 text-purple-800"
    ensures category == "company" ==> color == "bg-green-100 text-green-800"
    ensures color == Gray <==> category !in CategoryColors
  {
    if category in CategoryColors then CategoryColors[category] else Gray
  }

  /** `tags.slice(0, 2)`: at most the first two tags, in order. */
  function HeaderTags(tags: seq<string>): (r: seq<string>)
    ensures r <= tags
    ensures |r| == if |tags| < 2 then |tags| else 2
  {
    if |tags| < 2 then tags else tags[..2]
  }
}
