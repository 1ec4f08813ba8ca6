/** A blank line after a numbered line is no paragraph break: the numbered
    pattern ends in `(\n|$)`, so the first pass consumes the newline that
    ends the item, and the `split('\n\n')` after the passes finds only the
    second newline of the blank line. The item and whatever follows it stay
    in one block, which is kept unwrapped because it holds a list item. */
module MarkupBreaks {
  import opened Domain
  import opened Markup
  import opened MarkupPatterns
  import opened MarkupLaws
  import opened MarkupExamples

  /** Text without a decimal digit: neither list pattern can start a number in it. */
  predicate NoDigits(s: string)
  {
    forall k :: 0 <= k < |s| ==> !IsDigit(s[k])
  }

  /** The characters of a numbered line `d. x`. */
  lemma NumberedHead(h: string, d: string, x: string)
    requires h == d + ". " + x
    ensures |h| == |d| + 2 + |x| && h[|d|] == '.' && h[|d| + 1] == ' '
    ensures forall m :: 0 <= m < |d| ==> h[m] == d[m]
    ensures forall m :: |d| + 2 <= m < |h| ==> h[m] == x[m - |d| - 2]
    ensures h[..|d| + 2] == d + ". " && h[|d| + 2..] == x
  {
  }

  /** A numbered line `h` followed by a newline and `rest`: the first pass
      sees a complete numbered match ending at that newline, and the number,
      the text and the rest read back from `s`. */
  lemma LineFacts(s: string, h: string, d: string, x: string, rest: string)
    requires d != [] && AllDigits(d) && x != [] && NoNewline(x)
    requires h == d + ". " + x && s == h + "\n" + rest
    ensures NumberedShape(s, 0, |d| + 2, |h|)
    ensures s[0..|d| + 2] == d + ". " && s[|d| + 2..|h|] == x
    ensures |h| < |s| && s[|h|] == '\n' && s[|h| + 1..] == rest
  {
    NumberedHead(h, d, x);
    forall m | 0 <= m < |h| ensures s[m] == h[m] { }
    assert s[0..|d| + 2] == h[..|d| + 2];
    assert s[|d| + 2..|h|] == h[|d| + 2..];
  }

  /** A complete numbered match at the start of `s`, ended by a newline,
      becomes one item, and the scan goes on right after the newline. */
  lemma ItemEatsNewline(s: string, d: string, x: string, n: nat, e: nat)
    requires NumberedShape(s, 0, n, e) && e < |s| && s[0..n] == d + ". " && s[n..e] == x
    ensures ReplaceAll(NumberedList, s) == ListItem(d + ". ", x) + ReplaceFrom(NumberedList, s, e + 1)
  {
    NumberedMatchComplete(s, 0, n, e);
  }

  /** Moving a newline between a prefix and a tail. */
  lemma NewlineRegroup(a: string, y: string)
    ensures a + ("\n" + y) == a + "\n" + y
  {
  }

  /** Splitting a blank line off a prefix. */
  lemma BreakRegroup(h: string, y: string)
    ensures h + "\n\n" + y == h + "\n" + ("\n" + y)
  {
  }

  /** Pass 1 copies a newline: no number starts there. */
  lemma NewlineCopied(s: string, j: nat)
    requires j < |s| && s[j] == '\n'
    ensures ReplaceFrom(NumberedList, s, j) == "\n" + ReplaceFrom(NumberedList, s, j + 1)
  {
    RunEndIs(s, j, j, Digits);
    ReplaceSkip(NumberedList, s, j);
  }

  /** Pass 1 copies a tail without digits. */
  lemma DigitlessTail(s: string, j: nat)
    requires j <= |s| && NoDigits(s[j..])
    ensures ReplaceFrom(NumberedList, s, j) == s[j..]
  {
    forall m | j <= m < |s| ensures MatchAt(NumberedList, s, m).None? {
      forall k | m <= k < |s| ensures !IsDigit(s[k]) {
        assert s[k] == s[j..][k - j];
      }
      NoTriggerNoMatch(NumberedList, s, m);
    }
    ReplaceCopies(NumberedList, s, j, |s|);
    assert s[j..|s|] == s[j..];
  }

  /** No nested item starts at a tag. */
  lemma TagNoNested(t: string, m: nat)
    requires m < |t| && t[m] == '<'
    ensures MatchNested(t, m).None?
  {
    RunEndIs(t, m, m, Spaces);
  }

  /** Two lines, the first starting with a tag and the second with a tag or
      holding no digit: the nested-list pass finds nothing in them. */
  lemma TwoLinesNoNested(t: string, a: string, b: string)
    requires a != [] && a[0] == '<' && NoTerminator(a) && NoTerminator(b)
    requires (b != [] && b[0] == '<') || NoDigits(b)
    requires t == a + "\n" + b
    ensures ReplaceAll(NestedList, t) == t
  {
    forall m | 0 <= m < |t| ensures MatchAt(NestedList, t, m).None? {
      if m == 0 {
        TagNoNested(t, 0);
      } else if m < |a| + 1 {
        assert t[m - 1] == a[m - 1];
      } else if m == |a| + 1 {
        if b != [] && b[0] == '<' {
          TagNoNested(t, m);
        } else {
          forall k | m <= k < |t| ensures !IsDigit(t[k]) {
            assert t[k] == b[k - m];
          }
          NoTriggerNoMatch(NestedList, t, m);
        }
      } else {
        assert t[m - 1] == b[m - 2 - |a|];
      }
    }
    ReplaceCopies(NestedList, t, 0, |t|);
    assert t[0..|t|] == t;
  }

  /** Two lines starting with a list item form one block that is kept as it is. */
  lemma TwoLinesOneBlock(t: string, a: string, b: string, rest: string)
    requires NoTerminator(a) && NoTerminator(b) && a == ListItemOpen + rest
    requires t == a + "\n" + b
    ensures Paragraphs(t) == t
  {
    forall k | 0 <= k < |t| ensures t[k] == '\n' ==> k == |a| {
      if k < |a| {
        assert t[k] == a[k];
      } else if k > |a| {
        assert t[k] == b[k - |a| - 1];
      }
    }
    assert !HasBreak(t);
    SplitNoBreak(t);
    assert t[0..] == ListItemOpen + (rest + "\n" + b);
    ContainsAt(t, ListItemOpen, 0);
    assert t[0] == '<' && !IsBlank(t);
    WrapBlockCases(t);
  }

  /** Pass 1 over a string made of a numbered match, a newline, a second
      newline and a tail without digits. */
  lemma SwallowScan(s: string, d: string, x: string, y: string, n: nat, e: nat)
    requires NumberedShape(s, 0, n, e) && s[0..n] == d + ". " && s[n..e] == x
    requires e + 1 < |s| && s[e + 1] == '\n' && s[e + 2..] == y && NoDigits(y)
    ensures ReplaceAll(NumberedList, s) == ListItem(d + ". ", x) + "\n" + y
  {
    ItemEatsNewline(s, d, x, n, e);
    NewlineCopied(s, e + 1);
    DigitlessTail(s, e + 2);
    NewlineRegroup(ListItem(d + ". ", x), ReplaceFrom(NumberedList, s, e + 2));
  }

  /** Pass 1 on a numbered line, a blank line and text without digits: the
      item takes the first newline, the second and the text are copied. */
  lemma SwallowPass1(d: string, x: string, y: string)
    requires d != [] && AllDigits(d) && x != [] && NoNewline(x) && NoDigits(y)
    ensures ReplaceAll(NumberedList, d + ". " + x + "\n\n" + y) == ListItem(d + ". ", x) + "\n" + y
  {
    var h := d + ". " + x;
    var s := h + "\n\n" + y;
    BreakRegroup(h, y);
    LineFacts(s, h, d, x, "\n" + y);
    SwallowScan(s, d, x, y, |d| + 2, |h|);
  }

  /** A list item, a newline and a quiet line hold no mark. */
  lemma ItemLineQuiet(d: string, x: string, y: string)
    requires AllDigits(d) && NoMarks(x) && NoMarks(y)
    ensures NoMarks(ListItem(d + ". ", x) + "\n" + y)
  {
    var item := ListItem(d + ". ", x);
    NumberQuiet(d);
    ListItemQuiet(d + ". ", x);
    Concat(item, "\n");
    Concat(item + "\n", y);
  }

  /** A numbered line, a blank line and then text without digits or marks:
      the text joins the item's block after a single newline and is not
      wrapped in a paragraph of its own. */
  lemma ItemSwallowsBreak(d: string, x: string, y: string)
    requires d != [] && AllDigits(d) && x != [] && NoTerminator(x) && NoMarks(x)
    requires NoTerminator(y) && NoMarks(y) && NoDigits(y)
    ensures Render(d + ". " + x + "\n\n" + y) == ListItem(d + ". ", x) + "\n" + y
  {
    var item := ListItem(d + ". ", x);
    var t1 := item + "\n" + y;
    NoTerminatorNoNewline(x);
    SwallowPass1(d, x, y);
    ItemLineQuiet(d, x, y);
    MarklessPasses(t1);
    NumberQuiet(d);
    ListItemQuiet(d + ". ", x);
    ListItemHead(d + ". ", x);
    TwoLinesNoNested(t1, item, y);
    TwoLinesOneBlock(t1, item, y, NumberOpen + (d + ". ") + TextOpen + x + ItemClose);
  }

  /** Pass 1 over a numbered match, a newline, a second newline and a second
      numbered line running to the end. */
  lemma TwoItemsScan(s: string, d1: string, x1: string, d2: string, x2: string, n: nat, e: nat)
    requires NumberedShape(s, 0, n, e) && s[0..n] == d1 + ". " && s[n..e] == x1
    requires e + 1 < |s| && s[e + 1] == '\n' && s[e + 2..] == d2 + ". " + x2
    requires d2 != [] && AllDigits(d2) && x2 != [] && NoTerminator(x2)
    ensures ReplaceAll(NumberedList, s) == ListItem(d1 + ". ", x1) + "\n" + ListItem(d2 + ". ", x2)
  {
    ItemEatsNewline(s, d1, x1, n, e);
    NewlineThenItem(s, e + 1, d2, x2);
    NewlineRegroup(ListItem(d1 + ". ", x1), ListItem(d2 + ". ", x2));
  }

  /** Pass 1 from a newline followed by a numbered line running to the end:
      the newline is copied and the line becomes one item. */
  lemma NewlineThenItem(s: string, j: nat, d: string, x: string)
    requires j < |s| && s[j] == '\n' && s[j + 1..] == d + ". " + x
    requires d != [] && AllDigits(d) && x != [] && NoTerminator(x)
    ensures ReplaceFrom(NumberedList, s, j) == "\n" + ListItem(d + ". ", x)
  {
    NewlineCopied(s, j);
    ItemAt(s, j + 1, d, x);
  }

  /** Reading two numbered lines around a blank line as a prefix and a tail. */
  lemma ItemsRegroup(h: string, d2: string, x2: string)
    ensures h + "\n\n" + d2 + ". " + x2 == h + "\n\n" + (d2 + ". " + x2)
  {
  }

  /** Pass 1 on two numbered lines around a blank line: the first item takes
      the first newline, and only the second newline separates the items. */
  lemma TwoItemsPass1(d1: string, x1: string, d2: string, x2: string)
    requires d1 != [] && AllDigits(d1) && x1 != [] && NoNewline(x1)
    requires d2 != [] && AllDigits(d2) && x2 != [] && NoTerminator(x2)
    ensures ReplaceAll(NumberedList, d1 + ". " + x1 + "\n\n" + d2 + ". " + x2)
         == ListItem(d1 + ". ", x1) + "\n" + ListItem(d2 + ". ", x2)
  {
    var h := d1 + ". " + x1;
    var y := d2 + ". " + x2;
    var s := h + "\n\n" + y;
    ItemsRegroup(h, d2, x2);
    BreakRegroup(h, y);
    LineFacts(s, h, d1, x1, "\n" + y);
    TwoItemsScan(s, d1, x1, d2, x2, |d1| + 2, |h|);
  }

  /** Two numbered lines separated by a blank line render as one block: the
      two items joined by a single newline, with no paragraph break between
      them. */
  lemma TwoItemsOneBlock(d1: string, x1: string, d2: string, x2: string)
    requires d1 != [] && AllDigits(d1) && x1 != [] && NoTerminator(x1) && NoMarks(x1)
    requires d2 != [] && AllDigits(d2) && x2 != [] && NoTerminator(x2) && NoMarks(x2)
    ensures Render(d1 + ". " + x1 + "\n\n" + d2 + ". " + x2)
         == ListItem(d1 + ". ", x1) + "\n" + ListItem(d2 + ". ", x2)
  {
    var item1 := ListItem(d1 + ". ", x1);
    var item2 := ListItem(d2 + ". ", x2);
    var t1 := item1 + "\n" + item2;
    NoTerminatorNoNewline(x1);
    TwoItemsPass1(d1, x1, d2, x2);
    NumberQuiet(d1);
    NumberQuiet(d2);
    ListItemQuiet(d1 + ". ", x1);
    ListItemQuiet(d2 + ". ", x2);
    ItemLineQuiet(d1, x1, item2);
    MarklessPasses(t1);
    ListItemHead(d1 + ". ", x1);
    ListItemHead(d2 + ". ", x2);
    TwoLinesNoNested(t1, item1, item2);
    TwoLinesOneBlock(t1, item1, item2, NumberOpen + (d1 + ". ") + TextOpen + x1 + ItemClose);
  }

  /** The worked example of a numbered answer, without its bold and citation
      marks: the blank line between the two items does not survive. */
  lemma TwoIdeasOneBlock(answer: string, d1: string, x1: string, d2: string, x2: string)
    requires d1 == "1" && x1 == "First idea" && d2 == "2" && x2 == "Second idea"
    requires answer == d1 + ". " + x1 + "\n\n" + d2 + ". " + x2
    ensures Render(answer) == ListItem(d1 + ". ", x1) + "\n" + ListItem(d2 + ". ", x2)
  {
    assert AllDigits(d1) && AllDigits(d2);
    assert NoTerminator(x1) && NoMarks(x1) && NoTerminator(x2) && NoMarks(x2);
    TwoItemsOneBlock(d1, x1, d2, x2);
  }
}
