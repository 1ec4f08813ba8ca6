/** Two replies on which the order of the passes decides the markup: the
    numbered-list pass runs before the nested-list pass and claims indented
    items first, unless a line break other than '\n' hides the line start from it. */
module MarkupExamples {
  import opened Domain
  import opened Markup
  import opened MarkupPatterns
  import opened MarkupLaws

  /** Text without any character `^` treats as the end of a line. */
  predicate NoTerminator(s: string)
  {
    forall k :: 0 <= k < |s| ==> !IsLineTerminator(s[k])
  }

  /** A line break other than '\n': `^` and `$` see a line end there, but
      the `[^\n]+` runs of the list patterns do not stop at it. */
  predicate LoneBreak(c: char)
  {
    IsLineTerminator(c) && c != '\n'
  }

  /** Text without the first character of a bold, italic, heading or citation match. */
  predicate NoMarks(s: string)
  {
    forall k :: 0 <= k < |s| ==> s[k] != '*' && s[k] != '#' && s[k] != '['
  }

  lemma Concat(a: string, b: string)
    ensures NoTerminator(a) && NoTerminator(b) ==> NoTerminator(a + b)
    ensures NoMarks(a) && NoMarks(b) ==> NoMarks(a + b)
  {
    forall k | |a| <= k < |a| + |b| ensures (a + b)[k] == b[k - |a|] { }
  }

  /** The markup the list passes emit holds no line terminator and no mark. */
  lemma TagsQuiet()
    ensures NoTerminator(ListItemOpen) && NoMarks(ListItemOpen)
    ensures NoTerminator(NumberOpen) && NoMarks(NumberOpen)
    ensures NoTerminator(TextOpen) && NoMarks(TextOpen)
    ensures NoTerminator(ItemClose) && NoMarks(ItemClose)
  {
    ListItemOpenQuiet();
    NumberOpenQuiet();
    TextOpenQuiet();
    ItemCloseQuiet();
  }

  lemma ListItemOpenQuiet()
    ensures NoTerminator(ListItemOpen) && NoMarks(ListItemOpen)
  {
    Quiet(ListItemOpen);
  }

  lemma NumberOpenQuiet()
    ensures NoTerminator(NumberOpen) && NoMarks(NumberOpen)
  {
    Quiet(NumberOpen);
  }

  lemma TextOpenQuiet()
    ensures NoTerminator(TextOpen) && NoMarks(TextOpen)
  {
    Quiet(TextOpen);
  }

  lemma ItemCloseQuiet()
    ensures NoTerminator(ItemClose) && NoMarks(ItemClose)
  {
    Quiet(ItemClose);
  }

  /** Text made of letters, '<', '>', '/', '"', '=', '-' and spaces holds no
      line terminator and no mark. */
  predicate TagChars(s: string)
  {
    forall k :: 0 <= k < |s| ==> ('a' <= s[k] <= 'z') || s[k] in "<>/\"=- "
  }

  lemma Quiet(s: string)
    requires TagChars(s)
    ensures NoTerminator(s) && NoMarks(s)
  {
    forall k | 0 <= k < |s| ensures !IsLineTerminator(s[k]) && s[k] != '*' && s[k] != '#' && s[k] != '[' {
      assert ('a' <= s[k] <= 'z') || s[k] in "<>/\"=- ";
    }
  }

  lemma ListItemQuiet(number: string, text: string)
    requires NoMarks(number) && NoMarks(text)
    ensures NoMarks(ListItem(number, text))
    ensures NoTerminator(number) && NoTerminator(text) ==> NoTerminator(ListItem(number, text))
  {
    TagsQuiet();
    Concat(ListItemOpen, NumberOpen);
    Concat(ListItemOpen + NumberOpen, number);
    Concat(ListItemOpen + NumberOpen + number, TextOpen);
    Concat(ListItemOpen + NumberOpen + number + TextOpen, text);
    Concat(ListItemOpen + NumberOpen + number + TextOpen + text, ItemClose);
  }

  /** Passes 2 to 5 leave text without marks unchanged. */
  lemma MarklessPasses(t: string)
    requires NoMarks(t)
    ensures ReplaceAll(Citation, ReplaceAll(Heading, ReplaceAll(Italic, ReplaceAll(Bold, t)))) == t
  {
    ReplaceIdentity(Bold, t);
    ReplaceIdentity(Italic, t);
    ReplaceIdentity(Heading, t);
    ReplaceIdentity(Citation, t);
  }

  /** On a single line the nested-list pass can only match at the very start. */
  lemma OneLineNested(t: string)
    requires NoTerminator(t)
    requires t != [] ==> MatchNested(t, 0).None?
    ensures ReplaceAll(NestedList, t) == t
  {
    forall m | 0 <= m < |t| ensures MatchAt(NestedList, t, m).None? {
      if m > 0 {
        assert !IsLineTerminator(t[m - 1]);
      }
    }
    ReplaceCopies(NestedList, t, 0, |t|);
    assert t[0..|t|] == t;
  }

  lemma ContainsAt(s: string, pat: string, k: nat)
    requires k + |pat| <= |s| && pat <= s[k..]
    ensures Contains(s, pat)
  {
  }

  /** A single block holding a top-level list item passes through paragraph
      wrapping unchanged. */
  lemma ListBlock(t: string, pre: string, rest: string)
    requires NoNewline(t) && t == pre + ListItemOpen + rest
    ensures Paragraphs(t) == t
  {
    var k := |pre|;
    assert t[k..] == ListItemOpen + rest;
    ContainsAt(t, ListItemOpen, k);
    assert IsStructural(t);
    assert t[k] == ListItemOpen[0] == '<';
    assert !IsBlank(t);
    WrapBlockCases(t);
    OneLineSplit(t);
  }

  /** Text without a newline is a single paragraph block. */
  lemma OneLineSplit(t: string)
    requires NoNewline(t)
    ensures Split(t) == [t]
  {
    forall k ensures !BreakAt(t, k) {
      if 0 <= k < |t| {
        assert t[k] != '\n';
      }
    }
    SplitNoBreak(t);
  }

  /** Indentation made of spaces. */
  predicate Indent(ind: string)
  {
    forall k :: 0 <= k < |ind| ==> ind[k] == ' '
  }

  predicate AllDigits(d: string)
  {
    forall k :: 0 <= k < |d| ==> IsDigit(d[k])
  }

  /** Pass 1 on an indented numbered line: the indent is copied and the
      item starts at the digits. */
  lemma IndentedPass1(ind: string, d: string, x: string)
    requires Indent(ind) && d != [] && AllDigits(d) && x != [] && NoTerminator(x)
    ensures ReplaceAll(NumberedList, ind + d + ". " + x) == ind + ListItem(d + ". ", x)
  {
    var s := ind + d + ". " + x;
    assert s[..|ind|] == ind;
    assert s[|ind|..] == d + ". " + x;
    IndentCopied(s, ind);
    ItemAt(s, |ind|, d, x);
  }

  /** Pass 1 copies an indent of spaces: no number starts with a space. */
  lemma IndentCopied(s: string, ind: string)
    requires |ind| <= |s| && s[..|ind|] == ind && Indent(ind)
    ensures ReplaceAll(NumberedList, s) == ind + ReplaceFrom(NumberedList, s, |ind|)
  {
    forall m | 0 <= m < |ind| ensures MatchAt(NumberedList, s, m).None? {
      assert s[m] == ind[m];
    }
    ReplaceCopies(NumberedList, s, 0, |ind|);
    assert s[0..|ind|] == ind;
  }

  /** A numbered line running to the end is one top-level item for pass 1. */
  lemma ItemAt(s: string, i: nat, d: string, x: string)
    requires i <= |s| && s[i..] == d + ". " + x
    requires d != [] && AllDigits(d) && x != [] && NoTerminator(x)
    ensures ReplaceFrom(NumberedList, s, i) == ListItem(d + ". ", x)
  {
    var u := s[i..];
    var n := i + |d| + 2;
    forall m | i <= m < n - 2 ensures s[m] == d[m - i] { assert s[m] == u[m - i]; }
    assert s[n - 2] == u[|d|] == '.' && s[n - 1] == u[|d| + 1] == ' ';
    forall m | n <= m < |s| ensures s[m] == x[m - n] { assert s[m] == u[m - i]; }
    NumberedMatchComplete(s, i, n, |s|);
    assert s[i..n] == u[..|d| + 2] == d + ". " && s[n..|s|] == u[|d| + 2..] == x;
  }

  /** The indented line after pass 1 holds no line terminator and no mark. */
  lemma IndentedQuiet(ind: string, d: string, x: string)
    requires Indent(ind) && AllDigits(d) && NoTerminator(x) && NoMarks(x)
    ensures NoTerminator(ind + ListItem(d + ". ", x)) && NoMarks(ind + ListItem(d + ". ", x))
  {
    NumberQuiet(d);
    assert NoTerminator(ind) && NoMarks(ind);
    ListItemQuiet(d + ". ", x);
    Concat(ind, ListItem(d + ". ", x));
  }

  /** Pass 6 finds no nested item where the indent is followed by markup. */
  lemma IndentBeforeTag(ind: string, item: string)
    requires Indent(ind) && item != [] && item[0] == '<'
    ensures MatchNested(ind + item, 0).None?
  {
    var t := ind + item;
    forall k | 0 <= k < |ind| ensures t[k] == ' ' { assert t[k] == ind[k]; }
    assert t[|ind|] == '<';
    RunEndIs(t, 0, |ind|, Spaces);
    RunEndIs(t, |ind|, |ind|, Digits);
  }

  /** A top-level item starts with its opening tag. */
  lemma ListItemHead(number: string, x: string)
    ensures ListItem(number, x) == ListItemOpen + (NumberOpen + number + TextOpen + x + ItemClose)
    ensures ListItem(number, x)[0] == '<'
  {
  }

  /** An indented numbered line on its own becomes a top-level item, not a
      nested one, however deep the indent: pass 1 matches at its digits, and
      pass 6 then finds markup, not a number, after the indent. */
  lemma IndentedItemIsTopLevel(ind: string, d: string, x: string)
    requires Indent(ind) && d != [] && AllDigits(d) && x != [] && NoTerminator(x) && NoMarks(x)
    ensures Render(ind + d + ". " + x) == ind + ListItem(d + ". ", x)
  {
    var number := d + ". ";
    var item := ListItem(number, x);
    var t := ind + item;
    IndentedPass1(ind, d, x);
    IndentedQuiet(ind, d, x);
    MarklessPasses(t);
    ListItemHead(number, x);
    IndentBeforeTag(ind, item);
    OneLineNested(t);
    NoTerminatorNoNewline(t);
    var rest := NumberOpen + number + TextOpen + x + ItemClose;
    assert t == ind + ListItemOpen + rest;
    ListBlock(t, ind, rest);
  }

  /** Pass 1 on two lines separated by a lone line break: its `[^\n]+` runs
      over the break, so the whole text becomes one item. */
  lemma ReturnPass1(d1: string, x: string, rest: string)
    requires d1 != [] && AllDigits(d1) && x != [] && NoNewline(x) && NoNewline(rest)
    ensures ReplaceAll(NumberedList, d1 + ". " + x + rest) == ListItem(d1 + ". ", x + rest)
  {
    var s := d1 + ". " + x + rest;
    var n := |d1| + 2;
    forall m | 0 <= m < |d1| ensures s[m] == d1[m] { }
    forall m | n <= m < |s| ensures s[m] == (x + rest)[m - n] { }
    assert s[n - 2] == '.' && s[n - 1] == ' ';
    forall m | n <= m < |s| ensures s[m] != '\n' {
      var j := m - n;
      if j < |x| { assert (x + rest)[j] == x[j]; } else { assert (x + rest)[j] == rest[j - |x|]; }
    }
    NumberedMatchComplete(s, 0, n, |s|);
    assert s[0..n] == d1 + ". " && s[n..|s|] == x + rest;
    assert ReplaceFrom(NumberedList, s, 0) == ListItem(d1 + ". ", x + rest) + ReplaceFrom(NumberedList, s, |s|);
  }

  /** Pass 6 copies a first line that starts with markup. */
  lemma FirstLineCopied(t: string, pre: string)
    requires pre != [] && pre[0] == '<' && NoTerminator(pre) && |pre| < |t| && t[..|pre|] == pre
    ensures ReplaceAll(NestedList, t) == t[..|pre| + 1] + ReplaceFrom(NestedList, t, |pre| + 1)
  {
    forall m | 0 <= m < |pre| + 1 ensures MatchAt(NestedList, t, m).None? {
      if m == 0 {
        assert t[0] == pre[0];
      } else {
        assert t[m - 1] == pre[m - 1];
      }
    }
    ReplaceCopies(NestedList, t, 0, |pre| + 1);
  }

  /** Pass 6 on that item: after the break a line starts, and its indented
      number is a nested item that runs to the end of the text, closing tags
      included. */
  lemma ReturnPass6(t: string, pre: string, r: char, ind: string, d2: string, y: string)
    requires pre != [] && pre[0] == '<' && NoTerminator(pre) && LoneBreak(r)
    requires Indent(ind) && |ind| >= 2 && d2 != [] && AllDigits(d2) && y != [] && NoNewline(y)
    requires t == pre + ([r] + ind + d2 + ". " + y)
    ensures NestLevel(|ind|) <= 3
    ensures ReplaceAll(NestedList, t) == pre + [r] + NestedItem(NestLevel(|ind|), d2 + ". ", y)
  {
    var i := |pre| + 1;
    CutAfterReturn(t, pre, r, ind + d2 + ". " + y);
    FirstLineCopied(t, pre);
    NestedLine(t, i, ind, d2, y);
  }

  /** Reading the first line, the break and the rest back out of the text. */
  lemma CutAfterReturn(t: string, pre: string, r: char, rest: string)
    requires t == pre + ([r] + rest)
    ensures |pre| < |t| && t[..|pre|] == pre && t[..|pre| + 1] == pre + [r]
    ensures t[|pre|] == r && t[|pre| + 1..] == rest
  {
    assert t == (pre + [r]) + rest;
  }

  /** An indented number at a line start is a nested item running to the end. */
  lemma NestedLine(t: string, i: nat, ind: string, d2: string, y: string)
    requires 0 < i <= |t| && IsLineTerminator(t[i - 1]) && t[i..] == ind + d2 + ". " + y
    requires Indent(ind) && |ind| >= 2 && d2 != [] && AllDigits(d2) && y != [] && NoNewline(y)
    ensures NestLevel(|ind|) <= 3
    ensures ReplaceFrom(NestedList, t, i) == NestedItem(NestLevel(|ind|), d2 + ". ", y)
  {
    NestedHit(t, i, ind, d2, y);
    ReplaceLast(NestedList, t, i, NestedItem(NestLevel(|ind|), d2 + ". ", y));
  }

  /** The nested pattern matches at `i` and runs to the end of the text. */
  lemma NestedHit(t: string, i: nat, ind: string, d2: string, y: string)
    requires 0 < i <= |t| && IsLineTerminator(t[i - 1]) && t[i..] == ind + d2 + ". " + y
    requires Indent(ind) && |ind| >= 2 && d2 != [] && AllDigits(d2) && y != [] && NoNewline(y)
    ensures i < |t| && NestLevel(|ind|) <= 3
    ensures MatchAt(NestedList, t, i) == Some(Hit(|t|, NestedItem(NestLevel(|ind|), d2 + ". ", y)))
  {
    var w := i + |ind|;
    var n := w + |d2| + 2;
    NestedLineShape(t, i, ind, d2, y);
    NestedMatchComplete(t, i, w, n, |t|);
    NestedLineSlices(t, i, ind, d2, y);
    assert w - i == |ind| && t[w..n] == d2 + ". " && t[n..|t|] == y;
  }

  /** The line from `i` has the nested pattern's shape and runs to the end. */
  lemma NestedLineShape(t: string, i: nat, ind: string, d2: string, y: string)
    requires 0 < i <= |t| && IsLineTerminator(t[i - 1]) && t[i..] == ind + d2 + ". " + y
    requires Indent(ind) && |ind| >= 2 && d2 != [] && AllDigits(d2) && y != [] && NoNewline(y)
    ensures NestedShape(t, i, i + |ind|, i + |ind| + |d2| + 2, |t|)
  {
    var u := t[i..];
    var w := i + |ind|;
    var n := w + |d2| + 2;
    forall m | i <= m < w ensures t[m] == ind[m - i] { assert t[m] == u[m - i]; }
    forall m | w <= m < n - 2 ensures t[m] == d2[m - w] { assert t[m] == u[m - i]; }
    assert t[n - 2] == u[n - 2 - i] == '.' && t[n - 1] == u[n - 1 - i] == ' ';
    forall m | n <= m < |t| ensures t[m] == y[m - n] { assert t[m] == u[m - i]; }
  }

  /** The number and the text of the line, read back out of the text. */
  lemma NestedLineSlices(t: string, i: nat, ind: string, d2: string, y: string)
    requires i <= |t| && t[i..] == ind + d2 + ". " + y
    ensures i + |ind| + |d2| + 2 <= |t|
    ensures t[i + |ind|..i + |ind| + |d2| + 2] == d2 + ". " && t[i + |ind| + |d2| + 2..] == y
  {
    var u := t[i..];
    assert t[i + |ind|..i + |ind| + |d2| + 2] == u[|ind|..|ind| + |d2| + 2] == d2 + ". ";
    assert t[i + |ind| + |d2| + 2..] == u[|ind| + |d2| + 2..] == y;
  }

  /** A match that runs to the end of the text is all the scan emits from there. */
  lemma ReplaceLast(p: Pass, s: string, i: nat, out: string)
    requires i < |s| && MatchAt(p, s, i) == Some(Hit(|s|, out))
    ensures ReplaceFrom(p, s, i) == out
  {
    assert ReplaceFrom(p, s, |s|) == [];
    assert out + [] == out;
  }

  /** A number `d. ` holds no line terminator and no mark. */
  lemma NumberQuiet(d: string)
    requires AllDigits(d)
    ensures NoTerminator(d + ". ") && NoMarks(d + ". ")
  {
    var n := d + ". ";
    forall k | 0 <= k < |n| ensures n[k] == (if k < |d| then d[k] else ". "[k - |d|]) { }
  }

  /** The second line, from the break on, holds no newline and no mark. */
  lemma TailQuiet(r: char, ind: string, d2: string, y: string)
    requires LoneBreak(r) && Indent(ind) && AllDigits(d2) && NoTerminator(y) && NoMarks(y)
    ensures var tail := [r] + ind + d2 + ". " + y; NoNewline(tail) && NoMarks(tail)
  {
    var tail := [r] + ind + d2 + ". " + y;
    forall k | 0 <= k < |tail| ensures tail[k] != '\n' && tail[k] != '*' && tail[k] != '#' && tail[k] != '[' {
      var a := |ind| + 1;
      var b := a + |d2|;
      if k == 0 {
      } else if k < a {
        assert tail[k] == ind[k - 1];
      } else if k < b {
        assert tail[k] == d2[k - a];
      } else if k < b + 2 {
        assert tail[k] == ". "[k - b];
      } else {
        assert tail[k] == y[k - b - 2];
      }
    }
  }

  /** The first item up to its text holds no line terminator. */
  lemma ItemHeadNoTerminator(number: string, x: string)
    requires NoTerminator(number) && NoTerminator(x)
    ensures NoTerminator(ListItemOpen + NumberOpen + number + TextOpen + x)
  {
    TagsQuiet();
    Concat(ListItemOpen, NumberOpen);
    Concat(ListItemOpen + NumberOpen, number);
    Concat(ListItemOpen + NumberOpen + number, TextOpen);
    Concat(ListItemOpen + NumberOpen + number + TextOpen, x);
  }

  lemma NoTerminatorNoNewline(s: string)
    requires NoTerminator(s)
    ensures NoNewline(s)
  {
    assert forall k :: 0 <= k < |s| ==> !IsLineTerminator(s[k]);
  }

  lemma ItemAround(number: string, x: string, tail: string)
    ensures ListItem(number, x + tail) == (ListItemOpen + NumberOpen + number + TextOpen + x) + (tail + ItemClose)
  {
  }

  lemma TailAround(r: char, ind: string, d2: string, y: string)
    ensures ([r] + ind + d2 + ". " + y) + ItemClose == [r] + ind + d2 + ". " + (y + ItemClose)
  {
  }

  /** The six passes on the two lines: one item from pass 1, whose text then
      receives the nested item from pass 6. */
  lemma ReturnPasses(d1: string, x: string, r: char, ind: string, d2: string, y: string)
    requires d1 != [] && AllDigits(d1) && x != [] && NoTerminator(x) && NoMarks(x) && LoneBreak(r)
    requires Indent(ind) && |ind| >= 2 && d2 != [] && AllDigits(d2) && y != [] && NoTerminator(y) && NoMarks(y)
    ensures NestLevel(|ind|) <= 3
    ensures Passes(d1 + ". " + x + [r] + ind + d2 + ". " + y)
      == ListItemOpen + NumberOpen + (d1 + ". ") + TextOpen + x + [r]
         + NestedItem(NestLevel(|ind|), d2 + ". ", y + ItemClose)
  {
    var n1 := d1 + ". ";
    var tail := [r] + ind + d2 + ". " + y;
    TailQuiet(r, ind, d2, y);
    NoTerminatorNoNewline(x);
    assert d1 + ". " + x + [r] + ind + d2 + ". " + y == d1 + ". " + x + tail;
    ReturnPass1(d1, x, tail);
    var t1 := ListItem(n1, x + tail);
    NumberQuiet(d1);
    Concat(x, tail);
    ListItemQuiet(n1, x + tail);
    MarklessPasses(t1);
    var pre := ListItemOpen + NumberOpen + n1 + TextOpen + x;
    ItemHeadNoTerminator(n1, x);
    assert pre[0] == '<';
    var y2 := y + ItemClose;
    TagsQuiet();
    Concat(y, ItemClose);
    NoTerminatorNoNewline(y2);
    ItemAround(n1, x, tail);
    TailAround(r, ind, d2, y);
    ReturnPass6(t1, pre, r, ind, d2, y2);
  }

  /** A numbered line followed, after a lone line break ('\r', U+2028 or
      U+2029), by an indented numbered line: here pass 6 does fire, and the
      nested item lands inside the text of the first item. */
  lemma ReturnNestsItem(d1: string, x: string, r: char, ind: string, d2: string, y: string)
    requires d1 != [] && AllDigits(d1) && x != [] && NoTerminator(x) && NoMarks(x) && LoneBreak(r)
    requires Indent(ind) && |ind| >= 2 && d2 != [] && AllDigits(d2) && y != [] && NoTerminator(y) && NoMarks(y)
    ensures NestLevel(|ind|) <= 3
    ensures Render(d1 + ". " + x + [r] + ind + d2 + ". " + y)
      == ListItem(d1 + ". ", x + [r] + NestedItem(NestLevel(|ind|), d2 + ". ", y))
  {
    ReturnPasses(d1, x, r, ind, d2, y);
    var n1, n2 := d1 + ". ", d2 + ". ";
    var level := NestLevel(|ind|);
    var pre := ListItemOpen + NumberOpen + n1 + TextOpen + x;
    var item := NestedItem(level, n2, y + ItemClose);
    var t6 := pre + [r] + item;
    ReturnOutputNoNewline(d1, x, r, level, d2, y);
    var rest := NumberOpen + n1 + TextOpen + x + [r] + item;
    HeadAround(n1, x, r, item);
    ListBlock(t6, [], rest);
    ItemCloseAround(level, n2, y);
    OuterAround(n1, x, r, NestedItem(level, n2, y));
  }

  /** The rendered two lines hold no newline, so they stay one block. */
  lemma ReturnOutputNoNewline(d1: string, x: string, r: char, level: nat, d2: string, y: string)
    requires AllDigits(d1) && NoTerminator(x) && LoneBreak(r) && AllDigits(d2) && NoTerminator(y) && level <= 9
    ensures NoNewline(ListItemOpen + NumberOpen + (d1 + ". ") + TextOpen + x + [r]
      + NestedItem(level, d2 + ". ", y + ItemClose))
  {
    var n1, n2 := d1 + ". ", d2 + ". ";
    var pre := ListItemOpen + NumberOpen + n1 + TextOpen + x;
    var y2 := y + ItemClose;
    NumberQuiet(d1);
    ItemHeadNoTerminator(n1, x);
    NoTerminatorNoNewline(pre);
    NumberQuiet(d2);
    NoTerminatorNoNewline(n2);
    TagsQuiet();
    Concat(y, ItemClose);
    NoTerminatorNoNewline(y2);
    NestedItemNoNewline(level, n2, y2);
    NoNewlineConcat(pre, [r]);
    NoNewlineConcat(pre + [r], NestedItem(level, n2, y2));
  }

  lemma HeadAround(n1: string, x: string, r: char, item: string)
    ensures ListItemOpen + NumberOpen + n1 + TextOpen + x + [r] + item
      == [] + ListItemOpen + (NumberOpen + n1 + TextOpen + x + [r] + item)
  {
    Regroup(ListItemOpen, NumberOpen, n1, TextOpen, x, [r], item);
  }

  /** Moving the first piece of a concatenation out in front. */
  lemma Regroup(a: string, b: string, c: string, d: string, e: string, f: string, g: string)
    ensures a + b + c + d + e + f + g == [] + a + (b + c + d + e + f + g)
  {
  }

  lemma ItemCloseAround(level: nat, number: string, y: string)
    requires level <= 9
    ensures NestedItem(level, number, y + ItemClose) == NestedItem(level, number, y) + ItemClose
  {
  }

  lemma OuterAround(n1: string, x: string, r: char, z: string)
    ensures ListItem(n1, x + [r] + z) == ListItemOpen + NumberOpen + n1 + TextOpen + x + [r] + (z + ItemClose)
  {
  }

  lemma NestedItemNoNewline(level: nat, number: string, text: string)
    requires level <= 9 && NoNewline(number) && NoNewline(text)
    ensures NoNewline(NestedItem(level, number, text))
  {
    var parts := [NestedOpen(level), NumberOpen, number, TextOpen, text, ItemClose];
    assert NoNewline(NestedOpen(level)) by {
      var o := NestedOpen(level);
      forall k | 0 <= k < |o| ensures o[k] != '\n' {
        var a := |"<div class=\"list-item nested-list level-"|;
        if k < a { } else if k == a { } else { }
      }
    }
    NoNewlineConcat(NestedOpen(level), NumberOpen);
    NoNewlineConcat(NestedOpen(level) + NumberOpen, number);
    NoNewlineConcat(NestedOpen(level) + NumberOpen + number, TextOpen);
    NoNewlineConcat(NestedOpen(level) + NumberOpen + number + TextOpen, text);
    NoNewlineConcat(NestedOpen(level) + NumberOpen + number + TextOpen + text, ItemClose);
  }

  lemma NoNewlineConcat(a: string, b: string)
    requires NoNewline(a) && NoNewline(b)
    ensures NoNewline(a + b)
  {
    forall k | |a| <= k < |a| + |b| ensures (a + b)[k] == b[k - |a|] { }
  }
}
