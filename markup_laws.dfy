/** Laws of the renderer as a whole: how a global replacement copies text its
    pattern cannot match, how paragraph splitting decomposes the text, what
    each block contributes, and what a plain paragraph renders to. */
module MarkupLaws {
  import opened Domain
  import opened Markup

  /** A character without which pass `p` cannot match: the first character of
      every match, or for the nested-list pass a digit of its number. */
  predicate Trigger(p: Pass, c: char)
  {
    match p
    case NumberedList => IsDigit(c)
    case Bold => c == '*'
    case Italic => c == '*'
    case Heading => c == '#'
    case Citation => c == '['
    case NestedList => IsDigit(c)
  }

  /** No match of `p` starts where no trigger character follows. */
  lemma NoTriggerNoMatch(p: Pass, s: string, m: nat)
    requires m < |s|
    requires forall k :: m <= k < |s| ==> !Trigger(p, s[k])
    ensures MatchAt(p, s, m).None?
  {
    match p
    case NestedList =>
      if LineStart(s, m) {
        var w := RunEnd(s, m, Spaces);
        assert w < |s| ==> !Trigger(p, s[w]);
      }
    case _ =>
      assert !Trigger(p, s[m]);
  }

  /** Where pass `p` matches nowhere in `s[i..j]`, the scan copies those characters. */
  lemma {:induction false} ReplaceCopies(p: Pass, s: string, i: nat, j: nat)
    requires i <= j <= |s|
    requires forall m :: i <= m < j ==> MatchAt(p, s, m).None?
    ensures ReplaceFrom(p, s, i) == s[i..j] + ReplaceFrom(p, s, j)
    decreases j - i
  {
    if i < j {
      var rest := ReplaceFrom(p, s, j);
      ReplaceCopies(p, s, i + 1, j);
      CopyStep(p, s, i, j, rest);
    }
  }

  /** One step of the copy: a character where nothing matches, in front of a copied stretch. */
  lemma CopyStep(p: Pass, s: string, i: nat, j: nat, rest: string)
    requires i < j <= |s| && MatchAt(p, s, i).None?
    requires ReplaceFrom(p, s, i + 1) == s[i + 1..j] + rest
    ensures ReplaceFrom(p, s, i) == s[i..j] + rest
  {
    ReplaceSkip(p, s, i);
    SliceCons(s, i, j, rest);
  }

  /** A slice is its first character followed by the rest of the slice. */
  lemma SliceCons(s: string, i: nat, j: nat, tail: string)
    requires i < j <= |s|
    ensures [s[i]] + (s[i + 1..j] + tail) == s[i..j] + tail
  {
    assert s[i..j] == [s[i]] + s[i + 1..j];
  }

  /** Where nothing matches, the scan copies one character and moves on. */
  lemma ReplaceSkip(p: Pass, s: string, i: nat)
    requires i < |s| && MatchAt(p, s, i).None?
    ensures ReplaceFrom(p, s, i) == [s[i]] + ReplaceFrom(p, s, i + 1)
  {
  }

  /** A pass leaves text without its trigger characters unchanged. */
  lemma ReplaceIdentity(p: Pass, s: string)
    requires forall k :: 0 <= k < |s| ==> !Trigger(p, s[k])
    ensures ReplaceAll(p, s) == s
  {
    forall m | 0 <= m < |s| ensures MatchAt(p, s, m).None? {
      NoTriggerNoMatch(p, s, m);
    }
    ReplaceCopies(p, s, 0, |s|);
  }

  // ---- Paragraph splitting -------------------------------------------------

  /** A paragraph break "\n\n" starts at index `k` of `s`. */
  predicate BreakAt(s: string, k: int)
  {
    0 <= k && k + 1 < |s| && s[k] == '\n' && s[k + 1] == '\n'
  }

  ghost predicate HasBreak(s: string)
  {
    exists k :: BreakAt(s, k)
  }

  /** A break in a slice is a break of the whole string inside that slice. */
  lemma BreakInSlice(s: string, a: nat, b: nat, k: int)
    requires a <= b <= |s|
    ensures BreakAt(s[a..b], k) <==> (0 <= k && a + k + 1 < b && BreakAt(s, a + k))
  {
    if 0 <= k && k + 1 < b - a {
      assert s[a..b][k] == s[a + k] && s[a..b][k + 1] == s[a + k + 1];
    }
  }

  /** The decomposition `split('\n\n')` produces: no block holds a break, and
      no block but the last ends with a newline (the break found is always
      the leftmost one). */
  ghost predicate SplitShape(blocks: seq<string>)
  {
    |blocks| >= 1
    && (forall k :: 0 <= k < |blocks| ==> !HasBreak(blocks[k]))
    && (forall k :: 0 <= k < |blocks| - 1 ==> blocks[k] == [] || blocks[k][|blocks[k]| - 1] != '\n')
  }

  /** No break in `s[a..b]` when `FindBreak` passed over it. */
  lemma NoBreakBefore(s: string, a: nat, b: nat)
    requires a <= b <= |s|
    requires forall k :: a <= k < b - 1 ==> !BreakAt(s, k)
    ensures !HasBreak(s[a..b])
  {
    forall k ensures !BreakAt(s[a..b], k) {
      BreakInSlice(s, a, b, k);
    }
  }

  /** A block of the required shape in front of a decomposition of that shape. */
  lemma SplitShapeCons(b0: string, rest: seq<string>)
    requires SplitShape(rest) && !HasBreak(b0)
    requires b0 == [] || b0[|b0| - 1] != '\n'
    ensures SplitShape([b0] + rest)
    ensures Join([b0] + rest, "\n\n") == b0 + "\n\n" + Join(rest, "\n\n")
  {
    var blocks := [b0] + rest;
    assert blocks[1..] == rest;
    forall k | 1 <= k < |blocks| ensures blocks[k] == rest[k - 1] { }
  }

  lemma {:induction false} SplitFromShape(s: string, i: nat)
    requires i <= |s|
    ensures SplitShape(SplitFrom(s, i))
    ensures Join(SplitFrom(s, i), "\n\n") == s[i..]
    decreases |s| - i
  {
    match FindBreak(s, i)
    case None =>
      NoBreakBefore(s, i, |s|);
    case Some(b) =>
      var rest := SplitFrom(s, b + 2);
      SplitFromShape(s, b + 2);
      NoBreakBefore(s, i, b);
      BlockBeforeBreak(s, i, b);
      SplitShapeCons(s[i..b], rest);
      SliceAtBreak(s, i, b);
      assert SplitFrom(s, i) == [s[i..b]] + rest;
  }

  /** The block in front of the first break does not end with a newline. */
  lemma BlockBeforeBreak(s: string, i: nat, b: nat)
    requires i <= |s| && FindBreak(s, i) == Some(b)
    ensures i <= b && (s[i..b] == [] || s[i..b][|s[i..b]| - 1] != '\n')
  {
    if i < b {
      assert !BreakAt(s, b - 1);
      assert s[i..b][|s[i..b]| - 1] == s[b - 1];
    }
  }

  /** Around a break, the tail from `i` is the block, the break and the rest. */
  lemma SliceAtBreak(s: string, i: nat, b: nat)
    requires i <= b && BreakAt(s, b)
    ensures s[i..] == s[i..b] + "\n\n" + s[b + 2..]
  {
    assert s[i..] == s[i..b] + s[b..b + 2] + s[b + 2..];
    assert s[b..b + 2] == "\n\n";
  }

  /** `Split` returns a decomposition of the required shape that joins back to the input. */
  lemma SplitJoin(s: string)
    ensures SplitShape(Split(s))
    ensures Join(Split(s), "\n\n") == s
  {
    SplitFromShape(s, 0);
  }

  lemma {:induction false} FindBreakNone(s: string, i: nat)
    requires i <= |s|
    requires forall k :: i <= k ==> !BreakAt(s, k)
    ensures FindBreak(s, i).None?
    decreases |s| - i
  {
    if i + 2 <= |s| {
      assert !BreakAt(s, i);
      FindBreakNone(s, i + 1);
    }
  }

  /** A string without a break is a single block. */
  lemma SplitNoBreak(s: string)
    requires !HasBreak(s)
    ensures Split(s) == [s]
  {
    FindBreakNone(s, 0);
  }

  /** Any decomposition of the required shape is the one `Split` finds. */
  lemma SplitUnique(s: string, blocks: seq<string>)
    requires SplitShape(blocks) && Join(blocks, "\n\n") == s
    ensures Split(s) == blocks
  {
    SplitFromUnique(s, 0, blocks);
  }

  /** The tail of a decomposition of the required shape has that shape too. */
  lemma SplitShapeTail(blocks: seq<string>)
    requires SplitShape(blocks) && |blocks| > 1
    ensures SplitShape(blocks[1..])
  {
    var rest := blocks[1..];
    forall k | 0 <= k < |rest| ensures !HasBreak(rest[k]) { assert rest[k] == blocks[k + 1]; }
    forall k | 0 <= k < |rest| - 1 ensures rest[k] == [] || rest[k][|rest[k]| - 1] != '\n' {
      assert rest[k] == blocks[k + 1];
    }
  }

  lemma {:induction false} SplitFromUnique(s: string, i: nat, blocks: seq<string>)
    requires i <= |s|
    requires SplitShape(blocks) && Join(blocks, "\n\n") == s[i..]
    ensures SplitFrom(s, i) == blocks
    decreases |s| - i
  {
    var b0 := blocks[0];
    if |blocks| == 1 {
      assert s[i..] == b0 && blocks == [b0];
      NoBreakInTail(s, i);
    } else {
      var rest := blocks[1..];
      var j := i + |b0|;
      SplitShapeTail(blocks);
      assert s[i..] == b0 + "\n\n" + Join(rest, "\n\n");
      SliceAroundBreak(s, i, b0, Join(rest, "\n\n"));
      FirstBreakAfterBlock(s, i, j);
      SplitFromUnique(s, j + 2, rest);
      assert SplitFrom(s, i) == [s[i..j]] + SplitFrom(s, j + 2);
      assert blocks == [b0] + rest;
    }
  }

  /** Reading a block, a break and the rest back out of `s[i..]`. */
  lemma SliceAroundBreak(s: string, i: nat, b0: string, rest: string)
    requires i <= |s| && s[i..] == b0 + "\n\n" + rest
    ensures i + |b0| + 2 <= |s| && s[i..i + |b0|] == b0
    ensures BreakAt(s, i + |b0|) && s[i + |b0| + 2..] == rest
  {
    var j := i + |b0|;
    assert s[i..][..|b0|] == b0;
    assert s[i..][|b0|] == '\n' && s[i..][|b0| + 1] == '\n';
    assert s[i..][|b0| + 2..] == rest;
  }

  lemma NoBreakInTail(s: string, i: nat)
    requires i <= |s| && !HasBreak(s[i..])
    ensures FindBreak(s, i).None?
  {
    assert s[i..] == s[i..|s|];
    forall k | i <= k ensures !BreakAt(s, k) {
      BreakInSlice(s, i, |s|, k - i);
      assert !BreakAt(s[i..], k - i);
    }
    FindBreakNone(s, i);
  }

  /** A break right after a break-free block not ending in a newline is the first one. */
  lemma FirstBreakAfterBlock(s: string, i: nat, j: nat)
    requires i <= j && BreakAt(s, j) && !HasBreak(s[i..j])
    requires i == j || s[j - 1] != '\n'
    ensures FindBreak(s, i) == Some(j)
  {
    forall k | i <= k < j ensures !BreakAt(s, k) {
      BreakInSlice(s, i, j, k - i);
    }
    FindBreakAt(s, i, j);
  }

  /** When the first break at or after `i` is at `j`, `FindBreak` finds it. */
  lemma {:induction false} FindBreakAt(s: string, i: nat, j: nat)
    requires i <= j && BreakAt(s, j)
    requires forall k :: i <= k < j ==> !BreakAt(s, k)
    ensures FindBreak(s, i) == Some(j)
    decreases j - i
  {
    if i < j {
      assert !BreakAt(s, i);
      FindBreakAt(s, i + 1, j);
    }
  }

  // ---- Paragraph wrapping --------------------------------------------------

  /** What one block contributes: nothing when it is only whitespace, itself
      when it already holds structure, otherwise itself wrapped once in `<p>`. */
  lemma WrapBlockCases(block: string)
    ensures IsBlank(block) ==> WrapBlock(block) == []
    ensures !IsBlank(block) && IsStructural(block) ==> WrapBlock(block) == block
    ensures !IsBlank(block) && !IsStructural(block) ==> WrapBlock(block) == "<p>" + block + "</p>"
  {
    TrimEmptyIffBlank(block);
  }

  /** Joining blocks that all contribute nothing gives nothing. */
  lemma {:induction false} JoinNothing(blocks: seq<string>)
    requires forall k :: 0 <= k < |blocks| ==> blocks[k] == []
    ensures Join(blocks, "") == []
  {
    if |blocks| > 1 {
      JoinNothing(blocks[1..]);
    }
  }

  /** A slice of a whitespace-only tail is whitespace-only. */
  lemma BlankSlice(s: string, i: nat, a: nat, b: nat)
    requires i <= a <= b <= |s| && IsBlank(s[i..])
    ensures IsBlank(s[a..b])
  {
    var t := s[a..b];
    forall m | 0 <= m < |t| ensures IsSpace(t[m]) {
      assert t[m] == s[i..][a - i + m];
    }
  }

  /** Every block of a whitespace-only text is whitespace-only. */
  lemma {:induction false} SplitFromBlank(s: string, i: nat)
    requires i <= |s| && IsBlank(s[i..])
    ensures forall k :: 0 <= k < |SplitFrom(s, i)| ==> IsBlank(SplitFrom(s, i)[k])
    decreases |s| - i
  {
    match FindBreak(s, i)
    case None =>
    case Some(b) =>
      BlankSlice(s, i, b + 2, |s|);
      assert s[b + 2..] == s[b + 2..|s|];
      SplitFromBlank(s, b + 2);
      BlankSlice(s, i, i, b);
      var rest := SplitFrom(s, b + 2);
      assert SplitFrom(s, i) == [s[i..b]] + rest;
      forall k | 1 <= k < |SplitFrom(s, i)| ensures IsBlank(SplitFrom(s, i)[k]) {
        assert SplitFrom(s, i)[k] == rest[k - 1];
      }
  }

  // ---- Whole renders -------------------------------------------------------

  /** Text holding no character any of the six passes starts from: no digit,
      no '*', no '#' and no '['. */
  predicate Inert(s: string)
  {
    forall k :: 0 <= k < |s| ==> !IsDigit(s[k]) && s[k] != '*' && s[k] != '#' && s[k] != '['
  }

  /** The six passes leave inert text unchanged. */
  lemma InertPasses(s: string)
    requires Inert(s)
    ensures Passes(s) == s
  {
    ReplaceIdentity(NumberedList, s);
    ReplaceIdentity(Bold, s);
    ReplaceIdentity(Italic, s);
    ReplaceIdentity(Heading, s);
    ReplaceIdentity(Citation, s);
    ReplaceIdentity(NestedList, s);
  }

  /** Whitespace-only content renders to nothing, however many breaks it holds. */
  lemma BlankRendersEmpty(s: string)
    requires IsBlank(s)
    ensures Render(s) == []
  {
    if s != [] {
      InertPasses(s);
      assert s[0..] == s;
      SplitFromBlank(s, 0);
      var blocks := Split(s);
      forall k | 0 <= k < |blocks| ensures WrapAll(blocks)[k] == [] {
        WrapBlockCases(blocks[k]);
      }
      JoinNothing(WrapAll(blocks));
    }
  }

  /** Text whose every '<' opens or closes a paragraph (is followed by 'p' or '/'). */
  predicate OnlyParagraphTags(s: string)
  {
    forall k :: 0 <= k < |s| && s[k] == '<' ==> k + 1 < |s| && (s[k + 1] == 'p' || s[k + 1] == '/')
  }

  predicate NoNewline(s: string)
  {
    forall k :: 0 <= k < |s| ==> s[k] != '\n'
  }

  /** None of the structure markers occurs in such text. */
  lemma NotContained(s: string, pat: string)
    requires |pat| >= 2 && pat[0] == '<' && pat[1] != 'p' && pat[1] != '/'
    requires OnlyParagraphTags(s)
    ensures !Contains(s, pat)
  {
    forall k | 0 <= k <= |s| - |pat| ensures !(pat <= s[k..]) {
      assert s[k] == '<' ==> s[k + 1] != pat[1];
      assert s[k..][0] == s[k] && s[k..][1] == s[k + 1];
    }
  }

  /** A single block of text none of the passes reacts to, whose only tags are
      paragraph tags and which is not only whitespace, renders as exactly one
      paragraph. */
  lemma PlainParagraph(x: string)
    requires Inert(x) && !IsBlank(x) && NoNewline(x) && OnlyParagraphTags(x)
    ensures Render(x) == "<p>" + x + "</p>"
  {
    InertPasses(x);
    assert !HasBreak(x);
    SplitNoBreak(x);
    NotContained(x, ListItemOpen);
    NotContained(x, "<h");
    NotContained(x, "<ul");
    NotContained(x, "<ol");
    WrapBlockCases(x);
  }

  /** Wrapping such text in a paragraph keeps it such text. */
  lemma WrappedStaysPlain(x: string)
    requires Inert(x) && NoNewline(x) && OnlyParagraphTags(x)
    ensures var y := "<p>" + x + "</p>";
      Inert(y) && !IsBlank(y) && NoNewline(y) && OnlyParagraphTags(y)
  {
    var y := "<p>" + x + "</p>";
    forall k | 3 <= k < |x| + 3 ensures y[k] == x[k - 3] { }
    assert !IsSpace(y[0]);
    assert y[|x| + 3] == '<' && y[|x| + 4] == '/';
  }

  /** Rendering is not idempotent: rendering the rendering of a plain paragraph
      wraps it a second time. */
  lemma RenderTwice(x: string)
    requires Inert(x) && !IsBlank(x) && NoNewline(x) && OnlyParagraphTags(x)
    ensures Render(Render(x)) == "<p>" + ("<p>" + x + "</p>") + "</p>"
  {
    PlainParagraph(x);
    var y := Render(x);
    WrappedStaysPlain(x);
    PlainParagraph(y);
  }
}
