/** What each of the renderer's regular expressions matches, stated as the
    shape of the matched text, and proofs that the scanners in `Markup` find
    exactly those matches with exactly those replacements. */
module MarkupPatterns {
  import opened Domain
  import opened Markup

  /** `RunEnd` is the end of the maximal run: any `j` bounding a run of
      class-`k` characters that cannot be extended is it. */
  lemma {:induction false} RunEndIs(s: string, i: nat, j: nat, k: CharClass)
    requires i <= j <= |s| && AllIn(s, i, j, k)
    requires j == |s| || !In(s[j], k)
    ensures RunEnd(s, i, k) == j
    decreases j - i
  {
    if i < j {
      RunEndIs(s, i + 1, j, k);
    }
  }

  // ---- (\d+\.\s)([^\n]+)(\n|$) -------------------------------------------

  /** The numbered-list pattern matches at `i` with the number (digits, '.',
      one whitespace character) in `s[i..n]` and the text in `s[n..e]`, the
      text being followed by a newline or the end of the input. */
  ghost predicate NumberedShape(s: string, i: nat, n: nat, e: nat)
  {
    i + 2 < n < e <= |s| && AllIn(s, i, n - 2, Digits) && s[n - 2] == '.' && IsSpace(s[n - 1])
    && AllIn(s, n, e, NonNewline) && (e == |s| || s[e] == '\n')
  }

  /** A numbered-list match replaces the number and text, and the newline
      after them when there is one, by one list-item block. */
  lemma NumberedMatchComplete(s: string, i: nat, n: nat, e: nat)
    requires NumberedShape(s, i, n, e)
    ensures MatchNumbered(s, i) == Some(Hit(if e < |s| then e + 1 else e, ListItem(s[i..n], s[n..e])))
  {
    RunEndIs(s, i, n - 2, Digits);
    RunEndIs(s, n, e, NonNewline);
  }

  lemma NumberedMatchSound(s: string, i: nat)
    requires i < |s|
    ensures MatchNumbered(s, i).Some? <==> exists n: nat, e: nat :: NumberedShape(s, i, n, e)
  {
    if MatchNumbered(s, i).Some? {
      var d := RunEnd(s, i, Digits);
      var e := RunEnd(s, d + 2, NonNewline);
      assert NumberedShape(s, i, d + 2, e);
    }
    if n: nat, e: nat :| NumberedShape(s, i, n, e) {
      NumberedMatchComplete(s, i, n, e);
    }
  }

  // ---- \*\*([^*]+)\*\* -------------------------------------------------------

  /** The bold pattern matches at `i` with its inner text in `s[i + 2..k]`. */
  ghost predicate BoldShape(s: string, i: nat, k: nat)
  {
    i + 2 < k && k + 2 <= |s| && s[i] == '*' && s[i + 1] == '*'
    && AllIn(s, i + 2, k, NonStar) && s[k] == '*' && s[k + 1] == '*'
  }

  /** `**x**` with `x` non-empty and free of asterisks becomes `<strong>x</strong>`. */
  lemma BoldMatchComplete(s: string, i: nat, k: nat)
    requires BoldShape(s, i, k)
    ensures MatchBold(s, i) == Some(Hit(k + 2, "<strong>" + s[i + 2..k] + "</strong>"))
  {
    RunEndIs(s, i + 2, k, NonStar);
  }

  lemma BoldMatchSound(s: string, i: nat)
    requires i < |s|
    ensures MatchBold(s, i).Some? <==> exists k: nat :: BoldShape(s, i, k)
  {
    if MatchBold(s, i).Some? {
      assert BoldShape(s, i, RunEnd(s, i + 2, NonStar));
    }
    if k: nat :| BoldShape(s, i, k) {
      BoldMatchComplete(s, i, k);
    }
  }

  // ---- (?<!\*)\*(?!\*)([^\*]+)\*(?!\*) -----------------------------------

  /** The italic pattern matches at `i` with its inner text in `s[i + 1..k]`:
      neither star is next to another star. */
  ghost predicate ItalicShape(s: string, i: nat, k: nat)
  {
    i + 1 < k < |s| && s[i] == '*' && (i == 0 || s[i - 1] != '*')
    && AllIn(s, i + 1, k, NonStar) && s[k] == '*' && (k + 1 == |s| || s[k + 1] != '*')
  }

  lemma ItalicMatchComplete(s: string, i: nat, k: nat)
    requires ItalicShape(s, i, k)
    ensures MatchItalic(s, i) == Some(Hit(k + 1, "<em>" + s[i + 1..k] + "</em>"))
  {
    RunEndIs(s, i + 1, k, NonStar);
  }

  lemma ItalicMatchSound(s: string, i: nat)
    requires i < |s|
    ensures MatchItalic(s, i).Some? <==> exists k: nat :: ItalicShape(s, i, k)
  {
    if MatchItalic(s, i).Some? {
      assert ItalicShape(s, i, RunEnd(s, i + 1, NonStar));
    }
    if k: nat :| ItalicShape(s, i, k) {
      ItalicMatchComplete(s, i, k);
    }
  }

  // ---- ^(#+)\s+(.+)$ with the m flag -----------------------------------

  /** The heading pattern can match at the line start `i` with the hashes in
      `s[i..h]`, the whitespace in `s[h..w]` and the text in `s[w..e]`,
      the text followed by a line terminator or the end of the input. */
  ghost predicate HeadingShape(s: string, i: nat, h: nat, w: nat, e: nat)
  {
    i < h < w < e <= |s| && LineStart(s, i) && AllIn(s, i, h, Hashes) && AllIn(s, h, w, Spaces)
    && AllIn(s, w, e, NonTerminator) && (e == |s| || IsLineTerminator(s[e]))
  }

  /** The heading matcher finds a match exactly when some decomposition exists. */
  lemma HeadingMatchSound(s: string, i: nat)
    requires i < |s|
    ensures MatchHeading(s, i).Some? <==> exists h: nat, w: nat, e: nat :: HeadingShape(s, i, h, w, e)
  {
    if MatchHeading(s, i).Some? {
      var h := RunEnd(s, i, Hashes);
      var w := RunEnd(s, h, Spaces);
      if w < |s| {
        assert HeadingShape(s, i, h, w, RunEnd(s, w, NonTerminator));
      } else {
        var k := LastNonTerminator(s, h + 1, |s|).value;
        assert HeadingShape(s, i, h, k, k + 1);
      }
    }
    if h: nat, w: nat, e: nat :| HeadingShape(s, i, h, w, e) {
      HeadingHashes(s, i, h, w, e);
      var w0 := RunEnd(s, h, Spaces);
      if w0 == |s| {
        assert w >= h + 1 && !IsLineTerminator(s[w]);
        assert LastNonTerminator(s, h + 1, |s|).Some?;
      }
    }
  }

  /** In any decomposition the hashes form the whole run of '#' at `i`. */
  lemma HeadingHashes(s: string, i: nat, h: nat, w: nat, e: nat)
    requires HeadingShape(s, i, h, w, e)
    ensures RunEnd(s, i, Hashes) == h
  {
    RunEndIs(s, i, h, Hashes);
  }

  /** Greedy `\s+`: of all decompositions the matcher takes the one with the
      longest whitespace; its level is the number of hashes capped at 6. */
  lemma HeadingMatchGreedy(s: string, i: nat, h: nat, w: nat, e: nat)
    requires HeadingShape(s, i, h, w, e)
    requires forall w2: nat, e2: nat :: HeadingShape(s, i, h, w2, e2) ==> w2 <= w
    ensures MatchHeading(s, i) == Some(Hit(e, HeadingTag(HeadingLevel(h - i), s[w..e])))
    ensures 1 <= HeadingLevel(h - i) <= 6
    ensures h - i <= 6 ==> HeadingLevel(h - i) == h - i
  {
    HeadingHashes(s, i, h, w, e);
    var w0 := RunEnd(s, h, Spaces);
    if w0 < |s| {
      var e0 := RunEnd(s, w0, NonTerminator);
      assert HeadingShape(s, i, h, w0, e0);
      assert !In(s[w0], Spaces);
      RunEndIs(s, w, e, NonTerminator);
    } else {
      assert In(s[w], NonTerminator);
      var k := LastNonTerminator(s, h + 1, |s|).value;
      assert HeadingShape(s, i, h, k, k + 1);
      assert k + 1 < |s| ==> IsLineTerminator(s[k + 1]);
    }
  }

  // ---- \[(\d+)\] ----------------------------------------------------------

  /** The citation pattern matches at `i` with the digits in `s[i + 1..d]`. */
  ghost predicate CitationShape(s: string, i: nat, d: nat)
  {
    i + 1 < d < |s| && s[i] == '[' && AllIn(s, i + 1, d, Digits) && s[d] == ']'
  }

  /** Bracketed digits `[n]` become a citation span that keeps the brackets. */
  lemma CitationMatchComplete(s: string, i: nat, d: nat)
    requires CitationShape(s, i, d)
    ensures MatchCitation(s, i) == Some(Hit(d + 1, "<span class=\"citation\">[" + s[i + 1..d] + "]</span>"))
  {
    RunEndIs(s, i + 1, d, Digits);
  }

  lemma CitationMatchSound(s: string, i: nat)
    requires i < |s|
    ensures MatchCitation(s, i).Some? <==> exists d: nat :: CitationShape(s, i, d)
  {
    if MatchCitation(s, i).Some? {
      assert CitationShape(s, i, RunEnd(s, i + 1, Digits));
    }
    if d: nat :| CitationShape(s, i, d) {
      CitationMatchComplete(s, i, d);
    }
  }

  // ---- ^(\s{2,})(\d+\.\s)([^\n]+)$ with the m flag -----------------------

  /** The nested-list pattern matches at the line start `i` with the indent in
      `s[i..w]` (at least two whitespace characters), the number in `s[w..n]`
      and the text in `s[n..e]`; the greedy text stops only at a newline or
      the end of the input, where `$` holds. */
  ghost predicate NestedShape(s: string, i: nat, w: nat, n: nat, e: nat)
  {
    i + 2 <= w && w + 2 < n < e <= |s| && LineStart(s, i) && AllIn(s, i, w, Spaces)
    && AllIn(s, w, n - 2, Digits) && s[n - 2] == '.' && IsSpace(s[n - 1])
    && AllIn(s, n, e, NonNewline) && (e == |s| || s[e] == '\n')
  }

  /** The nested item's level is `min(floor(indent / 2), 3)`, which lies in 1..3. */
  lemma NestedMatchComplete(s: string, i: nat, w: nat, n: nat, e: nat)
    requires NestedShape(s, i, w, n, e)
    ensures 1 <= NestLevel(w - i) <= 3
    ensures MatchNested(s, i) == Some(Hit(e, NestedItem(NestLevel(w - i), s[w..n], s[n..e])))
  {
    RunEndIs(s, i, w, Spaces);
    RunEndIs(s, w, n - 2, Digits);
    RunEndIs(s, n, e, NonNewline);
  }

  lemma NestedMatchSound(s: string, i: nat)
    requires i < |s|
    ensures MatchNested(s, i).Some? <==> exists w: nat, n: nat, e: nat :: NestedShape(s, i, w, n, e)
  {
    if MatchNested(s, i).Some? {
      var w := RunEnd(s, i, Spaces);
      var d := RunEnd(s, w, Digits);
      assert NestedShape(s, i, w, d + 2, RunEnd(s, d + 2, NonNewline));
    }
    if w: nat, n: nat, e: nat :| NestedShape(s, i, w, n, e) {
      NestedMatchComplete(s, i, w, n, e);
    }
  }
}
