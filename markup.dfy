/** The renderer of assistant replies (`formatAssistantMessage`): six global
    regular-expression replacements applied in a fixed order, then paragraph
    wrapping. Each regular expression is a specific matcher; `ReplaceFrom` is
    the left-to-right scan that `String.prototype.replace` performs with a
    global pattern: try a match at the current index; on success emit the
    replacement and continue after the match, otherwise copy one character. */
module Markup {
  import opened Domain

  /** The six replacement passes, in the order the renderer applies them. */
  datatype Pass = NumberedList | Bold | Italic | Heading | Citation | NestedList

  /** One match: the index just past the matched text and its replacement. */
  datatype Hit = Hit(end: nat, out: string)

  /** Character classes the patterns repeat over. */
  datatype CharClass = Digits | Spaces | Hashes | NonStar | NonNewline | NonTerminator

  predicate In(c: char, k: CharClass)
  {
    match k
    case Digits => IsDigit(c)
    case Spaces => IsSpace(c)
    case Hashes => c == '#'
    case NonStar => c != '*'
    case NonNewline => c != '\n'
    case NonTerminator => !IsLineTerminator(c)
  }

  /** Every character of `s[i..j]` is in class `k`. */
  predicate AllIn(s: string, i: int, j: int, k: CharClass)
    requires 0 <= i <= j <= |s|
  {
    forall m :: i <= m < j ==> In(s[m], k)
  }

  /** End of the longest run of class-`k` characters starting at `i` (a greedy `k*`). */
  function RunEnd(s: string, i: nat, k: CharClass): (e: nat)
    requires i <= |s|
    ensures i <= e <= |s| && AllIn(s, i, e, k)
    ensures e < |s| ==> !In(s[e], k)
    decreases |s| - i
  {
    if i == |s| || !In(s[i], k) then i else RunEnd(s, i + 1, k)
  }

  /** `^` under the `m` flag: the start of the input or just after a line terminator. */
  predicate LineStart(s: string, i: nat)
    requires i <= |s|
  {
    i == 0 || IsLineTerminator(s[i - 1])
  }

  function Min(a: int, b: int): int
  {
    if a <= b then a else b
  }

  /** The decimal digit character of a number in 0..9. */
  function DigitChar(n: nat): (c: char)
    requires n <= 9
    ensures IsDigit(c)
  {
    ('0' as int + n) as char
  }

  /** The opening tag of a top-level list item; paragraph wrapping looks for exactly this text. */
  const ListItemOpen: string := "<div class=\"list-item\">"
  const NumberOpen: string := "<span class=\"list-number\">"
  const TextOpen: string := "</span><span class=\"list-text\">"
  const ItemClose: string := "</span></div>"

  function ListItem(number: string, text: string): string
  {
    ListItemOpen + NumberOpen + number + TextOpen + text + ItemClose
  }

  /** The opening tag of a nested list item, which carries its level in its class. */
  function NestedOpen(level: nat): string
    requires level <= 9
  {
    "<div class=\"list-item nested-list level-" + [DigitChar(level)] + "\">"
  }

  function NestedItem(level: nat, number: string, text: string): string
    requires level <= 9
  {
    NestedOpen(level) + NumberOpen + number + TextOpen + text + ItemClose
  }

  function HeadingTag(level: nat, text: string): string
    requires level <= 9
  {
    "<h" + [DigitChar(level)] + " class=\"message-heading\">" + text + "</h" + [DigitChar(level)] + ">"
  }

  /** Heading level for a run of `n` hashes: `Math.min(hashes.length, 6)`. */
  function HeadingLevel(n: nat): nat
  {
    Min(n, 6)
  }

  /** Nesting level for an indent of `n` whitespace characters:
      `Math.min(Math.floor(indent.length / 2), 3)`. */
  function NestLevel(n: nat): nat
  {
    Min(n / 2, 3)
  }

  /** The largest index in `lo..hi` holding a character that is not a line
      terminator, searching down from `hi`. */
  function LastNonTerminator(s: string, lo: nat, hi: nat): (r: Option<nat>)
    requires lo <= hi <= |s|
    ensures r.Some? ==> lo <= r.value < hi && !IsLineTerminator(s[r.value])
    ensures r.Some? ==> forall m :: r.value < m < hi ==> IsLineTerminator(s[m])
    ensures r.None? ==> forall m :: lo <= m < hi ==> IsLineTerminator(s[m])
    decreases hi - lo
  {
    if hi == lo then None
    else if !IsLineTerminator(s[hi - 1]) then Some(hi - 1)
    else LastNonTerminator(s, lo, hi - 1)
  }

  /** `/(\d+\.\s)([^\n]+)(\n|$)/g`: not anchored to a line start; the `\s`
      may be a newline; the text runs to the next newline, which is consumed. */
  function MatchNumbered(s: string, i: nat): Option<Hit>
    requires i < |s|
  {
    var d := RunEnd(s, i, Digits);
    if d > i && d + 2 < |s| && s[d] == '.' && IsSpace(s[d + 1]) && s[d + 2] != '\n' then
      var e := RunEnd(s, d + 2, NonNewline);
      Some(Hit(if e < |s| then e + 1 else e, ListItem(s[i..d + 2], s[d + 2..e])))
    else None
  }

  // The pattern `\*\*([^*]+)\*\*` with the g flag.
  function MatchBold(s: string, i: nat): Option<Hit>
    requires i < |s|
  {
    if i + 1 < |s| && s[i] == '*' && s[i + 1] == '*' then
      var k := RunEnd(s, i + 2, NonStar);
      if k > i + 2 && k + 1 < |s| && s[k + 1] == '*' then
        Some(Hit(k + 2, "<strong>" + s[i + 2..k] + "</strong>"))
      else None
    else None
  }

  // The pattern `(?<!\*)\*(?!\*)([^\*]+)\*(?!\*)` with the g flag; the look-behind
  // reads the pass's input, including characters an earlier match of this pass consumed.
  function MatchItalic(s: string, i: nat): Option<Hit>
    requires i < |s|
  {
    if s[i] == '*' && (i == 0 || s[i - 1] != '*') then
      var k := RunEnd(s, i + 1, NonStar);
      if k > i + 1 && k < |s| && (k + 1 == |s| || s[k + 1] != '*') then
        Some(Hit(k + 1, "<em>" + s[i + 1..k] + "</em>"))
      else None
    else None
  }

  /** `/^(#+)\s+(.+)$/gm`. The `\s+` may cross line ends. When it runs to the
      end of the input, back-tracking hands the last character that is not a
      line terminator to `.+`. */
  function MatchHeading(s: string, i: nat): Option<Hit>
    requires i < |s|
  {
    if LineStart(s, i) && s[i] == '#' then
      var h := RunEnd(s, i, Hashes);
      var w := RunEnd(s, h, Spaces);
      if w == h then None
      else if w < |s| then
        var e := RunEnd(s, w, NonTerminator);
        Some(Hit(e, HeadingTag(HeadingLevel(h - i), s[w..e])))
      else
        match LastNonTerminator(s, h + 1, |s|)
        case Some(k) => Some(Hit(k + 1, HeadingTag(HeadingLevel(h - i), s[k..k + 1])))
        case None => None
    else None
  }

  /** `/\[(\d+)\]/g`. */
  function MatchCitation(s: string, i: nat): Option<Hit>
    requires i < |s|
  {
    if s[i] == '[' then
      var d := RunEnd(s, i + 1, Digits);
      if d > i + 1 && d < |s| && s[d] == ']' then
        Some(Hit(d + 1, "<span class=\"citation\">[" + s[i + 1..d] + "]</span>"))
      else None
    else None
  }

  /** `/^(\s{2,})(\d+\.\s)([^\n]+)$/gm`: the indent may hold line ends; the
      text runs to the next newline, which is kept. */
  function MatchNested(s: string, i: nat): Option<Hit>
    requires i < |s|
  {
    if LineStart(s, i) then
      var w := RunEnd(s, i, Spaces);
      var d := RunEnd(s, w, Digits);
      if w - i >= 2 && d > w && d + 2 < |s| && s[d] == '.' && IsSpace(s[d + 1]) && s[d + 2] != '\n' then
        var e := RunEnd(s, d + 2, NonNewline);
        Some(Hit(e, NestedItem(NestLevel(w - i), s[w..d + 2], s[d + 2..e])))
      else None
    else None
  }

  /** The match of pass `p` at index `i`, if its pattern matches there. */
  function MatchAt(p: Pass, s: string, i: nat): (r: Option<Hit>)
    requires i < |s|
    ensures r.Some? ==> i < r.value.end <= |s|
  {
    match p
    case NumberedList => MatchNumbered(s, i)
    case Bold => MatchBold(s, i)
    case Italic => MatchItalic(s, i)
    case Heading => MatchHeading(s, i)
    case Citation => MatchCitation(s, i)
    case NestedList => MatchNested(s, i)
  }

  /** The global replacement of pass `p` over `s[i..]`. */
  function ReplaceFrom(p: Pass, s: string, i: nat): string
    requires i <= |s|
    decreases |s| - i
  {
    if i == |s| then []
    else match MatchAt(p, s, i)
      case Some(h) => h.out + ReplaceFrom(p, s, h.end)
      case None => [s[i]] + ReplaceFrom(p, s, i + 1)
  }

  /** `s.replace(pattern, replacement)` for the pattern of pass `p`. */
  function ReplaceAll(p: Pass, s: string): string
  {
    ReplaceFrom(p, s, 0)
  }

  /** `s` contains `pat` as a substring (`String.prototype.includes`). */
  predicate Contains(s: string, pat: string)
  {
    exists k :: 0 <= k <= |s| - |pat| && pat <= s[k..]
  }

  /** Index of the first paragraph break "\n\n" at or after `i`. */
  function FindBreak(s: string, i: nat): (r: Option<nat>)
    requires i <= |s|
    ensures r.Some? ==> i <= r.value && r.value + 2 <= |s| && s[r.value] == '\n' && s[r.value + 1] == '\n'
    ensures forall k :: i <= k < (if r.Some? then r.value else |s| - 1) ==> !(s[k] == '\n' && s[k + 1] == '\n')
    decreases |s| - i
  {
    if i + 2 > |s| then None
    else if s[i] == '\n' && s[i + 1] == '\n' then Some(i)
    else FindBreak(s, i + 1)
  }

  /** The blocks of `s[i..]` between paragraph breaks (`s.split('\n\n')`). */
  function SplitFrom(s: string, i: nat): (r: seq<string>)
    requires i <= |s|
    ensures |r| >= 1
    decreases |s| - i
  {
    match FindBreak(s, i)
    case None => [s[i..]]
    case Some(k) => [s[i..k]] + SplitFrom(s, k + 2)
  }

  function Split(s: string): seq<string>
  {
    SplitFrom(s, 0)
  }

  /** `blocks.join(sep)`. */
  function Join(blocks: seq<string>, sep: string): string
  {
    if blocks == [] then []
    else if |blocks| == 1 then blocks[0]
    else blocks[0] + sep + Join(blocks[1..], sep)
  }

  /** A block that already holds structure produced by the earlier passes. */
  predicate IsStructural(block: string)
  {
    Contains(block, ListItemOpen) || Contains(block, "<h")
    || Contains(block, "<ul") || Contains(block, "<ol")
  }

  /** What one block contributes to the rendered markup. */
  function WrapBlock(block: string): string
  {
    if Trim(block) == [] then []
    else if IsStructural(block) then block
    else "<p>" + block + "</p>"
  }

  function WrapAll(blocks: seq<string>): (r: seq<string>)
    ensures |r| == |blocks|
    ensures forall k :: 0 <= k < |blocks| ==> r[k] == WrapBlock(blocks[k])
  {
    if blocks == [] then [] else [WrapBlock(blocks[0])] + WrapAll(blocks[1..])
  }

  /** Split into paragraphs, wrap each, and join with no separator. */
  function Paragraphs(s: string): string
  {
    Join(WrapAll(Split(s)), "")
  }

  /** The six replacement passes of `formatAssistantMessage`, in source order. */
  function Passes(content: string): string
  {
    var t1 := ReplaceAll(NumberedList, content);
    var t2 := ReplaceAll(Bold, t1);
    var t3 := ReplaceAll(Italic, t2);
    var t4 := ReplaceAll(Heading, t3);
    var t5 := ReplaceAll(Citation, t4);
    ReplaceAll(NestedList, t5)
  }

  /** `formatAssistantMessage`: empty content renders to the empty string;
      otherwise the six passes run in order and the result is wrapped into paragraphs. */
  function Render(content: string): string
  {
    if content == [] then [] else Paragraphs(Passes(content))
  }
}
