/** The summary viewer of `src/components/NoteDisplay.tsx`: the `formatText`
    rewriter (four global regular-expression replacements applied in order),
    the `toggleSection` flip of the expanded-sections map, the tabs and the
    numbered titles of the summaries. */
module NoteDisplay {
  import opened Wrappers
  import opened Text
  import opened PdfProcessor

  // ---------------------------------------------------------------------
  // Lines, as JavaScript regular expressions see them
  // ---------------------------------------------------------------------

  /** A line terminator: what `.` never matches and what `^` follows in
      multiline mode. */
  predicate IsTerminator(c: char) {
    c == '\n' || c == '\r' || c == '\U{2028}' || c == '\U{2029}'
  }

  predicate NoTerminator(s: string) {
    forall i :: 0 <= i < |s| ==> !IsTerminator(s[i])
  }

  predicate NoStar(s: string) {
    forall i :: 0 <= i < |s| ==> s[i] != '*'
  }

  /** The length of the first line of `s`. */
  function LineEnd(s: string): (k: nat)
    ensures k <= |s| && NoTerminator(s[..k])
    ensures k < |s| ==> IsTerminator(s[k])
  {
    if s == [] || IsTerminator(s[0]) then 0
    else
      var k := 1 + LineEnd(s[1..]);
      assert s[..k] == [s[0]] + s[1..][..k - 1];
      k
  }

  /** `f` applied to every line of `s`, the terminators kept in place. */
  function MapLines(s: string, f: string -> string): string
    decreases |s|
  {
    var k := LineEnd(s);
    if k == |s| then f(s) else f(s[..k]) + [s[k]] + MapLines(s[k + 1..], f)
  }

  // ---------------------------------------------------------------------
  // Bold and italic: /\*\*(.*?)\*\*/g and /\*(.*?)\*/g
  // ---------------------------------------------------------------------

  /** A delimiter made of asterisks. */
  predicate Stars(d: string) {
    |d| > 0 && forall i :: 0 <= i < |d| ==> d[i] == '*'
  }

  /** `pat` occurs in `s` at index `k`. */
  predicate At(s: string, k: nat, pat: string) {
    k + |pat| <= |s| && s[k .. k + |pat|] == pat
  }

  /** No line terminator in `s[i..j]`. */
  predicate SameLine(s: string, i: nat, j: nat)
    requires i <= j <= |s|
  {
    forall m :: i <= m < j ==> !IsTerminator(s[m])
  }

  /** Where the lazy `(.*?)` that starts at index `j` stops: the first index
      from `j` on where the delimiter `d` occurs, provided no line
      terminator comes first. */
  function CloseAt(s: string, d: string, j: nat): (r: Option<nat>)
    requires Stars(d) && j <= |s|
    ensures r.Some? ==>
      && j <= r.value && At(s, r.value, d) && SameLine(s, j, r.value)
      && forall k :: j <= k < r.value ==> !At(s, k, d)
    ensures r.None? ==>
      forall k :: j <= k <= |s| && At(s, k, d) ==> !SameLine(s, j, k)
    decreases |s| - j
  {
    if At(s, j, d) then Some(j)
    else if j == |s| || IsTerminator(s[j]) then None
    else CloseAt(s, d, j + 1)
  }

  /** `x` between the opening and closing `tag`. */
  function Wrap(tag: string, x: string): string {
    "<" + tag + ">" + x + "</" + tag + ">"
  }

  /** A global replacement of `d(.*?)d` by `<tag>$1</tag>`: at each index, the
      leftmost match starting there, else the character is kept. */
  function Pairs(s: string, d: string, tag: string): string
    requires Stars(d)
    decreases |s|
  {
    if At(s, 0, d) && CloseAt(s, d, |d|).Some? then
      var j := CloseAt(s, d, |d|).value;
      Wrap(tag, s[|d| .. j]) + Pairs(s[j + |d|..], d, tag)
    else if s == [] then []
    else [s[0]] + Pairs(s[1..], d, tag)
  }

  function Bold(s: string): string {
    Pairs(s, "**", "strong")
  }

  function Italic(s: string): string {
    Pairs(s, "*", "em")
  }

  // ---------------------------------------------------------------------
  // List items: /^- (.*)/gm
  // ---------------------------------------------------------------------

  function ListLine(line: string): string {
    if |line| >= 2 && line[..2] == "- " then "<li>" + line[2..] + "</li>" else line
  }

  function ListItems(s: string): string {
    MapLines(s, ListLine)
  }

  // ---------------------------------------------------------------------
  // Discussion questions: /(Discussion Question:.*)/g
  // ---------------------------------------------------------------------

  const MARKER := "Discussion Question:"
  const OPEN_QUESTION := "<p class=\"text-indigo-600 font-semibold\">"
  const CLOSE_QUESTION := "</p>"

  /** The first index from `from` on where `pat` occurs. */
  function Find(s: string, pat: string, from: nat): (r: Option<nat>)
    requires from <= |s|
    ensures r.Some? ==>
      && from <= r.value && At(s, r.value, pat)
      && forall k :: from <= k < r.value ==> !At(s, k, pat)
    ensures r.None? ==> forall k :: from <= k ==> !At(s, k, pat)
    decreases |s| - from
  {
    if from + |pat| > |s| then None
    else if At(s, from, pat) then Some(from)
    else Find(s, pat, from + 1)
  }

  /** The line from its first marker to its end is wrapped in a paragraph. */
  function QuestionLine(line: string): string {
    match Find(line, MARKER, 0)
    case None => line
    case Some(p) => line[..p] + OPEN_QUESTION + line[p..] + CLOSE_QUESTION
  }

  function Questions(s: string): string {
    MapLines(s, QuestionLine)
  }

  /** `formatText`: bold, then italic, then list items, then discussion
      questions. */
  function FormatText(text: string): string {
    Questions(ListItems(Italic(Bold(text))))
  }

  // ---------------------------------------------------------------------
  // No replacement crosses a line terminator
  // ---------------------------------------------------------------------

  /** The first line ends at the first terminator, wherever that is found. */
  lemma LineEndAt(s: string, k: nat)
    requires k <= |s| && NoTerminator(s[..k]) && (k < |s| ==> IsTerminator(s[k]))
    ensures LineEnd(s) == k
  {
    var e := LineEnd(s);
    assert forall m :: 0 <= m < k ==> s[..k][m] == s[m];
    assert forall m :: 0 <= m < e ==> s[..e][m] == s[m];
  }

  /** The delimiter search stops at a terminator: what follows it is never seen. */
  lemma {:induction false} CloseAtSplit(a: string, t: char, b: string, d: string, j: nat)
    requires Stars(d) && IsTerminator(t) && j <= |a|
    ensures CloseAt(a + [t] + b, d, j) == CloseAt(a, d, j)
    decreases |a| - j
  {
    var s := a + [t] + b;
    if j + |d| <= |a| {
      assert s[j .. j + |d|] == a[j .. j + |d|];
    } else {
      assert j + |d| <= |s| ==> s[j .. j + |d|][|a| - j] == t;
    }
    if !At(a, j, d) && j < |a| && !IsTerminator(a[j]) {
      assert s[j] == a[j];
      CloseAtSplit(a, t, b, d, j + 1);
    }
  }

  lemma Combine(whole: string, left: string, w: string, r: string, rtb: string, right: string, t: char)
    requires whole == w + rtb && left == w + r && rtb == r + [t] + right
    ensures whole == left + [t] + right
  {
  }

  lemma Regroup(x: string, y: string, t: char, z: string)
    ensures x + (y + [t] + z) == (x + y) + [t] + z
  {
  }

  /** Bold and italic work line by line. */
  lemma {:induction false} PairsSplit(a: string, t: char, b: string, d: string, tag: string)
    requires Stars(d) && IsTerminator(t)
    ensures Pairs(a + [t] + b, d, tag) == Pairs(a, d, tag) + [t] + Pairs(b, d, tag)
    decreases |a|, 1
  {
    var s := a + [t] + b;
    if a == [] {
      assert !At(s, 0, d) by {
        assert |d| <= |s| ==> s[..|d|][0] == t;
      }
      assert s == [t] + b && s[1..] == b;
    } else if At(a, 0, d) && CloseAt(a, d, |d|).Some? {
      PairsSplitMatch(a, t, b, d, tag);
    } else {
      PairsSplitSkip(a, t, b, d, tag);
    }
  }

  /** A delimiter at the start of `a + [t] + b` lies within `a`. */
  lemma OpensIn(a: string, t: char, b: string, d: string)
    requires Stars(d) && IsTerminator(t)
    ensures At(a + [t] + b, 0, d) <==> At(a, 0, d)
  {
    var s := a + [t] + b;
    if |d| <= |a| {
      assert s[..|d|] == a[..|d|];
    } else {
      assert |d| <= |s| ==> s[..|d|][|a|] == t;
    }
  }

  lemma {:induction false} PairsSplitMatch(a: string, t: char, b: string, d: string, tag: string)
    requires Stars(d) && IsTerminator(t)
    requires At(a, 0, d) && CloseAt(a, d, |d|).Some?
    ensures Pairs(a + [t] + b, d, tag) == Pairs(a, d, tag) + [t] + Pairs(b, d, tag)
    decreases |a|, 0
  {
    var s := a + [t] + b;
    OpensIn(a, t, b, d);
    CloseAtSplit(a, t, b, d, |d|);
    var j := CloseAt(a, d, |d|).value;
    var rest := a[j + |d|..];
    SlicesAround(a, t, b, |d|, j);
    SlicesAround(a, t, b, j + |d|, j + |d|);
    PairsMatchAt(s, d, tag, j, a[|d| .. j], rest + [t] + b);
    PairsMatchAt(a, d, tag, j, a[|d| .. j], rest);
    PairsSplit(rest, t, b, d, tag);
    Combine(Pairs(s, d, tag), Pairs(a, d, tag), Wrap(tag, a[|d| .. j]),
            Pairs(rest, d, tag), Pairs(rest + [t] + b, d, tag), Pairs(b, d, tag), t);
  }

  /** Slices of `a + [t] + b` that start inside `a`. */
  lemma SlicesAround(a: string, t: char, b: string, i: nat, j: nat)
    requires i <= j <= |a|
    ensures (a + [t] + b)[i .. j] == a[i .. j]
    ensures (a + [t] + b)[i..] == a[i..] + [t] + b
  {
  }

  /** A match at the start: the wrapped group, then the rest. */
  lemma PairsMatchAt(s: string, d: string, tag: string, j: nat, inner: string, after: string)
    requires Stars(d) && |d| <= |s| && At(s, 0, d) && CloseAt(s, d, |d|) == Some(j)
    requires j + |d| <= |s| && inner == s[|d| .. j] && after == s[j + |d|..]
    ensures Pairs(s, d, tag) == Wrap(tag, inner) + Pairs(after, d, tag)
  {
  }

  lemma {:induction false} PairsSplitSkip(a: string, t: char, b: string, d: string, tag: string)
    requires Stars(d) && IsTerminator(t) && a != []
    requires !(At(a, 0, d) && CloseAt(a, d, |d|).Some?)
    ensures Pairs(a + [t] + b, d, tag) == Pairs(a, d, tag) + [t] + Pairs(b, d, tag)
    decreases |a|, 0
  {
    var s := a + [t] + b;
    OpensIn(a, t, b, d);
    if At(a, 0, d) {
      CloseAtSplit(a, t, b, d, |d|);
    }
    assert s[0] == a[0] && s[1..] == a[1..] + [t] + b;
    PairsSplit(a[1..], t, b, d, tag);
    Regroup([a[0]], Pairs(a[1..], d, tag), t, Pairs(b, d, tag));
  }

  /** The line-anchored passes work line by line. */
  lemma {:induction false} MapLinesSplit(a: string, t: char, b: string, f: string -> string)
    requires IsTerminator(t)
    ensures MapLines(a + [t] + b, f) == MapLines(a, f) + [t] + MapLines(b, f)
    decreases |a|
  {
    var s := a + [t] + b;
    var k := LineEnd(a);
    assert s[..k] == a[..k];
    LineEndAt(s, k);
    if k == |a| {
      assert a[..k] == a && s[k] == t && s[k + 1..] == b;
    } else {
      assert s[k + 1..] == a[k + 1..] + [t] + b;
      MapLinesSplit(a[k + 1..], t, b, f);
      var head := f(a[..k]) + [a[k]];
      assert MapLines(s, f) == head + MapLines(s[k + 1..], f);
      assert MapLines(a, f) == head + MapLines(a[k + 1..], f);
      Regroup(head, MapLines(a[k + 1..], f), t, MapLines(b, f));
    }
  }

  /** No replacement of `formatText` spans a line terminator: text before and
      after one is formatted separately. */
  lemma FormatTextSplit(a: string, t: char, b: string)
    requires IsTerminator(t)
    ensures FormatText(a + [t] + b) == FormatText(a) + [t] + FormatText(b)
  {
    PairsSplit(a, t, b, "**", "strong");
    PairsSplit(Bold(a), t, Bold(b), "*", "em");
    MapLinesSplit(Italic(Bold(a)), t, Italic(Bold(b)), ListLine);
    MapLinesSplit(ListItems(Italic(Bold(a))), t, ListItems(Italic(Bold(b))), QuestionLine);
  }

  // ---------------------------------------------------------------------
  // What each pass rewrites
  // ---------------------------------------------------------------------

  /** Index `i` starts a line of `s`. */
  predicate LineStart(s: string, i: nat) {
    i == 0 || (0 < i <= |s| && IsTerminator(s[i - 1]))
  }

  /** Text with nothing for `formatText` to rewrite: no asterisk, no line
      beginning with "- ", no discussion marker. */
  predicate Plain(s: string) {
    && NoStar(s)
    && (forall i :: 0 <= i <= |s| && LineStart(s, i) ==> !At(s, i, "- "))
    && (forall i :: 0 <= i <= |s| ==> !At(s, i, MARKER))
  }

  /** Without an asterisk, bold and italic change nothing. */
  lemma {:induction false} PairsPlain(s: string, d: string, tag: string)
    requires Stars(d) && NoStar(s)
    ensures Pairs(s, d, tag) == s
    decreases |s|
  {
    if s != [] {
      assert !At(s, 0, d) by {
        assert |d| <= |s| ==> s[..|d|][0] == s[0];
      }
      PairsPlain(s[1..], d, tag);
    }
  }

  /** Without a line beginning with "- ", the list pass changes nothing. */
  lemma {:induction false} ListItemsPlain(s: string)
    requires forall i :: 0 <= i <= |s| && LineStart(s, i) ==> !At(s, i, "- ")
    ensures ListItems(s) == s
    decreases |s|
  {
    var k := LineEnd(s);
    var line := s[..k];
    assert !At(s, 0, "- ");
    if |line| >= 2 {
      assert line[..2] == s[..2];
    }
    assert ListLine(line) == line;
    if k < |s| {
      var rest := s[k + 1..];
      forall i | 0 <= i <= |rest| && LineStart(rest, i)
        ensures !At(rest, i, "- ")
      {
        assert LineStart(s, k + 1 + i);
        assert i + 2 <= |rest| ==> rest[i .. i + 2] == s[k + 1 + i .. k + 1 + i + 2];
      }
      ListItemsPlain(rest);
      assert s == line + [s[k]] + rest;
    }
  }

  /** A pattern absent from `s` is absent from its first line and from
      what follows the first terminator. */
  lemma AbsentFromParts(s: string, pat: string, k: nat, rest: string)
    requires k < |s| && rest == s[k + 1..]
    requires forall i :: 0 <= i <= |s| ==> !At(s, i, pat)
    ensures forall i :: 0 <= i <= k ==> !At(s[..k], i, pat)
    ensures forall i :: 0 <= i <= |rest| ==> !At(rest, i, pat)
  {
    forall i | 0 <= i <= k ensures !At(s[..k], i, pat) {
      if At(s[..k], i, pat) {
        assert s[..k][i .. i + |pat|] == s[i .. i + |pat|];
        assert At(s, i, pat);
      }
    }
    forall i | 0 <= i <= |rest| ensures !At(rest, i, pat) {
      if At(rest, i, pat) {
        assert rest[i .. i + |pat|] == s[k + 1 + i .. k + 1 + i + |pat|];
        assert At(s, k + 1 + i, pat);
      }
    }
  }

  /** Without the marker, the discussion pass changes nothing. */
  lemma {:induction false} QuestionsPlain(s: string)
    requires forall i :: 0 <= i <= |s| ==> !At(s, i, MARKER)
    ensures Questions(s) == s
    decreases |s|
  {
    var k := LineEnd(s);
    if k == |s| {
      assert s[..k] == s;
      assert Find(s, MARKER, 0).None?;
    } else {
      AbsentFromParts(s, MARKER, k, s[k + 1..]);
      assert Find(s[..k], MARKER, 0).None?;
      QuestionsPlain(s[k + 1..]);
      assert s == s[..k] + [s[k]] + s[k + 1..];
    }
  }

  /** Text with nothing to rewrite is returned unchanged. */
  lemma FormatTextPlain(s: string)
    requires Plain(s)
    ensures FormatText(s) == s
  {
    PairsPlain(s, "**", "strong");
    PairsPlain(s, "*", "em");
    ListItemsPlain(s);
    QuestionsPlain(s);
  }

  /** The lazy group stops at the first delimiter of the line. */
  lemma CloseAtFirst(s: string, d: string, j: nat, e: nat)
    requires Stars(d) && j <= e && At(s, e, d)
    requires forall m :: j <= m < e ==> s[m] != '*' && !IsTerminator(s[m])
    ensures CloseAt(s, d, j) == Some(e)
  {
    forall k | j <= k < e ensures !At(s, k, d) {
      assert k + |d| <= |s| ==> s[k .. k + |d|][0] == s[k];
    }
    assert SameLine(s, j, e);
  }

  /** Star-free text before the delimiters is copied as it is. */
  lemma {:induction false} PairsPrefixPlain(x: string, rest: string, d: string, tag: string)
    requires Stars(d) && NoStar(x)
    ensures Pairs(x + rest, d, tag) == x + Pairs(rest, d, tag)
    decreases |x|
  {
    if x != [] {
      var s := x + rest;
      assert !At(s, 0, d) by {
        assert s[0] == x[0];
      }
      assert s[1..] == x[1..] + rest;
      PairsPrefixPlain(x[1..], rest, d, tag);
      assert x == [x[0]] + x[1..];
    } else {
      assert x + rest == rest;
    }
  }

  /** Delimiters around star-free text of one line become the tag. */
  lemma PairMatch(x: string, rest: string, d: string, tag: string)
    requires Stars(d) && NoStar(x) && NoTerminator(x)
    ensures Pairs(d + x + d + rest, d, tag) == Wrap(tag, x) + Pairs(rest, d, tag)
  {
    var s := d + x + d + rest;
    var e := |d| + |x|;
    assert s[..|d|] == d;
    assert s[e .. e + |d|] == d;
    forall m | |d| <= m < e ensures s[m] != '*' && !IsTerminator(s[m]) {
      assert s[m] == x[m - |d|];
    }
    CloseAtFirst(s, d, |d|, e);
    assert s[|d| .. e] == x;
    assert s[e + |d|..] == rest;
  }

  lemma NoStarJoin(a: string, b: string)
    ensures NoStar(a + b) <==> NoStar(a) && NoStar(b)
  {
    if NoStar(a) && NoStar(b) {
      forall i | 0 <= i < |a + b| ensures (a + b)[i] != '*' {
        if i >= |a| {
          assert (a + b)[i] == b[i - |a|];
        }
      }
    } else if NoStar(a + b) {
      forall i | 0 <= i < |b| ensures b[i] != '*' {
        assert (a + b)[|a| + i] == b[i];
      }
      forall i | 0 <= i < |a| ensures a[i] != '*' {
        assert (a + b)[i] == a[i];
      }
    }
  }

  lemma NoTerminatorJoin(a: string, b: string)
    ensures NoTerminator(a + b) <==> NoTerminator(a) && NoTerminator(b)
  {
    if NoTerminator(a) && NoTerminator(b) {
      forall i | 0 <= i < |a + b| ensures !IsTerminator((a + b)[i]) {
        if i >= |a| {
          assert (a + b)[i] == b[i - |a|];
        }
      }
    } else if NoTerminator(a + b) {
      forall i | 0 <= i < |b| ensures !IsTerminator(b[i]) {
        assert (a + b)[|a| + i] == b[i];
      }
      forall i | 0 <= i < |a| ensures !IsTerminator(a[i]) {
        assert (a + b)[i] == a[i];
      }
    }
  }

  /** Wrapping star-free text in a star-free tag adds no asterisk. */
  lemma WrapNoStar(tag: string, x: string)
    requires NoStar(tag) && NoStar(x)
    ensures NoStar(Wrap(tag, x))
  {
    assert NoStar("<") && NoStar(">") && NoStar("</");
    NoStarJoin("<", tag);
    NoStarJoin("<" + tag, ">");
    NoStarJoin("<" + tag + ">", x);
    NoStarJoin("<" + tag + ">" + x, "</");
    NoStarJoin("<" + tag + ">" + x + "</", tag);
    NoStarJoin("<" + tag + ">" + x + "</" + tag, ">");
  }

  lemma PairsEmpty(d: string, tag: string)
    requires Stars(d)
    ensures Pairs([], d, tag) == []
  {
    assert !At([], 0, d);
  }

  /** Bold runs before italic, so "**x**" becomes a strong element ... */
  lemma BoldBeforeItalic(x: string)
    requires NoStar(x) && NoTerminator(x)
    ensures Italic(Bold("**" + x + "**")) == Wrap("strong", x)
  {
    PairMatch(x, [], "**", "strong");
    PairsEmpty("**", "strong");
    assert "**" + x + "**" + [] == "**" + x + "**";
    assert Bold("**" + x + "**") == Wrap("strong", x);
    assert NoStar("strong");
    WrapNoStar("strong", x);
    PairsPlain(Wrap("strong", x), "*", "em");
  }

  /** ... whereas the italic pattern alone would read "**x**" as two empty
      emphasised pairs around `x`. */
  lemma ItalicAlone(x: string)
    requires NoStar(x)
    ensures Italic("**" + x + "**") == Wrap("em", "") + x + Wrap("em", "")
  {
    var s := "**" + x + "**";
    assert s[0] == '*' && s[1] == '*';
    assert At(s, 0, "*") && At(s, 1, "*");
    CloseAtFirst(s, "*", 1, 1);
    assert s[2..] == x + "**";
    PairsMatchAt(s, "*", "em", 1, "", x + "**");
    PairsPrefixPlain(x, "**", "*", "em");
    EmptyEmphasis();
  }

  lemma EmptyEmphasis()
    ensures Italic("**") == Wrap("em", "")
  {
    CloseAtFirst("**", "*", 1, 1);
    assert "**"[2..] == [];
    PairsEmpty("*", "em");
  }

  /** A line beginning with "- " becomes a list item ... */
  lemma ListLineOnly(x: string)
    requires NoTerminator(x)
    ensures ListItems("- " + x) == "<li>" + x + "</li>"
  {
    var line := "- " + x;
    assert NoTerminator("- ");
    NoTerminatorJoin("- ", x);
    LineEndAt(line, |line|);
    assert line[..|line|] == line && line[..2] == "- " && line[2..] == x;
  }

  /** ... and the next line is formatted on its own. */
  lemma ListLineItem(x: string, t: char, rest: string)
    requires NoTerminator(x) && IsTerminator(t)
    ensures ListItems("- " + x + [t] + rest) == "<li>" + x + "</li>" + [t] + ListItems(rest)
  {
    MapLinesSplit("- " + x, t, rest, ListLine);
    ListLineOnly(x);
  }

  /** The first occurrence of `pat`. */
  lemma FindFirst(s: string, pat: string, e: nat)
    requires At(s, e, pat)
    requires forall k :: 0 <= k < e ==> !At(s, k, pat)
    ensures Find(s, pat, 0) == Some(e)
  {
  }

  lemma AtMiddle(p: string, m: string, y: string)
    ensures At(p + m + y, |p|, m)
  {
    assert (p + m + y)[|p| .. |p| + |m|] == m;
  }

  /** The marker and the rest of its line are wrapped in the question
      paragraph, whatever comes before the marker on that line. */
  lemma QuestionWrap(p: string, y: string)
    requires NoTerminator(p + MARKER + y)
    requires forall k :: 0 <= k < |p| ==> !At(p + MARKER + y, k, MARKER)
    ensures Questions(p + MARKER + y) == p + OPEN_QUESTION + MARKER + y + CLOSE_QUESTION
  {
    var s := p + MARKER + y;
    assert s[..|s|] == s;
    LineEndAt(s, |s|);
    AtMiddle(p, MARKER, y);
    FindFirst(s, MARKER, |p|);
    assert s[..|p|] == p && s[|p|..] == MARKER + y;
  }

  /** No occurrence of `pat` starts inside a prefix that lacks its first
      character. */
  lemma NotAtBefore(p: string, rest: string, pat: string)
    requires |pat| > 0 && forall i :: 0 <= i < |p| ==> p[i] != pat[0]
    ensures forall k :: 0 <= k < |p| ==> !At(p + rest, k, pat)
  {
    forall k | 0 <= k < |p| ensures !At(p + rest, k, pat) {
      assert (p + rest)[k] == p[k];
    }
  }

  lemma MarkerPlain()
    ensures NoStar(MARKER) && NoTerminator(MARKER) && MARKER[0] == 'D'
  {
  }

  lemma ItemTagsPlain()
    ensures NoStar("- ") && NoTerminator("- ")
    ensures NoTerminator("<li>") && NoTerminator("</li>")
    ensures forall i :: 0 <= i < |"<li>"| ==> "<li>"[i] != 'D'
  {
  }

  /** The first three passes on a listed question. */
  lemma ListedItem(y: string)
    requires NoStar(y) && NoTerminator(y)
    ensures ListItems(Italic(Bold("- " + MARKER + y))) == "<li>" + (MARKER + y) + "</li>"
  {
    var x := MARKER + y;
    assert "- " + MARKER + y == "- " + x;
    MarkerPlain();
    ItemTagsPlain();
    NoStarJoin(MARKER, y);
    NoStarJoin("- ", x);
    PairsPlain("- " + x, "**", "strong");
    PairsPlain("- " + x, "*", "em");
    NoTerminatorJoin(MARKER, y);
    ListLineOnly(x);
  }

  /** A discussion question written as a list item: the paragraph opens
      inside the list item and closes after it. */
  lemma ListedQuestion(y: string)
    requires NoStar(y) && NoTerminator(y)
    ensures FormatText("- " + MARKER + y)
      == "<li>" + OPEN_QUESTION + MARKER + y + "</li>" + CLOSE_QUESTION
  {
    ListedItem(y);
    var u := y + "</li>";
    assert "<li>" + (MARKER + y) + "</li>" == "<li>" + MARKER + u;
    MarkerPlain();
    ItemTagsPlain();
    NoTerminatorJoin(y, "</li>");
    NoTerminatorJoin(MARKER, u);
    NoTerminatorJoin("<li>", MARKER + u);
    assert "<li>" + MARKER + u == "<li>" + (MARKER + u);
    NotAtBefore("<li>", MARKER + u, MARKER);
    QuestionWrap("<li>", u);
    assert "<li>" + OPEN_QUESTION + MARKER + u + CLOSE_QUESTION
      == "<li>" + OPEN_QUESTION + MARKER + y + "</li>" + CLOSE_QUESTION;
  }

  // ---------------------------------------------------------------------
  // Expanded sections, tabs and titles
  // ---------------------------------------------------------------------

  /** `expandedSections[title]`: a title never toggled reads as undefined,
      which is falsy. */
  function Expanded(m: map<string, bool>, title: string): (b: bool)
    ensures b ==> title in m
  {
    title in m && m[title]
  }

  /** The new map `toggleSection` stores: the title's flag is the negation
      of its old reading, every other entry is kept. */
  function Toggle(m: map<string, bool>, title: string): (r: map<string, bool>)
    ensures r.Keys == m.Keys + {title}
    ensures Expanded(r, title) == !Expanded(m, title)
    ensures forall u :: u in m && u != title ==> r[u] == m[u]
  {
    m[title := !Expanded(m, title)]
  }

  /** Toggling a title leaves every other title as it was. */
  lemma ToggleOthers(m: map<string, bool>, title: string, other: string)
    requires other != title
    ensures Expanded(Toggle(m, title), other) == Expanded(m, other)
  {
  }

  /** Toggling the same title twice restores what every title reads as; the
      map itself comes back only if the title was in it before. */
  lemma ToggleTwice(m: map<string, bool>, title: string)
    ensures forall u :: Expanded(Toggle(Toggle(m, title), title), u) == Expanded(m, u)
    ensures title in m <==> Toggle(Toggle(m, title), title) == m
  {
    var r := Toggle(Toggle(m, title), title);
    if title in m {
      assert r.Keys == m.Keys;
      assert forall u :: u in m ==> r[u] == m[u];
    } else {
      assert title in r;
    }
  }

  /** The four tabs. */
  datatype Tab = ExecutiveTab | ChapterTab | SectionTab | BaseTab

  /** The summaries a tab lists. */
  function Summaries(content: ProcessedContent, tab: Tab): (r: seq<string>)
    ensures tab == ExecutiveTab ==> r == [content.executiveSummary]
    ensures tab == ChapterTab ==> r == content.chapterSummaries
    ensures tab == SectionTab ==> r == content.sectionSummaries
    ensures tab == BaseTab ==> r == content.baseSummaries
  {
    match tab
    case ExecutiveTab => [content.executiveSummary]
    case ChapterTab => content.chapterSummaries
    case SectionTab => content.sectionSummaries
    case BaseTab => content.baseSummaries
  }

  /** The heading of the `i`-th summary of a tab, numbered from 1. */
  function Title(tab: Tab, i: nat): string {
    match tab
    case ExecutiveTab => "Executive Summary"
    case ChapterTab => "Chapter " + NatToString(i + 1) + " Summary"
    case SectionTab => "Section " + NatToString(i + 1) + " Summary"
    case BaseTab => "Detailed Notes " + NatToString(i + 1)
  }

  lemma FirstChapterTitle()
    ensures Title(ChapterTab, 0) == "Chapter 1 Summary"
    ensures Title(BaseTab, 11) == "Detailed Notes 12"
  {
    assert NatToString(1) == "1";
    assert NatToString(12) == NatToString(1) + "2";
  }

  /** One summary as rendered: its heading, whether it is open, and the
      formatted body shown only when it is. */
  datatype Block = Block(title: string, expanded: bool, body: Option<string>)

  function Render(content: ProcessedContent, tab: Tab, m: map<string, bool>): (r: seq<Block>)
    ensures |r| == |Summaries(content, tab)|
    ensures forall i :: 0 <= i < |r| ==>
      && r[i].title == Title(tab, i)
      && r[i].expanded == Expanded(m, Title(tab, i))
      && (r[i].body.Some? <==> r[i].expanded)
      && (r[i].body.Some? ==> r[i].body.value == FormatText(Summaries(content, tab)[i]))
  {
    var items := Summaries(content, tab);
    seq(|items|, i requires 0 <= i < |items| =>
      var t := Title(tab, i);
      Block(t, Expanded(m, t), if Expanded(m, t) then Some(FormatText(items[i])) else None))
  }

  lemma MiddleEqual(a: string, x: string, y: string, b: string)
    requires a + x + b == a + y + b
    ensures x == y
  {
    assert |x| == |y|;
    assert x == (a + x + b)[|a| .. |a| + |x|];
    assert y == (a + y + b)[|a| .. |a| + |y|];
  }

  /** Within a tab, the headings are pairwise different. */
  lemma TitlesDistinct(tab: Tab, i: nat, j: nat)
    requires tab != ExecutiveTab && i != j
    ensures Title(tab, i) != Title(tab, j)
  {
    if Title(tab, i) == Title(tab, j) {
      var a := match tab
        case ChapterTab => "Chapter "
        case SectionTab => "Section "
        case _ => "Detailed Notes ";
      var b := if tab == BaseTab then "" else " Summary";
      assert a + NatToString(i + 1) + b == Title(tab, i);
      assert a + NatToString(j + 1) + b == Title(tab, j);
      MiddleEqual(a, NatToString(i + 1), NatToString(j + 1), b);
      NatToStringInjective(i + 1, j + 1);
    }
  }

  /** Headings of different tabs differ in their first character. */
  lemma TitlesDistinctAcrossTabs(t: Tab, i: nat, u: Tab, j: nat)
    requires t != u
    ensures Title(t, i) != Title(u, j)
  {
    assert Title(t, i)[0] != Title(u, j)[0];
  }

  /** Clicking a heading opens or closes that one block and no other, on
      any tab: the expanded map is shared, but headings never repeat. */
  lemma ToggleOneBlock(content: ProcessedContent, m: map<string, bool>, t: Tab, i: nat, u: Tab)
    requires i < |Summaries(content, t)|
    ensures var before, after := Render(content, u, m), Render(content, u, Toggle(m, Title(t, i)));
      && |after| == |before|
      && (forall j :: 0 <= j < |before| && (u != t || j != i) ==> after[j] == before[j])
      && (u == t ==> after[i].expanded == !before[i].expanded)
  {
    var title := Title(t, i);
    var before, after := Render(content, u, m), Render(content, u, Toggle(m, title));
    forall j | 0 <= j < |before| && (u != t || j != i)
      ensures after[j] == before[j]
    {
      if u != t {
        TitlesDistinctAcrossTabs(t, i, u, j);
        ToggleOthers(m, title, Title(u, j));
      } else if t != ExecutiveTab {
        TitlesDistinct(t, i, j);
        ToggleOthers(m, title, Title(u, j));
      } else {
        assert false;
      }
    }
  }

  /** The summary viewer. The content is the property it is given; the
      active tab and the expanded map are its state. */
  class NoteView {
    const content: ProcessedContent
    var activeTab: Tab
    var expandedSections: map<string, bool>

    /** What the panel shows. */
    function Blocks(): seq<Block>
      reads this
    {
      Render(content, activeTab, expandedSections)
    }

    /** The executive tab is active and every section is collapsed. */
    constructor (content: ProcessedContent)
      ensures this.content == content
      ensures activeTab == ExecutiveTab && expandedSections == map[]
      ensures Blocks() == [Block("Executive Summary", false, None)]
    {
      this.content := content;
      activeTab := ExecutiveTab;
      expandedSections := map[];
    }

    /** A tab button. */
    method SelectTab(tab: Tab)
      modifies this`activeTab
      ensures activeTab == tab
      ensures Blocks() == Render(content, tab, expandedSections)
    {
      activeTab := tab;
    }

    /** `toggleSection`: a click on a heading. */
    method ToggleSection(title: string)
      modifies this`expandedSections
      ensures expandedSections == Toggle(old(expandedSections), title)
      ensures Expanded(expandedSections, title) == !Expanded(old(expandedSections), title)
    {
      var flag := title in expandedSections && expandedSections[title];
      expandedSections := expandedSections[title := !flag];
    }
  }
}
