/**
 * How the chat window renders an assistant reply (`formatAssistantMessage` in
 * src/components/ChatInterface.tsx): the reply is split on `###Title###`
 * markers with the titles kept, empty pieces are dropped, and the remaining
 * pieces alternate by position between body text (even positions) and headings
 * (odd positions). Body text is rendered line by line, turning `- ` bullets and
 * `N. ` numbered lines into `<li>` items.
 */
module ReplyFormat {
  import opened Common
  import opened Strings

  /** The characters the regular-expression `.` does not match. */
  predicate IsLineTerminator(c: char)
  {
    c == '\n' || c == '\r' || c == '\U{2028}' || c == '\U{2029}'
  }

  /** `###` starts at position `j` of `s`. */
  predicate MarkerAt(s: string, j: int)
  {
    0 <= j && j + 3 <= |s| && s[j..j + 3] == "###"
  }

  /**
   * A title running from `lo` up to a closing `###` at `c`: at least one
   * character, none of them a line terminator.
   */
  predicate Closes(s: string, lo: int, c: int)
  {
    0 <= lo < c && MarkerAt(s, c) && forall k :: lo <= k < c ==> !IsLineTerminator(s[k])
  }

  /** The pattern `###(.+)###` matches `s` from `q` with its closing `###` at `c`. */
  predicate Matches(s: string, q: int, c: int)
  {
    MarkerAt(s, q) && Closes(s, q + 3, c)
  }

  /**
   * The lazy `.+?###` part of the pattern, with the title running from `lo`:
   * the nearest `c` past `lo` that is followed by `###` closes the title, and
   * a line terminator met before it makes the match fail.
   */
  function CloseFrom(s: string, lo: nat): (r: Option<nat>)
    ensures r.Some? ==> Closes(s, lo, r.value)
    ensures r.Some? ==> forall c :: lo < c < r.value ==> !MarkerAt(s, c)
    ensures r.None? ==> forall c :: !Closes(s, lo, c)
    decreases |s| - lo
  {
    if lo >= |s| || IsLineTerminator(s[lo]) then None
    else if MarkerAt(s, lo + 1) then Some(lo + 1)
    else
      var r := CloseFrom(s, lo + 1);
      assert forall c :: Closes(s, lo, c) && c != lo + 1 ==> Closes(s, lo + 1, c);
      assert r.Some? ==> Closes(s, lo, r.value);
      r
  }

  /**
   * A match of `###(.+?)###` starting at `q`: the position where its closing
   * `###` begins, which is the nearest one that closes a title, or `None` when
   * the pattern does not match at `q`.
   */
  function MatchAt(s: string, q: nat): (r: Option<nat>)
    ensures r.Some? ==> Matches(s, q, r.value) && q + 4 <= r.value
    ensures r.Some? ==> forall c :: Matches(s, q, c) ==> r.value <= c
    ensures r.None? ==> forall c :: !Matches(s, q, c)
  {
    if MarkerAt(s, q) then CloseFrom(s, q + 3) else None
  }

  /** A match: where its opening `###` starts and where its closing `###` starts. */
  datatype Found = Found(start: nat, close: nat)

  /** The leftmost match at or after `q`. */
  function FirstMatch(s: string, q: nat): (r: Option<Found>)
    ensures r.Some? ==> q <= r.value.start < |s| && MatchAt(s, r.value.start) == Some(r.value.close)
    ensures r.Some? ==> forall p :: q <= p < r.value.start ==> MatchAt(s, p).None?
    ensures r.None? ==> forall p :: q <= p < |s| ==> MatchAt(s, p).None?
    decreases |s| - q
  {
    if q >= |s| then None
    else
      match MatchAt(s, q)
      case Some(j) => Some(Found(q, j))
      case None => FirstMatch(s, q + 1)
  }

  /** A title piece: not empty, and on one line. */
  predicate IsTitle(t: string)
  {
    t != [] && forall k :: 0 <= k < |t| ==> !IsLineTerminator(t[k])
  }

  /**
   * `content.split(/###(.+?)###/)`: the text between matches at even
   * positions, each captured title at the odd position after it.
   */
  function SplitTitles(s: string): (pieces: seq<string>)
    ensures |pieces| % 2 == 1
    decreases |s|
  {
    var m := FirstMatch(s, 0);
    if m.None? then [s]
    else
      var q := m.value.start;
      var j := m.value.close;
      assert MatchAt(s, q) == Some(j);
      assert q + 4 <= j && j + 3 <= |s|;
      [s[..q], s[q + 3..j]] + SplitTitles(s[j + 3..])
  }

  /** Puts the markers back around every title piece. */
  function Rejoin(pieces: seq<string>): string
    requires |pieces| % 2 == 1
    decreases |pieces|
  {
    if |pieces| == 1 then pieces[0]
    else pieces[0] + "###" + pieces[1] + "###" + Rejoin(pieces[2..])
  }

  /** Every odd-position piece is a title. */
  predicate OddTitles(pieces: seq<string>)
  {
    forall i :: 0 <= i < |pieces| && i % 2 == 1 ==> IsTitle(pieces[i])
  }

  /** The text a match captures is a title. */
  lemma {:induction false} CapturedIsTitle(s: string, q: nat, j: nat)
    requires MatchAt(s, q) == Some(j)
    ensures IsTitle(s[q + 3..j])
  {
    var title := s[q + 3..j];
    forall k | 0 <= k < |title| ensures !IsLineTerminator(title[k]) {
      assert title[k] == s[q + 3 + k];
    }
  }

  lemma {:induction false} OddTitlesCons(a: string, t: string, rest: seq<string>)
    requires IsTitle(t) && OddTitles(rest)
    ensures OddTitles([a, t] + rest)
  {
    var pieces := [a, t] + rest;
    forall i | 0 <= i < |pieces| && i % 2 == 1 ensures IsTitle(pieces[i]) {
      if i > 1 {
        assert pieces[i] == rest[i - 2];
      }
    }
  }

  /** Every odd-position piece of the split is a captured title: non-empty and on one line. */
  lemma {:induction false} SplitTitlesTitles(s: string)
    ensures OddTitles(SplitTitles(s))
    decreases |s|
  {
    var m := FirstMatch(s, 0);
    if m.Some? {
      var q, j := m.value.start, m.value.close;
      SplitTitlesStep(s, q, j);
      var rest := s[j + 3..];
      var title := s[q + 3..j];
      assert IsTitle(title) by {
        CapturedIsTitle(s, q, j);
      }
      assert OddTitles(SplitTitles(rest)) by {
        SplitTitlesTitles(rest);
      }
      OddTitlesCons(s[..q], title, SplitTitles(rest));
    }
  }

  /** Proof helper: one step of the split, the text before the first match, its title, then the split of the rest. */
  lemma {:induction false} SplitTitlesStep(s: string, q: nat, j: nat)
    requires FirstMatch(s, 0) == Some(Found(q, j))
    ensures MatchAt(s, q) == Some(j) && q + 4 <= j && j + 3 <= |s|
    ensures SplitTitles(s) == [s[..q], s[q + 3..j]] + SplitTitles(s[j + 3..])
  {
    assert MatchAt(s, q) == Some(j);
    assert q + 4 <= j && j + 3 <= |s|;
  }

  lemma {:induction false} MarkersAround(s: string, q: nat, j: nat)
    requires MarkerAt(s, q) && MarkerAt(s, j) && q + 3 <= j
    ensures s == s[..q] + "###" + s[q + 3..j] + "###" + s[j + 3..]
  {
    assert s == s[..q] + s[q..q + 3] + s[q + 3..j] + s[j..j + 3] + s[j + 3..];
  }

  lemma {:induction false} RejoinCons(a: string, t: string, rest: seq<string>)
    requires |rest| % 2 == 1
    ensures Rejoin([a, t] + rest) == a + "###" + t + "###" + Rejoin(rest)
  {
    assert ([a, t] + rest)[2..] == rest;
  }

  /** Splitting loses nothing: the pieces with their markers restored are the reply. */
  lemma {:induction false} RejoinSplitTitles(s: string)
    ensures Rejoin(SplitTitles(s)) == s
    decreases |s|
  {
    var m := FirstMatch(s, 0);
    if m.Some? {
      var q, j := m.value.start, m.value.close;
      assert MatchAt(s, q) == Some(j);
      var rest := s[j + 3..];
      RejoinSplitTitles(rest);
      RejoinCons(s[..q], s[q + 3..j], SplitTitles(rest));
      MarkersAround(s, q, j);
    }
  }

  /** `.filter(Boolean)`: drops the empty pieces and keeps the others in order. */
  function NonEmpty(pieces: seq<string>): (r: seq<string>)
    ensures |r| <= |pieces|
    ensures forall i :: 0 <= i < |r| ==> r[i] != [] && r[i] in pieces
    ensures (forall i :: 0 <= i < |pieces| ==> pieces[i] != []) ==> r == pieces
  {
    if pieces == [] then []
    else (if pieces[0] == [] then [] else [pieces[0]]) + NonEmpty(pieces[1..])
  }

  /** Filtering keeps every non-empty piece as many times as it occurs, and only those. */
  lemma {:induction false} NonEmptyCounts(pieces: seq<string>)
    ensures forall x :: x != [] ==> multiset(NonEmpty(pieces))[x] == multiset(pieces)[x]
    ensures multiset(NonEmpty(pieces))[[]] == 0
    decreases |pieces|
  {
    if pieces != [] {
      var head: seq<string> := if pieces[0] == [] then [] else [pieces[0]];
      var rest := NonEmpty(pieces[1..]);
      NonEmptyCounts(pieces[1..]);
      assert multiset(pieces) == multiset([pieces[0]]) + multiset(pieces[1..]) by {
        assert pieces == [pieces[0]] + pieces[1..];
      }
      assert NonEmpty(pieces) == head + rest;
      assert multiset(head + rest) == multiset(head) + multiset(rest);
    }
  }

  /** Dropping empty pieces distributes over concatenation. */
  lemma {:induction false} NonEmptyAppend(a: seq<string>, b: seq<string>)
    ensures NonEmpty(a + b) == NonEmpty(a) + NonEmpty(b)
    decreases |a|
  {
    if a == [] {
      assert a + b == b;
    } else {
      var head: seq<string> := if a[0] == [] then [] else [a[0]];
      calc {
        NonEmpty(a + b);
      == { assert (a + b)[0] == a[0] && (a + b)[1..] == a[1..] + b; }
        head + NonEmpty(a[1..] + b);
      == { NonEmptyAppend(a[1..], b); }
        head + (NonEmpty(a[1..]) + NonEmpty(b));
      ==
        (head + NonEmpty(a[1..])) + NonEmpty(b);
      }
    }
  }

  /** One rendered section of a reply. */
  datatype Block = Body(html: string) | Heading(text: string)

  function ListItem(text: string): string
  {
    "<li class=\"ml-4\">" + text + "</li>"
  }

  /** The number of decimal digits at the start of `s`. */
  function LeadingDigits(s: string): (k: nat)
    ensures k <= |s|
    ensures forall i :: 0 <= i < k ==> '0' <= s[i] <= '9'
    ensures k < |s| ==> !('0' <= s[k] <= '9')
  {
    if s != [] && '0' <= s[0] <= '9' then 1 + LeadingDigits(s[1..]) else 0
  }

  /** `t.startsWith('- ')`. */
  predicate IsBullet(t: string)
  {
    |t| >= 2 && t[0] == '-' && t[1] == ' '
  }

  /** `/^\d+\.\s/`: one or more digits, a dot, then a white-space character. */
  predicate IsNumbered(t: string)
  {
    var k := LeadingDigits(t);
    k >= 1 && k + 2 <= |t| && t[k] == '.' && IsSpace(t[k + 1])
  }

  /**
   * One body line: a trimmed line starting with `- ` becomes a list item of the
   * rest of the trimmed line; otherwise a numbered line becomes a list item of
   * the trimmed line from one past the first space of the UNtrimmed line;
   * every other line is kept as it is.
   */
  function RenderLine(line: string): (r: string)
    ensures !IsBullet(Trim(line)) && !IsNumbered(Trim(line)) ==> r == line
  {
    var t := Trim(line);
    if IsBullet(t) then ListItem(t[2..])
    else if IsNumbered(t) then ListItem(SubstringFrom(t, IndexOf(line, ' ') + 1))
    else line
  }

  /** Rendering never breaks a line: a line without a line feed renders without one. */
  lemma {:induction false} RenderLineOneLine(line: string)
    requires '\n' !in line
    ensures '\n' !in RenderLine(line)
  {
    var t := Trim(line);
    TrimKeepsAbsent(line, '\n');
    if IsBullet(t) {
      assert '\n' !in t[2..];
      ListItemOneLine(t[2..]);
    } else if IsNumbered(t) {
      var item := SubstringFrom(t, IndexOf(line, ' ') + 1);
      assert '\n' !in item;
      ListItemOneLine(item);
    }
  }

  lemma {:induction false} ListItemOneLine(text: string)
    requires '\n' !in text
    ensures '\n' !in ListItem(text)
  {
    var open, close := "<li class=\"ml-4\">", "</li>";
    assert '\n' !in open && '\n' !in close;
    assert ListItem(text) == open + text + close;
  }

  function MapLines(lines: seq<string>): (r: seq<string>)
    ensures |r| == |lines|
    ensures forall i :: 0 <= i < |lines| ==> r[i] == RenderLine(lines[i])
  {
    if lines == [] then [] else [RenderLine(lines[0])] + MapLines(lines[1..])
  }

  /**
   * A body piece: split into lines, each line rendered, joined back with line
   * feeds. A piece of one line is that line rendered; `BodyKeepsLines` gives
   * the general case.
   */
  function ProcessBody(section: string): (body: string)
    ensures '\n' !in section ==> body == RenderLine(section)
  {
    var lines := Split(section, '\n');
    if '\n' in section then Join(MapLines(lines), "\n")
    else SplitNoSeparator(section, '\n'); Join(MapLines(lines), "\n")
  }

  /** The rendered reply: the non-empty pieces, bodies at even positions and headings at odd ones. */
  function FormatReply(content: string): (blocks: seq<Block>)
    ensures |blocks| == |NonEmpty(SplitTitles(content))|
  {
    Blocks(NonEmpty(SplitTitles(content)))
  }

  /** The sections in order, bodies at even positions and headings at odd ones. */
  function Blocks(sections: seq<string>): (blocks: seq<Block>)
    ensures |blocks| == |sections|
    ensures forall i :: 0 <= i < |sections| && i % 2 == 0 ==> blocks[i] == Body(ProcessBody(sections[i]))
    ensures forall i :: 0 <= i < |sections| && i % 2 == 1 ==> blocks[i] == Heading(sections[i])
  {
    seq(|sections|, i requires 0 <= i < |sections| =>
      if i % 2 == 0 then Body(ProcessBody(sections[i])) else Heading(sections[i]))
  }

  /** Rendering a body keeps its lines: same count, line `i` of the output is line `i` rendered. */
  lemma {:induction false} BodyKeepsLines(section: string)
    ensures |Split(ProcessBody(section), '\n')| == |Split(section, '\n')|
    ensures forall i :: 0 <= i < |Split(section, '\n')| ==>
      Split(ProcessBody(section), '\n')[i] == RenderLine(Split(section, '\n')[i])
  {
    var source := Split(section, '\n');
    var lines := MapLines(source);
    forall i | 0 <= i < |lines| ensures '\n' !in lines[i] {
      RenderLineOneLine(source[i]);
    }
    SplitJoin(lines, '\n');
  }

  /** Every block comes from a non-empty piece, and a block at an odd position is always a heading. */
  lemma {:induction false} BlocksByPosition(content: string)
    ensures forall i :: 0 <= i < |FormatReply(content)| ==>
      (FormatReply(content)[i].Heading? <==> i % 2 == 1)
    ensures forall i :: 0 <= i < |FormatReply(content)| && i % 2 == 1 ==>
      FormatReply(content)[i].text in SplitTitles(content) && FormatReply(content)[i].text != []
  {
  }

  /**
   * When no piece is empty (the reply starts with text and no two markers
   * touch), positions are not shifted: every heading is one of the captured titles.
   */
  lemma {:induction false} HeadingsAreTitlesWhenNoPieceEmpty(content: string)
    requires forall i :: 0 <= i < |SplitTitles(content)| ==> SplitTitles(content)[i] != []
    ensures |FormatReply(content)| == |SplitTitles(content)|
    ensures forall i :: 0 <= i < |FormatReply(content)| && i % 2 == 0 ==>
      FormatReply(content)[i] == Body(ProcessBody(SplitTitles(content)[i]))
    ensures forall i :: 0 <= i < |FormatReply(content)| && i % 2 == 1 ==>
      FormatReply(content)[i] == Heading(SplitTitles(content)[i]) && IsTitle(SplitTitles(content)[i])
  {
    SplitTitlesTitles(content);
  }

  /** With no `###` at or after `q`, there is no match there. */
  lemma {:induction false} NoMarkerNoMatch(s: string, q: nat)
    requires forall k :: q <= k < |s| ==> !MarkerAt(s, k)
    ensures FirstMatch(s, q).None?
    decreases |s| - q
  {
    if q < |s| {
      assert MatchAt(s, q).None?;
      NoMarkerNoMatch(s, q + 1);
    }
  }

  /** A reply without any marker is one body (or nothing when the reply is empty). */
  lemma {:induction false} NoMarkerOneBody(content: string)
    requires forall k :: 0 <= k < |content| ==> !MarkerAt(content, k)
    ensures FormatReply(content) == if content == [] then [] else [Body(ProcessBody(content))]
  {
    NoMarkerNoMatch(content, 0);
    assert SplitTitles(content) == [content];
    assert NonEmpty([content]) == (if content == [] then [] else [content]);
  }

  /** When no match starts before `m` and one starts at `m`, it is the leftmost. */
  lemma {:induction false} FirstMatchIs(s: string, m: nat, c: nat)
    requires m < |s| && MatchAt(s, m) == Some(c)
    requires forall p :: 0 <= p < m ==> MatchAt(s, p).None?
    ensures FirstMatch(s, 0) == Some(Found(m, c))
  {
    var r := FirstMatch(s, 0);
    assert r.Some?;
    assert r.value.start == m;
  }

  /** A one-line title without `#` between two markers is matched up to its closing marker. */
  lemma {:induction false} MatchAtTitle(s: string, q: nat, t: string)
    requires '#' !in t && IsTitle(t)
    requires q + 6 + |t| <= |s| && s[q + 3..q + 3 + |t|] == t
    requires MarkerAt(s, q) && MarkerAt(s, q + 3 + |t|)
    ensures MatchAt(s, q) == Some(q + 3 + |t|)
  {
    var j := q + 3 + |t|;
    forall k | q + 3 <= k < j ensures !IsLineTerminator(s[k]) && s[k] != '#' {
      assert s[k] == t[k - q - 3];
    }
    assert Matches(s, q, j);
    var c := MatchAt(s, q).value;
    assert c <= j;
    assert s[c] == '#' by { assert s[c..c + 3][0] == '#'; }
  }

  /** A reply that opens with a marked title splits into an empty piece, the title, then the split of the rest. */
  lemma {:induction false} SplitLeadingTitle(t: string, rest: string)
    requires '#' !in t && IsTitle(t)
    ensures SplitTitles("###" + t + "###" + rest) == ["", t] + SplitTitles(rest)
  {
    var s := "###" + t + "###" + rest;
    var j := 3 + |t|;
    assert s[..0] == "" && s[3..j] == t && s[j + 3..] == rest;
    assert MarkerAt(s, 0) by { assert s[0..3] == "###"; }
    assert MarkerAt(s, j) by { assert s[j..j + 3] == "###"; }
    MatchAtTitle(s, 0, t);
    FirstMatchIs(s, 0, j);
    SplitTitlesStep(s, 0, j);
  }

  /**
   * A title between markers, after text without `#`: the split is that text,
   * the title, then the split of whatever follows the closing marker.
   */
  lemma {:induction false} SplitMiddleTitle(a: string, t: string, b: string)
    requires '#' !in a && '#' !in t && IsTitle(t)
    ensures SplitTitles(a + "###" + t + "###" + b) == [a, t] + SplitTitles(b)
  {
    var s := a + "###" + t + "###" + b;
    var q, j := |a|, |a| + 3 + |t|;
    assert s[..q] == a && s[q + 3..j] == t && s[j + 3..] == b;
    forall p | 0 <= p < q ensures MatchAt(s, p).None? {
      assert s[p] == a[p];
    }
    assert MarkerAt(s, q) by { assert s[q..q + 3] == "###"; }
    assert MarkerAt(s, j) by { assert s[j..j + 3] == "###"; }
    MatchAtTitle(s, q, t);
    FirstMatchIs(s, q, j);
    SplitTitlesStep(s, q, j);
  }

  /** `before ###title### after`, with no `#` in any of the three, splits into exactly those three pieces. */
  lemma {:induction false} SplitOneTitle(before: string, t: string, after: string)
    requires '#' !in before && '#' !in t && '#' !in after && IsTitle(t)
    ensures SplitTitles(before + "###" + t + "###" + after) == [before, t, after]
  {
    SplitMiddleTitle(before, t, after);
    forall k | 0 <= k < |after| ensures !MarkerAt(after, k) {
      assert after[k] != '#';
    }
    NoMarkerNoMatch(after, 0);
  }

  /** Two marked titles with nothing between them split into two titles among empty pieces. */
  lemma {:induction false} SplitAdjacentTitles(t1: string, t2: string)
    requires '#' !in t1 && '#' !in t2 && IsTitle(t1) && IsTitle(t2)
    ensures SplitTitles("###" + t1 + "######" + t2 + "###") == ["", t1, "", t2, ""]
  {
    var second := "###" + t2 + "###";
    assert SplitTitles("###" + t1 + "######" + t2 + "###") == ["", t1] + SplitTitles(second) by {
      AdjacentMarkers(t1, t2);
      SplitLeadingTitle(t1, second);
    }
    assert SplitTitles(second) == ["", t2, ""] by {
      assert second == "###" + t2 + "###" + "";
      SplitLeadingTitle(t2, "");
      assert SplitTitles("") == [""];
    }
    assert ["", t1] + ["", t2, ""] == ["", t1, "", t2, ""];
  }

  lemma {:induction false} AdjacentMarkers(t1: string, t2: string)
    ensures "###" + t1 + "######" + t2 + "###" == "###" + t1 + "###" + ("###" + t2 + "###")
  {
    assert "######" == "###" + "###";
  }

  /**
   * Two titles with nothing between them leave empty pieces that are dropped:
   * the first title renders as body text and the second as a heading.
   */
  lemma {:induction false} AdjacentTitles(t1: string, t2: string)
    requires '#' !in t1 && '#' !in t2 && IsTitle(t1) && IsTitle(t2)
    ensures FormatReply("###" + t1 + "######" + t2 + "###") == [Body(ProcessBody(t1)), Heading(t2)]
  {
    var s := "###" + t1 + "######" + t2 + "###";
    assert NonEmpty(SplitTitles(s)) == [t1, t2] by {
      SplitAdjacentTitles(t1, t2);
      NonEmptyBetweenGaps(t1, t2);
    }
    FormatTwoSections(s, t1, t2);
  }

  /** Two non-empty pieces render as a body followed by a heading. */
  lemma {:induction false} FormatTwoSections(content: string, x: string, y: string)
    requires NonEmpty(SplitTitles(content)) == [x, y]
    ensures FormatReply(content) == [Body(ProcessBody(x)), Heading(y)]
  {
    assert FormatReply(content) == Blocks([x, y]);
    BlocksPair(x, y);
  }

  lemma {:induction false} BlocksPair(x: string, y: string)
    ensures Blocks([x, y]) == [Body(ProcessBody(x)), Heading(y)]
  {
    var blocks := Blocks([x, y]);
    assert blocks[0] == Body(ProcessBody(x));
    assert blocks[1] == Heading(y);
  }

  lemma {:induction false} NonEmptyBetweenGaps(t1: string, t2: string)
    requires t1 != [] && t2 != []
    ensures NonEmpty(["", t1, "", t2, ""]) == [t1, t2]
  {
    var gap: seq<string> := [""];
    assert NonEmpty(gap) == [] by { assert gap[1..] == []; }
    assert NonEmpty([t1]) == [t1] && NonEmpty([t2]) == [t2];
    assert ["", t1, "", t2, ""] == gap + [t1] + gap + [t2] + gap;
    NonEmptyAppend(gap + [t1] + gap + [t2], gap);
    NonEmptyAppend(gap + [t1] + gap, [t2]);
    NonEmptyAppend(gap + [t1], gap);
    NonEmptyAppend(gap, [t1]);
  }

  /**
   * Dropping empty pieces shifts positions: a reply that begins with a marker
   * renders its first title as BODY text, and the text after it as a heading.
   */
  lemma {:induction false} LeadingTitleRendersAsBody(t: string, rest: string)
    requires IsTitle(t) && '#' !in t
    ensures |FormatReply("###" + t + "###" + rest)| >= 1
    ensures FormatReply("###" + t + "###" + rest)[0] == Body(ProcessBody(t))
    ensures rest != [] && (forall k :: 0 <= k < |rest| ==> !MarkerAt(rest, k)) ==>
      FormatReply("###" + t + "###" + rest) == [Body(ProcessBody(t)), Heading(rest)]
  {
    var s := "###" + t + "###" + rest;
    assert NonEmpty(SplitTitles(s)) == [t] + NonEmpty(SplitTitles(rest)) by {
      LeadingTitleSections(t, rest);
    }
    FormatFirstSection(s, t, NonEmpty(SplitTitles(rest)));
    if rest != [] && (forall k :: 0 <= k < |rest| ==> !MarkerAt(rest, k)) {
      assert NonEmpty(SplitTitles(s)) == [t, rest] by {
        NoMarkerOneSection(rest);
      }
      FormatTwoSections(s, t, rest);
    }
  }

  lemma {:induction false} LeadingTitleSections(t: string, rest: string)
    requires IsTitle(t) && '#' !in t
    ensures NonEmpty(SplitTitles("###" + t + "###" + rest)) == [t] + NonEmpty(SplitTitles(rest))
  {
    SplitLeadingTitle(t, rest);
    NonEmptyAfterGap(t, SplitTitles(rest));
  }

  lemma {:induction false} NoMarkerOneSection(rest: string)
    requires rest != [] && forall k :: 0 <= k < |rest| ==> !MarkerAt(rest, k)
    ensures NonEmpty(SplitTitles(rest)) == [rest]
  {
    NoMarkerNoMatch(rest, 0);
    assert SplitTitles(rest) == [rest];
    assert NonEmpty([rest]) == [rest];
  }

  /** The first non-empty piece renders as a body. */
  lemma {:induction false} FormatFirstSection(content: string, x: string, xs: seq<string>)
    requires NonEmpty(SplitTitles(content)) == [x] + xs
    ensures |FormatReply(content)| >= 1 && FormatReply(content)[0] == Body(ProcessBody(x))
  {
  }

  /** An empty piece is dropped and the non-empty piece after it kept. */
  lemma {:induction false} NonEmptyAfterGap(t: string, xs: seq<string>)
    requires t != []
    ensures NonEmpty(["", t] + xs) == [t] + NonEmpty(xs)
  {
    var pieces := ["", t] + xs;
    assert pieces[1..] == [t] + xs;
    assert pieces[1..][1..] == xs;
  }

  /** Proof helper: a numbered line is rendered from its trimmed form and the first space of the line as written. */
  lemma {:induction false} RenderNumbered(line: string)
    requires !IsBullet(Trim(line)) && IsNumbered(Trim(line))
    ensures RenderLine(line) == ListItem(SubstringFrom(Trim(line), IndexOf(line, ' ') + 1))
  {
  }

  /** In `N. text` the first space is the one after the dot. */
  lemma {:induction false} FirstSpaceAfterNumber(digits: string, text: string)
    requires forall i :: 0 <= i < |digits| ==> '0' <= digits[i] <= '9'
    ensures IndexOf(digits + ". " + text, ' ') == |digits| + 1
  {
    var line := digits + ". " + text;
    assert line[|digits| + 1] == ' ';
    forall i | 0 <= i < |digits| + 1 ensures line[i] != ' ' {
      if i < |digits| { assert line[i] == digits[i]; }
    }
    assert ' ' !in line[..|digits| + 1];
  }

  /**
   * A numbered line holding no space at all, such as `"1.\tStep"`, keeps its
   * marker: with no space the cut falls at the start of the trimmed line.
   */
  lemma {:induction false} SpacelessNumberKeepsMarker(line: string)
    requires ' ' !in line
    requires IsNumbered(Trim(line)) && !IsBullet(Trim(line))
    ensures RenderLine(line) == ListItem(Trim(line))
  {
    assert IndexOf(line, ' ') == -1;
  }

  /** A trimmed numbered line `N. text` renders as a list item of `text`. */
  lemma {:induction false} NumberedLineDropsMarker(digits: string, text: string)
    requires |digits| >= 1 && forall i :: 0 <= i < |digits| ==> '0' <= digits[i] <= '9'
    requires IsTrimmed(text) && text != []
    ensures RenderLine(digits + ". " + text) == ListItem(text)
  {
    var line := digits + ". " + text;
    var k := |digits| + 1;
    assert IsNumbered(line) && !IsBullet(line) by {
      assert line == digits + (". " + text);
      LeadingDigitsPrefix(digits, ". " + text);
    }
    assert IsTrimmed(line) by {
      assert line[0] == digits[0] && line[|line| - 1] == text[|text| - 1];
    }
    assert IndexOf(line, ' ') == k by {
      FirstSpaceAfterNumber(digits, text);
    }
    assert line[k + 1..] == text;
    TrimTrimmed(line);
    RenderTrimmedNumbered(line);
  }

  /** Proof helper: a numbered line with no white space around it is cut one past its first space. */
  lemma {:induction false} RenderTrimmedNumbered(line: string)
    requires Trim(line) == line && !IsBullet(line) && IsNumbered(line)
    ensures RenderLine(line) == ListItem(SubstringFrom(line, IndexOf(line, ' ') + 1))
  {
  }

  lemma {:induction false} LeadingDigitsPrefix(digits: string, rest: string)
    requires forall i :: 0 <= i < |digits| ==> '0' <= digits[i] <= '9'
    requires rest != [] && !('0' <= rest[0] <= '9')
    ensures LeadingDigits(digits + rest) == |digits|
  {
    if digits != [] {
      assert (digits + rest)[1..] == digits[1..] + rest;
      LeadingDigitsPrefix(digits[1..], rest);
    } else {
      assert digits + rest == rest;
    }
  }

  /**
   * The numbered rule takes its cut position from the untrimmed line: when the
   * line is indented with a space, only the first digit is cut, so `  1. Step`
   * renders as a list item of `. Step`.
   */
  lemma {:induction false} IndentedNumberKeepsDot(indent: string, digits: string, text: string)
    requires |indent| >= 1 && indent[0] == ' ' && AllSpace(indent)
    requires |digits| >= 1 && forall i :: 0 <= i < |digits| ==> '0' <= digits[i] <= '9'
    requires IsTrimmed(text) && text != []
    ensures RenderLine(indent + digits + ". " + text) == ListItem(digits[1..] + ". " + text)
  {
    IndentedNumberCut(indent, digits, text);
    DropFirstOfThree(digits, ". ", text);
  }

  /** Proof helper: under a space-led indent the numbered line is cut one character in. */
  lemma {:induction false} IndentedNumberCut(indent: string, digits: string, text: string)
    requires |indent| >= 1 && indent[0] == ' ' && AllSpace(indent)
    requires |digits| >= 1 && forall i :: 0 <= i < |digits| ==> '0' <= digits[i] <= '9'
    requires IsTrimmed(text) && text != []
    ensures RenderLine(indent + digits + ". " + text) == ListItem(SubstringFrom(digits + ". " + text, 1))
  {
    IndentedNumberedLine(indent, digits, text);
    RenderNumbered(indent + digits + ". " + text);
  }

  /** Proof helper: a space-led indent in front of `N. text` trims away and holds the first space. */
  lemma {:induction false} IndentedNumberedLine(indent: string, digits: string, text: string)
    requires |indent| >= 1 && indent[0] == ' ' && AllSpace(indent)
    requires |digits| >= 1 && forall i :: 0 <= i < |digits| ==> '0' <= digits[i] <= '9'
    requires IsTrimmed(text) && text != []
    ensures Trim(indent + digits + ". " + text) == digits + ". " + text
    ensures IsNumbered(digits + ". " + text) && !IsBullet(digits + ". " + text)
    ensures IndexOf(indent + digits + ". " + text, ' ') == 0
  {
    var u := ". " + text;
    var t := digits + u;
    var line := indent + t;
    assert indent + digits + ". " + text == line && digits + ". " + text == t;
    assert IsNumbered(t) && t[0] != '-' by {
      LeadingDigitsPrefix(digits, u);
    }
    assert Trim(line) == t by {
      assert t[0] == digits[0] && t[|t| - 1] == text[|text| - 1];
      TrimPadded(indent, t);
    }
    assert line[0] == ' ';
  }

  /**
   * An indent without any space character (tabs, say) moves the first space of
   * the line to after the dot, so the cut falls `|indent|` characters into the
   * text: `"\t1. Step"` renders as a list item of `"tep"`.
   */
  lemma {:induction false} SpacelessIndentCutsText(indent: string, digits: string, text: string)
    requires |indent| >= 1 && AllSpace(indent) && ' ' !in indent
    requires |digits| >= 1 && forall i :: 0 <= i < |digits| ==> '0' <= digits[i] <= '9'
    requires IsTrimmed(text) && text != []
    ensures |indent| <= |text| ==> RenderLine(indent + digits + ". " + text) == ListItem(text[|indent|..])
    ensures |indent| > |text| ==> RenderLine(indent + digits + ". " + text) == ListItem([])
  {
    var t := digits + ". " + text;
    var cut := SubstringFrom(t, |indent| + |digits| + 2);
    SpacelessIndentCut(indent, digits, text);
    if |indent| <= |text| {
      assert cut == text[|indent|..];
    } else {
      assert |indent| + |digits| + 2 > |t|;
      assert cut == [];
    }
  }

  /** Proof helper: under an indent without spaces, the cut falls one past the space after the dot. */
  lemma {:induction false} SpacelessIndentCut(indent: string, digits: string, text: string)
    requires AllSpace(indent) && ' ' !in indent
    requires |digits| >= 1 && forall i :: 0 <= i < |digits| ==> '0' <= digits[i] <= '9'
    requires IsTrimmed(text) && text != []
    ensures RenderLine(indent + digits + ". " + text)
         == ListItem(SubstringFrom(digits + ". " + text, |indent| + |digits| + 2))
  {
    var line := indent + digits + ". " + text;
    var t := digits + ". " + text;
    assert RenderLine(line) == ListItem(SubstringFrom(t, IndexOf(line, ' ') + 1)) by {
      NumberedUnderIndent(indent, digits, text);
      RenderNumbered(line);
    }
    assert IndexOf(line, ' ') == |indent| + |digits| + 1 by {
      FirstSpaceAfterPrefix(indent + digits, text);
    }
  }

  /** Proof helper: an indented `N. text` line trims to `N. text`, which is numbered and not a bullet. */
  lemma {:induction false} NumberedUnderIndent(indent: string, digits: string, text: string)
    requires AllSpace(indent)
    requires |digits| >= 1 && forall i :: 0 <= i < |digits| ==> '0' <= digits[i] <= '9'
    requires IsTrimmed(text) && text != []
    ensures Trim(indent + digits + ". " + text) == digits + ". " + text
    ensures IsNumbered(digits + ". " + text) && !IsBullet(digits + ". " + text)
  {
    var u := ". " + text;
    var t := digits + u;
    assert indent + digits + ". " + text == indent + t && digits + ". " + text == t;
    assert IsNumbered(t) && t[0] != '-' by {
      LeadingDigitsPrefix(digits, u);
    }
    assert t[0] == digits[0] && t[|t| - 1] == text[|text| - 1];
    TrimPadded(indent, t);
  }

  /** In `p. text` with no space in `p`, the first space is the one after the dot. */
  lemma {:induction false} FirstSpaceAfterPrefix(prefix: string, text: string)
    requires ' ' !in prefix
    ensures IndexOf(prefix + ". " + text, ' ') == |prefix| + 1
  {
    var line := prefix + ". " + text;
    assert line[|prefix| + 1] == ' ';
    forall i | 0 <= i < |prefix| + 1 ensures line[i] != ' ' {
      if i < |prefix| { assert line[i] == prefix[i]; }
    }
  }

  lemma {:induction false} DropFirstOfThree(d: string, a: string, b: string)
    requires |d| >= 1
    ensures (d + a + b)[1..] == d[1..] + a + b
  {
    assert (d + a + b)[1..] == (d + (a + b))[1..];
    DropFirst(d, a + b);
  }

  lemma {:induction false} DropFirst(d: string, rest: string)
    requires |d| >= 1
    ensures (d + rest)[1..] == d[1..] + rest
  {
  }

  /** A bullet line, indented or not, renders as a list item of the text after `- `. */
  lemma {:induction false} BulletLineDropsMarker(indent: string, text: string)
    requires AllSpace(indent) && IsTrimmed(text) && text != []
    ensures RenderLine(indent + "- " + text) == ListItem(text)
  {
    var t := "- " + text;
    assert indent + "- " + text == indent + t;
    assert Trim(indent + t) == t by {
      assert t[0] == '-' && t[|t| - 1] == text[|text| - 1];
      TrimPadded(indent, t);
    }
    assert IsBullet(t) && t[2..] == text;
  }

  /** The bullet rule is tried first: a bullet whose text is itself numbered, `- 1. eggs`, keeps its number. */
  lemma {:induction false} BulletWinsOverNumber(indent: string, digits: string, text: string)
    requires AllSpace(indent)
    requires |digits| >= 1 && forall i :: 0 <= i < |digits| ==> '0' <= digits[i] <= '9'
    requires IsTrimmed(text) && text != []
    ensures IsNumbered(digits + ". " + text)
    ensures RenderLine(indent + "- " + (digits + ". " + text)) == ListItem(digits + ". " + text)
  {
    var item := digits + ". " + text;
    assert IsNumbered(item) by {
      assert item == digits + (". " + text);
      LeadingDigitsPrefix(digits, ". " + text);
    }
    assert IsTrimmed(item) by {
      assert item[0] == digits[0] && item[|item| - 1] == text[|text| - 1];
    }
    BulletLineDropsMarker(indent, item);
  }
}
