/**
 * The comma-separated text fields that edit a list of strings, on the
 * settings page (src/app/settings/page.tsx) and in the onboarding wizard's
 * allergies field (src/components/OnboardingModal.tsx): the list is shown as
 * its items joined by `", "`, and typed text is read back by splitting on
 * commas, trimming each piece and dropping the empty ones.
 */
module CommaList {
  import opened Common
  import opened Strings

  /** An item as parsing produces it: not empty, trimmed, and free of commas. */
  predicate GoodItem(item: string)
  {
    item != [] && IsTrimmed(item) && ',' !in item
  }

  /** `.map(s => s.trim()).filter(Boolean)`. */
  function CleanItems(pieces: seq<string>): (items: seq<string>)
    ensures |items| <= |pieces|
    ensures forall i :: 0 <= i < |items| ==> items[i] != [] && IsTrimmed(items[i])
  {
    if pieces == [] then []
    else
      var t := Trim(pieces[0]);
      var rest := CleanItems(pieces[1..]);
      if t == [] then rest else [t] + rest
  }

  /** Trimming adds no commas: comma-free pieces give comma-free items. */
  lemma {:induction false} CleanItemsNoComma(pieces: seq<string>)
    requires forall i :: 0 <= i < |pieces| ==> ',' !in pieces[i]
    ensures forall i :: 0 <= i < |CleanItems(pieces)| ==> ',' !in CleanItems(pieces)[i]
    decreases |pieces|
  {
    if pieces != [] {
      var tail := pieces[1..];
      var t := Trim(pieces[0]);
      var rest := CleanItems(tail);
      assert forall i :: 0 <= i < |rest| ==> ',' !in rest[i] by {
        forall i | 0 <= i < |tail| ensures ',' !in tail[i] {
          assert tail[i] == pieces[i + 1];
        }
        CleanItemsNoComma(tail);
      }
      assert ',' !in t by {
        TrimKeepsAbsent(pieces[0], ',');
      }
      assert CleanItems(pieces) == if t == [] then rest else [t] + rest;
      if t != [] {
        forall i | 0 <= i < |[t] + rest| ensures ',' !in ([t] + rest)[i] {
          if i > 0 { assert ([t] + rest)[i] == rest[i - 1]; }
        }
      }
    }
  }

  /** `text.split(',').map(s => s.trim()).filter(Boolean)`. */
  function Parse(text: string): (items: seq<string>)
    ensures forall i :: 0 <= i < |items| ==> GoodItem(items[i])
  {
    CleanItemsNoComma(Split(text, ','));
    CleanItems(Split(text, ','))
  }

  /** `xs?.join(', ') || ''`. */
  function Render(xs: Option<seq<string>>): (text: string)
    ensures xs.None? ==> text == []
    ensures xs.Some? ==> text == Join(xs.value, ", ")
  {
    match xs
    case None => []
    case Some(items) => OrElse(Some(Join(items, ", ")), [])
  }

  lemma {:induction false} CleanItemsCons(piece: string, rest: seq<string>)
    ensures CleanItems([piece] + rest) == (if Trim(piece) == [] then [] else [Trim(piece)]) + CleanItems(rest)
  {
    assert ([piece] + rest)[1..] == rest;
  }

  /** Cleaning works piece by piece: the pieces of `a + b` clean to those of `a` followed by those of `b`. */
  lemma {:induction false} CleanItemsAppend(a: seq<string>, b: seq<string>)
    ensures CleanItems(a + b) == CleanItems(a) + CleanItems(b)
    decreases |a|
  {
    if a == [] {
      assert a + b == b;
    } else {
      assert (a + b)[0] == a[0] && (a + b)[1..] == a[1..] + b;
      CleanItemsAppend(a[1..], b);
    }
  }

  /** Text without a comma is one item, trimmed, or no item when it is blank. */
  lemma {:induction false} ParseNoComma(a: string)
    requires ',' !in a
    ensures Parse(a) == if Trim(a) == [] then [] else [Trim(a)]
  {
    SplitNoSeparator(a, ',');
    CleanItemsCons(a, []);
  }

  /**
   * The text before the first comma gives the first item (none when it is
   * blank); the text after it is parsed on its own. With `ParseNoComma` this
   * determines `Parse` on every input.
   */
  lemma {:induction false} ParseAtComma(a: string, b: string)
    requires ',' !in a
    ensures Parse(a + [','] + b) == (if Trim(a) == [] then [] else [Trim(a)]) + Parse(b)
  {
    SplitAtFirst(a, ',', b);
    CleanItemsCons(a, Split(b, ','));
  }

  lemma {:induction false} NoCommaInSpace(w: string)
    requires AllSpace(w)
    ensures ',' !in w
  {
    assert forall i :: 0 <= i < |w| ==> w[i] != ',';
  }

  /** White space alone parses to no items. */
  lemma {:induction false} ParseBlank(w: string)
    requires AllSpace(w)
    ensures Parse(w) == []
  {
    NoCommaInSpace(w);
    SplitNoSeparator(w, ',');
    TrimAllSpace(w);
    CleanItemsCons(w, []);
  }

  /** One item after white space parses to that item. */
  lemma {:induction false} ParseSingle(w: string, x: string)
    requires AllSpace(w) && GoodItem(x)
    ensures Parse(w + x) == [x]
  {
    NoCommaInSpace(w);
    assert ',' !in w + x;
    SplitNoSeparator(w + x, ',');
    TrimPadded(w, x);
    CleanItemsCons(w + x, []);
  }

  /** The first item of a rendered list is parsed on its own, the rest after the `", "` separator. */
  lemma {:induction false} ParseFirstItem(w: string, x: string, tail: string)
    requires AllSpace(w) && GoodItem(x)
    ensures Parse(w + x + ", " + tail) == [x] + Parse(" " + tail)
  {
    NoCommaInSpace(w);
    assert w + x + ", " + tail == (w + x) + [','] + (" " + tail);
    assert ',' !in w + x;
    SplitAtFirst(w + x, ',', " " + tail);
    TrimPadded(w, x);
    CleanItemsCons(w + x, Split(" " + tail, ','));
  }

  /**
   * Leading white space before a rendered list does not change what is parsed
   * back: it is the list itself.
   */
  lemma {:induction false} ParsePaddedRender(w: string, xs: seq<string>)
    requires AllSpace(w)
    requires forall i :: 0 <= i < |xs| ==> GoodItem(xs[i])
    ensures Parse(w + Join(xs, ", ")) == xs
    decreases |xs|
  {
    if xs == [] {
      assert w + Join(xs, ", ") == w;
      ParseBlank(w);
    } else if |xs| == 1 {
      ParseSingle(w, xs[0]);
    } else {
      var tail := Join(xs[1..], ", ");
      assert w + Join(xs, ", ") == w + xs[0] + ", " + tail;
      ParseFirstItem(w, xs[0], tail);
      ParsePaddedRender(" ", xs[1..]);
      assert [xs[0]] + xs[1..] == xs;
    }
  }

  /** Reading back a rendered list gives the list, when its items are ones parsing can produce. */
  lemma {:induction false} ParseRender(xs: seq<string>)
    requires forall i :: 0 <= i < |xs| ==> GoodItem(xs[i])
    ensures Parse(Render(Some(xs))) == xs
  {
    ParsePaddedRender([], xs);
    assert [] + Join(xs, ", ") == Join(xs, ", ");
  }

  /** Editing is stable: rendering what was parsed and parsing it again gives the same list. */
  lemma {:induction false} ParseRenderParse(text: string)
    ensures Parse(Render(Some(Parse(text)))) == Parse(text)
  {
    ParseRender(Parse(text));
  }

  /** An absent list shows as empty text, which parses to the empty list. */
  lemma AbsentShowsEmpty()
    ensures Render(None) == [] && Parse(Render(None)) == []
  {
    assert Split([], ',') == [[]];
    TrimAllSpace([]);
  }
}
