/**
 * The tag editor (src/components/TagInput.tsx). The tag list belongs to the
 * parent and is changed only through `onTagsChange`; the editor itself keeps
 * the text being typed. Every handler is modelled as a function from the
 * current tags and text to an `Effect`: the list handed to `onTagsChange`, if
 * the handler calls it, and the text afterwards.
 */
module TagInput {
  import opened Common
  import opened Strings

  datatype Effect = Effect(newTags: Option<seq<string>>, input: string)

  /** No tag occurs twice. */
  predicate Distinct(tags: seq<string>)
  {
    forall i, j :: 0 <= i < j < |tags| ==> tags[i] != tags[j]
  }

  /** Every tag is trimmed and not empty, as `addTag` makes them. */
  predicate WellFormed(tags: seq<string>)
  {
    forall i :: 0 <= i < |tags| ==> tags[i] != [] && IsTrimmed(tags[i])
  }

  /**
   * `addTag`: the trimmed text is appended when it is not empty and not
   * already a tag; the text is cleared in every case.
   */
  function AddTag(tags: seq<string>, input: string): (e: Effect)
    ensures e.input == []
    ensures e.newTags.Some? <==> Trim(input) != [] && Trim(input) !in tags
    ensures e.newTags.Some? ==> e.newTags.value == tags + [Trim(input)]
  {
    var trimmedInput := Trim(input);
    if trimmedInput != [] && trimmedInput !in tags then Effect(Some(tags + [trimmedInput]), [])
    else Effect(None, [])
  }

  /**
   * `removeTag`: the tags whose position differs from `index`. An index
   * outside the list removes nothing.
   */
  function RemoveTag(tags: seq<string>, index: int): (r: seq<string>)
    ensures 0 <= index < |tags| ==> r == tags[..index] + tags[index + 1..]
    ensures !(0 <= index < |tags|) ==> r == tags
  {
    if tags == [] then []
    else
      var rest := RemoveTag(tags[1..], index - 1);
      if index == 0 then rest else [tags[0]] + rest
  }

  /**
   * `handleKeyDown`: Enter and comma add the typed text as a tag; Backspace on
   * an empty text removes the last tag; any other key has no effect here (the
   * text itself changes through the input's change handler).
   */
  function KeyDown(key: string, tags: seq<string>, input: string): (e: Effect)
    ensures key == "Enter" || key == "," ==> e == AddTag(tags, input)
    ensures key == "Backspace" && input == [] && |tags| > 0 ==> e == Effect(Some(tags[..|tags| - 1]), input)
    ensures key != "Enter" && key != "," && !(key == "Backspace" && input == [] && |tags| > 0) ==>
      e == Effect(None, input)
  {
    if key == "Enter" || key == "," then AddTag(tags, input)
    else if key == "Backspace" && input == [] && |tags| > 0 then
      assert tags[..|tags| - 1] + tags[|tags|..] == tags[..|tags| - 1];
      Effect(Some(RemoveTag(tags, |tags| - 1)), input)
    else Effect(None, input)
  }

  /**
   * The document's mouse-down listener: a click outside the editor adds
   * non-blank text as a tag. The listener is registered again only when the
   * text changes, so it works on `capturedTags`, the list as it was when the
   * text last changed, which need not be the list the parent holds now.
   */
  function MouseDown(insideEditor: bool, capturedTags: seq<string>, input: string): (e: Effect)
    ensures insideEditor || Trim(input) == [] ==> e == Effect(None, input)
    ensures !insideEditor && Trim(input) != [] ==> e == AddTag(capturedTags, input)
  {
    if !insideEditor && Trim(input) != [] then AddTag(capturedTags, input) else Effect(None, input)
  }

  /** Adding keeps the list free of duplicates and of blank or untrimmed tags, and never grows it by more than one. */
  lemma {:induction false} AddTagKeepsShape(tags: seq<string>, input: string)
    requires Distinct(tags) && WellFormed(tags)
    ensures var e := AddTag(tags, input);
      e.newTags.Some? ==> Distinct(e.newTags.value) && WellFormed(e.newTags.value) && |e.newTags.value| == |tags| + 1
  {
    var e := AddTag(tags, input);
    if e.newTags.Some? {
      var x := Trim(input);
      var r := tags + [x];
      forall i, j | 0 <= i < j < |r| ensures r[i] != r[j] {
        if j == |tags| {
          assert r[i] == tags[i];
        }
      }
    }
  }

  /** Removing keeps the other tags in order, so the list stays free of duplicates and blank tags. */
  lemma {:induction false} RemoveTagKeepsShape(tags: seq<string>, index: int)
    requires Distinct(tags) && WellFormed(tags)
    ensures Distinct(RemoveTag(tags, index)) && WellFormed(RemoveTag(tags, index))
  {
    if 0 <= index < |tags| {
      var r := RemoveTag(tags, index);
      assert forall i :: 0 <= i < |r| ==> r[i] == tags[if i < index then i else i + 1];
    }
  }

  /** A tag just added is removed again by Backspace on the now empty text: the list is back as it was. */
  lemma {:induction false} BackspaceUndoesAdd(tags: seq<string>, input: string)
    requires AddTag(tags, input).newTags.Some?
    ensures var e := AddTag(tags, input);
      KeyDown("Backspace", e.newTags.value, e.input) == Effect(Some(tags), [])
  {
    var e := AddTag(tags, input);
    assert e.newTags.value[..|tags|] == tags;
  }
}
