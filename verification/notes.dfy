/**
 * The notes screen: the comma-separated tag field and the category filter.
 *
 * Saving the editor parses the tag field (split on ',', trim each piece, drop
 * empty pieces; an empty or missing field gives no tags); opening a note for
 * editing joins its tags with ", ".
 */
module Notes {
  import opened Wrappers
  import opened Collections
  import opened Text
  import opened Records

  const ALL := "全部"
  const TAG_SEPARATOR := ", "

  predicate IsTag(t: string) { t != [] }

  /** A tag as parsing produces it: non-empty, comma-free and trimmed. */
  predicate WellFormedTag(t: string) {
    t != [] && ',' !in t && IsTrimmed(t)
  }

  /** The tags of a non-empty tag field. */
  function PieceTags(s: string): (tags: seq<string>)
    ensures forall k :: 0 <= k < |tags| ==> WellFormedTag(tags[k])
  {
    var trimmed := MapSeq(Split(s, ','), Trim);
    var tags := KeepIf(trimmed, IsTag);
    assert forall k :: 0 <= k < |tags| ==> WellFormedTag(tags[k]) by {
      forall k | 0 <= k < |tags|
        ensures WellFormedTag(tags[k])
      {
        assert tags[k] in trimmed;
        var j :| 0 <= j < |trimmed| && trimmed[j] == tags[k];
        assert ',' !in Split(s, ',')[j];
      }
    }
    tags
  }

  /** The tag field as saved: `values.tags ? values.tags.split(',').map(trim).filter(Boolean) : []`. */
  function ParseTags(field: Option<string>): (tags: seq<string>)
    ensures field.None? || field.value == "" ==> tags == []
    ensures forall k :: 0 <= k < |tags| ==> WellFormedTag(tags[k])
  {
    if field.None? || field.value == "" then [] else PieceTags(field.value)
  }

  /** The tag field shown when a note is opened for editing: `note.tags.join(', ')`. */
  function JoinTags(tags: seq<string>): (field: string)
    ensures tags == [] ==> field == ""
    ensures |tags| == 1 ==> field == tags[0]
  {
    Join(tags, TAG_SEPARATOR)
  }

  /** Appending ", " and one more well-formed tag to a field appends that tag to its parse. */
  lemma PieceTagsSnoc(a: string, last: string)
    requires WellFormedTag(last)
    ensures PieceTags(a + [','] + (" " + last)) == PieceTags(a) + [last]
  {
    var b := " " + last;
    var pieces := MapSeq(Split(a, ','), Trim);
    assert ',' !in b;
    SplitAppendPiece(a, ',', b);
    MapSeqAppend(Split(a, ','), [b], Trim);
    TrimAfterSpace(last);
    assert MapSeq([b], Trim) == [last];
    KeepIfAppend(pieces, [last], IsTag);
    assert KeepIf([last], IsTag) == [last];
  }

  /** A trimmed comma-free field is one tag, or none when it is empty. */
  lemma PieceTagsSingle(t: string)
    requires ',' !in t && IsTrimmed(t)
    ensures PieceTags(t) == if t == [] then [] else [t]
  {
    SplitNoSeparator(t, ',');
    TrimTrimmed(t);
    assert MapSeq([t], Trim) == [t];
  }

  /** Joining well-formed tags and parsing the result gives the tags back, for any number of tags. */
  lemma {:induction false} PieceTagsJoin(tags: seq<string>)
    requires forall k :: 0 <= k < |tags| ==> WellFormedTag(tags[k])
    ensures PieceTags(JoinTags(tags)) == tags
  {
    if |tags| == 0 {
      PieceTagsSingle("");
    } else if |tags| == 1 {
      PieceTagsSingle(tags[0]);
      assert tags == [tags[0]];
    } else {
      var init, last := tags[..|tags| - 1], tags[|tags| - 1];
      assert tags == init + [last];
      PieceTagsJoin(init);
      PieceTagsJoinStep(init, last);
    }
  }

  /** The inductive step of `PieceTagsJoin`: the last tag comes back after the earlier ones. */
  lemma PieceTagsJoinStep(init: seq<string>, last: string)
    requires |init| > 0 && WellFormedTag(last)
    requires PieceTags(JoinTags(init)) == init
    ensures PieceTags(JoinTags(init + [last])) == init + [last]
  {
    var field := JoinTags(init);
    JoinTagsSnoc(init, last);
    PieceTagsSnoc(field, last);
  }

  /** Joining one more tag appends ", " and that tag. */
  lemma JoinTagsSnoc(init: seq<string>, last: string)
    requires |init| > 0
    ensures JoinTags(init + [last]) == JoinTags(init) + [','] + (" " + last)
  {
    var tags := init + [last];
    assert tags[..|tags| - 1] == init;
    assert TAG_SEPARATOR == [','] + " ";
  }

  /** Editing a note and saving it unchanged keeps its tags: parsing undoes joining. */
  lemma TagsRoundTrip(tags: seq<string>)
    requires forall k :: 0 <= k < |tags| ==> WellFormedTag(tags[k])
    ensures ParseTags(Some(JoinTags(tags))) == tags
  {
    PieceTagsJoin(tags);
    if |tags| > 0 && JoinTags(tags) == "" {
      JoinNonEmpty(tags);
    }
  }

  /** Joining at least one non-empty tag gives a non-empty field. */
  lemma {:induction false} JoinNonEmpty(tags: seq<string>)
    requires |tags| > 0 && forall k :: 0 <= k < |tags| ==> tags[k] != []
    ensures JoinTags(tags) != ""
  {
    if |tags| > 1 {
      var j := JoinTags(tags);
      assert j == JoinTags(tags[..|tags| - 1]) + TAG_SEPARATOR + tags[|tags| - 1];
      assert |j| >= |TAG_SEPARATOR|;
    }
  }

  /**
   * Parsing normalises the field: opening a saved note and saving it again
   * yields the same tags.
   */
  lemma ParseTagsNormalises(field: Option<string>)
    ensures ParseTags(Some(JoinTags(ParseTags(field)))) == ParseTags(field)
  {
    TagsRoundTrip(ParseTags(field));
  }

  /** The notes the list shows: all of them for '全部', otherwise those of the selected category, in order. */
  function FilterNotes(notes: seq<Note>, category: string): (r: seq<Note>)
    ensures category == ALL ==> r == notes
    ensures category != ALL ==> forall n :: n in r <==> n in notes && n.category == category
    ensures |r| <= |notes|
  {
    if category == ALL then notes else WithKey(notes, NoteCategory, category)
  }
}
