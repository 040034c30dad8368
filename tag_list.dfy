/**
 * The tag editor both document forms share: a list of tags and the text
 * box for the next one. "Add" stores the trimmed text when it is non-empty
 * and new, and only then clears the box; "remove" drops the equal tags.
 */
module TagList {
  import opened Common

  /** The tags with the current contents of the input box. */
  datatype TagInput = TagInput(tags: seq<string>, current: string)

  /**
   * addTag: a tag is added exactly when the box holds something besides
   * white space that is not yet a tag; then the trimmed text goes last and
   * the box is cleared.
   */
  function AddTag(st: TagInput): (r: TagInput)
    ensures r != st <==> !AllSpace(st.current) && Trim(st.current) !in st.tags
    ensures r != st ==> r.current == "" && r.tags == st.tags + [Trim(st.current)]
  {
    TrimEmptyIffAllSpace(st.current);
    var t := Trim(st.current);
    if t != [] && t !in st.tags then TagInput(st.tags + [t], "") else st
  }

  /** removeTag: the tags equal to `tag` go, the rest stay in order. */
  function RemoveTag(tags: seq<string>, tag: string): (r: seq<string>)
    ensures forall t :: t in r <==> t in tags && t != tag
    ensures IsSubsequence(r, tags)
  {
    FilterIsSubsequence(tags, IsNot(tag));
    Filter(tags, IsNot(tag))
  }

  /** Adding never creates a duplicate tag. */
  lemma AddTagKeepsDistinct(st: TagInput)
    requires Distinct(st.tags)
    ensures Distinct(AddTag(st).tags)
  {
    if AddTag(st) != st {
      DistinctAppend(st.tags, Trim(st.current));
    }
  }

  /** Typing the same text and pressing add again changes nothing. */
  lemma AddTagTwice(st: TagInput)
    ensures AddTag(AddTag(st).(current := st.current)).tags == AddTag(st).tags
  {
    var t := Trim(st.current);
    if t != [] && t !in st.tags {
      assert t in st.tags + [t];
    }
  }

  /** Removing a tag just added gives back the old list. */
  lemma RemoveAfterAdd(st: TagInput)
    requires Trim(st.current) !in st.tags
    ensures RemoveTag(AddTag(st).tags, Trim(st.current)) == st.tags
  {
    var t := Trim(st.current);
    FilterAll(st.tags, IsNot(t));
    if t != [] {
      FilterAppend(st.tags, [t], IsNot(t));
      assert [t][1..] == [];
    }
  }

  /** What the user does in the tag editor. */
  datatype TagAction = Type(text: string) | Add | Remove(tag: string)

  function Step(st: TagInput, a: TagAction): TagInput {
    match a
    case Type(text) => st.(current := text)
    case Add => AddTag(st)
    case Remove(tag) => st.(tags := RemoveTag(st.tags, tag))
  }

  function Run(st: TagInput, actions: seq<TagAction>): TagInput
    decreases |actions|
  {
    if actions == [] then st else Run(Step(st, actions[0]), actions[1..])
  }

  /** Starting from no tags, no sequence of edits ever shows a tag twice. */
  lemma {:induction false} RunKeepsDistinct(st: TagInput, actions: seq<TagAction>)
    requires Distinct(st.tags)
    ensures Distinct(Run(st, actions).tags)
    decreases |actions|
  {
    if actions != [] {
      var a := actions[0];
      match a {
        case Type(text) =>
        case Add => AddTagKeepsDistinct(st);
        case Remove(tag) => FilterKeepsDistinct(st.tags, IsNot(tag));
      }
      RunKeepsDistinct(Step(st, a), actions[1..]);
    }
  }
}
