/** The contribution form: a record of text fields, a duplicate-free list of trimmed
    tags, and the tag draft the tag input edits. */
module ContributionForm {
  import opened Common
  import opened Text

  // ---------------------------------------------------------------------------
  // The tag list
  // ---------------------------------------------------------------------------

  /** What `addTag` and `removeTag` keep true of `tags`: every tag is trimmed and
      non-blank, and no tag occurs twice. */
  predicate TagsValid(tags: seq<string>)
  {
    NoDuplicates(tags) && forall t :: t in tags ==> !IsBlank(t) && Trim(t) == t
  }

  /** The guard of `addTag`: the trimmed draft is non-empty and not already a tag. */
  predicate CanAdd(tags: seq<string>, current: string)
  {
    !IsBlank(current) && Trim(current) !in tags
  }

  /** The tag list after `addTag`. */
  function AddedTags(tags: seq<string>, current: string): seq<string>
  {
    if CanAdd(tags, current) then tags + [Trim(current)] else tags
  }

  /** The draft after `addTag`: cleared on success, kept otherwise. */
  function AddedDraft(tags: seq<string>, current: string): string
  {
    if CanAdd(tags, current) then "" else current
  }

  /** `tags.filter(tag => tag !== tagToRemove)`. */
  function RemovedTags(tags: seq<string>, t: string): seq<string>
  {
    Filter(tags, x => x != t)
  }

  /** A trimmed string is its own trim, and it is blank exactly when the original is. */
  lemma TrimmedIsTrim(s: string)
    ensures Trim(Trim(s)) == Trim(s)
    ensures IsBlank(Trim(s)) <==> IsBlank(s)
  {
    TrimIdempotent(s);
  }

  /** `addTag`: a non-blank draft's trimmed form is a tag afterwards, either because it
      was one already or because it was appended at the end; the earlier tags stay in
      front, in order; a blank draft, or one whose trimmed form is already a tag, changes
      neither the list nor the draft. */
  lemma AddTagEffect(tags: seq<string>, current: string)
    ensures !IsBlank(current) ==> Trim(current) in AddedTags(tags, current)
    ensures IsBlank(current) ==> AddedTags(tags, current) == tags && AddedDraft(tags, current) == current
    ensures Trim(current) in tags ==> AddedTags(tags, current) == tags && AddedDraft(tags, current) == current
    ensures CanAdd(tags, current) ==>
      AddedTags(tags, current) == tags + [Trim(current)] && AddedDraft(tags, current) == ""
    ensures |tags| <= |AddedTags(tags, current)| <= |tags| + 1
    ensures AddedTags(tags, current)[..|tags|] == tags
    ensures |AddedTags(tags, current)| == |tags| + 1 <==> AddedDraft(tags, current) == "" && CanAdd(tags, current)
  {
  }

  /** `addTag` keeps the list duplicate-free, trimmed and without blanks. */
  lemma AddTagKeepsValid(tags: seq<string>, current: string)
    requires TagsValid(tags)
    ensures TagsValid(AddedTags(tags, current))
  {
    if CanAdd(tags, current) {
      TrimmedIsTrim(current);
      var r := tags + [Trim(current)];
      forall i, j | 0 <= i < j < |r| ensures r[i] != r[j] {
        if j == |tags| {
          assert r[i] in tags;
        }
      }
    }
  }

  /** `removeTag`: the tag is gone, every other tag is kept, the order is kept, and the
      list stays valid. */
  lemma RemoveTagEffect(tags: seq<string>, t: string)
    ensures t !in RemovedTags(tags, t)
    ensures forall x :: x != t ==> (x in RemovedTags(tags, t) <==> x in tags)
    ensures IsSubsequence(RemovedTags(tags, t), tags)
    ensures TagsValid(tags) ==> TagsValid(RemovedTags(tags, t))
  {
    FilterIsSubsequence(tags, x => x != t);
    if TagsValid(tags) {
      FilterNoDuplicates(tags, x => x != t);
    }
  }

  /** Adding a new tag and then removing it gives back the list from before. */
  lemma AddThenRemove(tags: seq<string>, current: string)
    requires CanAdd(tags, current)
    ensures RemovedTags(AddedTags(tags, current), Trim(current)) == tags
  {
    var t := Trim(current);
    FilterAppend(tags, [t], x => x != t);
    FilterAll(tags, x => x != t);
  }

  // ---------------------------------------------------------------------------
  // The component state
  // ---------------------------------------------------------------------------

  /** The text fields of `formData`, all empty at first. */
  const EmptyForm: map<string, string> := map[
    "name" := "", "type" := "", "location" := "", "description" := "",
    "materials" := "", "era" := "", "architect" := ""]

  class ContributionFormState {
    var formData: map<string, string>
    var images: seq<string>
    var tags: seq<string>
    var currentTag: string

    predicate Valid()
      reads this
    {
      TagsValid(tags)
    }

    constructor ()
      ensures formData == EmptyForm && images == [] && tags == [] && currentTag == ""
      ensures Valid()
    {
      formData := EmptyForm;
      images := [];
      tags := [];
      currentTag := "";
    }

    /** The tag input's `onChange`. */
    method SetCurrentTag(value: string)
      modifies this
      ensures currentTag == value
      ensures tags == old(tags) && formData == old(formData) && images == old(images)
    {
      currentTag := value;
    }

    /** `addTag`, from the Add button or Enter in the tag input. */
    method AddTag()
      modifies this
      ensures tags == AddedTags(old(tags), old(currentTag))
      ensures currentTag == AddedDraft(old(tags), old(currentTag))
      ensures formData == old(formData) && images == old(images)
      ensures old(Valid()) ==> Valid()
    {
      if TagsValid(tags) {
        AddTagKeepsValid(tags, currentTag);
      }
      if !IsBlank(currentTag) && Trim(currentTag) !in tags {
        tags := tags + [Trim(currentTag)];
        currentTag := "";
      }
    }

    /** `removeTag`, from a tag badge's remove button. */
    method RemoveTag(t: string)
      modifies this
      ensures tags == RemovedTags(old(tags), t)
      ensures currentTag == old(currentTag) && formData == old(formData) && images == old(images)
      ensures old(Valid()) ==> Valid()
    {
      RemoveTagEffect(tags, t);
      tags := Filter(tags, x => x != t);
    }

    /** `handleInputChange`: the named field takes the value; every other field keeps its. */
    method HandleInputChange(field: string, value: string)
      modifies this
      ensures field in formData && formData[field] == value
      ensures forall f :: f != field ==> (f in formData <==> f in old(formData))
      ensures forall f :: f != field && f in old(formData) ==> formData[f] == old(formData)[f]
      ensures tags == old(tags) && currentTag == old(currentTag) && images == old(images)
    {
      formData := formData[field := value];
    }
  }
}
