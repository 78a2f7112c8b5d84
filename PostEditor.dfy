/** The admin post editor: the form record, the comma-separated tag parser used on save,
    the looser tag split of the preview, and the submit handler with its reset. */
module PostEditor {
  import opened Common
  import opened Text

  datatype PostStatus = Draft | Published

  function StatusName(s: PostStatus): string
  {
    match s
    case Draft => "draft"
    case Published => "published"
  }

  datatype PostForm = PostForm(
    title: string,
    content: string,
    author: string,
    status: PostStatus,
    category: string,
    tags: string)

  /** The form as first shown and as reset after a save. */
  const InitialForm := PostForm("", "", "Administrator", Draft, "", "")

  /** The payload handed to `onSave`: the form's fields, the creation date, and the
      parsed tags in place of the tag string. */
  datatype SavedPost = SavedPost(
    title: string,
    content: string,
    author: string,
    status: PostStatus,
    category: string,
    createdAt: string,
    tags: seq<string>)

  // ---------------------------------------------------------------------------
  // Tag strings
  // ---------------------------------------------------------------------------

  /** `.map(tag => tag.trim())`. */
  function TrimAll(parts: seq<string>): seq<string>
  {
    Map(parts, Trim)
  }

  /** The tags saved with a post: `tags.split(',').map(trim).filter(Boolean)`. */
  function ParseTags(s: string): seq<string>
  {
    Filter(TrimAll(Split(s, ",")), t => t != "")
  }

  /** The tags of the preview: `tags.split(',')` with each piece trimmed on display, and no
      list at all for an empty tag string. */
  function PreviewTags(s: string): seq<string>
  {
    if s == "" then [] else TrimAll(Split(s, ","))
  }

  /** A string without a comma does not contain the one-comma string. */
  lemma NoCommaNoSeparator(s: string)
    requires ',' !in s
    ensures !Contains(s, ",")
  {
    ContainsHead(s, ",");
  }

  /** A string without commas is a single piece: one trimmed tag, or none when blank. */
  lemma ParseSingleTag(s: string)
    requires ',' !in s
    ensures ParseTags(s) == if IsBlank(s) then [] else [Trim(s)]
  {
    NoCommaNoSeparator(s);
    SplitWithoutSeparator(s, ",");
    assert TrimAll([s]) == [Trim(s)];
  }

  /** An empty tag string saves no tags. */
  lemma ParseEmptyTags()
    ensures ParseTags("") == []
  {
    ParseSingleTag("");
  }

  /** Parsing distributes over a comma: the tags of `a,b` are those of `a` followed by
      those of `b`, so tags keep their input order. */
  lemma ParseTagsAround(a: string, b: string)
    ensures ParseTags(a + "," + b) == ParseTags(a) + ParseTags(b)
  {
    SplitAround(a, ',', b);
    MapAppend(Split(a, ","), Split(b, ","), Trim);
    FilterAppend(TrimAll(Split(a, ",")), TrimAll(Split(b, ",")), t => t != "");
  }

  /** A trimmed piece has no comma when the untrimmed one had none. */
  lemma TrimKeepsNoComma(p: string)
    requires !Contains(p, ",")
    ensures ',' !in Trim(p)
  {
    if ',' in Trim(p) {
      TrimChars(p, ',');
      CharContained(p, ',');
    }
  }

  /** A saved tag: non-empty, already trimmed, and without a comma. */
  predicate CleanTag(t: string)
  {
    t != "" && Trim(t) == t && ',' !in t
  }

  /** Each non-empty trimmed piece of a split is a clean tag. */
  lemma CleanPiece(parts: seq<string>, i: nat)
    requires i < |parts| && !Contains(parts[i], ",") && Trim(parts[i]) != ""
    ensures CleanTag(TrimAll(parts)[i])
  {
    TrimIdempotent(parts[i]);
    TrimKeepsNoComma(parts[i]);
  }

  /** Every saved tag is non-empty, already trimmed, and holds no comma. */
  lemma ParsedTagsAreClean(s: string)
    ensures forall t :: t in ParseTags(s) ==> CleanTag(t)
  {
    SplitPiecesLackSeparator(s, ",");
    CleanPieces(Split(s, ","));
  }

  /** Pieces without a comma give clean tags once trimmed and the empty ones dropped. */
  lemma CleanPieces(parts: seq<string>)
    requires forall p :: p in parts ==> !Contains(p, ",")
    ensures forall t :: t in Filter(TrimAll(parts), t => t != "") ==> CleanTag(t)
  {
    var trimmed := TrimAll(parts);
    forall t | t in Filter(trimmed, t => t != "") ensures CleanTag(t) {
      assert t in trimmed && t != "";
      var i :| 0 <= i < |trimmed| && trimmed[i] == t;
      assert parts[i] in parts;
      CleanPiece(parts, i);
    }
  }

  /** Save and preview differ only in the empty pieces: the saved tags are the preview's
      with the empty ones dropped, so the preview shows at least as many. */
  lemma SaveDropsWhatPreviewShows(s: string)
    ensures ParseTags(s) == Filter(PreviewTags(s), t => t != "")
    ensures |ParseTags(s)| <= |PreviewTags(s)|
  {
    if s == "" {
      ParseEmptyTags();
    }
  }

  /** The preview's paragraphs: the content split at every line break; joined back they
      give the content. */
  function PreviewParagraphs(content: string): (r: seq<string>)
    ensures |r| >= 1 && Join(r, "\n") == content
    ensures forall p :: p in r ==> !Contains(p, "\n")
  {
    JoinSplit(content, "\n");
    SplitPiecesLackSeparator(content, "\n");
    Split(content, "\n")
  }

  const MissingTitleOrContent := MissingInformation("Please fill in title and content.")

  function SavedToast(status: PostStatus): Toast
  {
    Toast("Post Saved", "Post has been saved as " + StatusName(status) + ".", false)
  }

  // ---------------------------------------------------------------------------
  // The component state
  // ---------------------------------------------------------------------------

  class PostEditorState {
    var formData: PostForm
    var isPreview: bool

    constructor ()
      ensures formData == InitialForm && !isPreview
    {
      formData := InitialForm;
      isPreview := false;
    }

    /** `handleSubmit`, given today's date in place of the clock. An empty title or
      content saves nothing and keeps the form; otherwise the form's fields are saved
      with the parsed tags and the form is reset. */
    method HandleSubmit(today: string) returns (saved: Option<SavedPost>, toast: Toast)
      modifies this
      ensures old(formData).title == "" || old(formData).content == "" ==>
        saved == None && toast == MissingTitleOrContent && formData == old(formData)
      ensures old(formData).title != "" && old(formData).content != "" ==>
        saved == Some(SavedPost(old(formData).title, old(formData).content, old(formData).author,
                                old(formData).status, old(formData).category, today,
                                ParseTags(old(formData).tags)))
        && toast == SavedToast(old(formData).status) && formData == InitialForm
      ensures isPreview == old(isPreview)
    {
      if formData.title == "" || formData.content == "" {
        return None, MissingTitleOrContent;
      }
      var f := formData;
      saved := Some(SavedPost(f.title, f.content, f.author, f.status, f.category, today,
                              ParseTags(f.tags)));
      toast := SavedToast(f.status);
      formData := InitialForm;
    }

    method SetTitle(value: string)
      modifies this
      ensures formData == old(formData).(title := value) && isPreview == old(isPreview)
    {
      formData := formData.(title := value);
    }

    method SetContent(value: string)
      modifies this
      ensures formData == old(formData).(content := value) && isPreview == old(isPreview)
    {
      formData := formData.(content := value);
    }

    method SetCategory(value: string)
      modifies this
      ensures formData == old(formData).(category := value) && isPreview == old(isPreview)
    {
      formData := formData.(category := value);
    }

    method SetStatus(value: PostStatus)
      modifies this
      ensures formData == old(formData).(status := value) && isPreview == old(isPreview)
    {
      formData := formData.(status := value);
    }

    method SetTags(value: string)
      modifies this
      ensures formData == old(formData).(tags := value) && isPreview == old(isPreview)
    {
      formData := formData.(tags := value);
    }

    /** The Preview and Edit buttons; the form is kept either way. */
    method SetPreview(on: bool)
      modifies this
      ensures isPreview == on && formData == old(formData)
    {
      isPreview := on;
    }
  }
}
