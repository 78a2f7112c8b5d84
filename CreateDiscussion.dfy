/** The create-discussion page: the discussion form and its submit check. */
module CreateDiscussion {
  import opened Common

  datatype DiscussionForm = DiscussionForm(title: string, content: string, category: string, tags: string)

  const EmptyForm := DiscussionForm("", "", "", "")

  datatype Field = Title | Content | Category | Tags

  /** `setFormData({ ...formData, [field]: value })`. */
  function WithField(f: DiscussionForm, field: Field, value: string): DiscussionForm
  {
    match field
    case Title => f.(title := value)
    case Content => f.(content := value)
    case Category => f.(category := value)
    case Tags => f.(tags := value)
  }

  const Created := Toast("Discussion Created!", "Your discussion has been posted successfully.", false)
  const MissingRequired := MissingInformation("Please fill in all required fields.")

  /** `handleSubmit`: rejected, before any navigation, when title, content or category is
      empty; otherwise the success toast and a move to the discussions page. */
  function Submit(f: DiscussionForm): (r: SubmitOutcome)
    ensures r.Rejected? <==> f.title == "" || f.content == "" || f.category == ""
    ensures r.Rejected? ==> r.toast == MissingRequired && r.toast.destructive
    ensures r.Accepted? ==> r.toast == Created && r.route == "/discussions"
  {
    if f.title == "" || f.content == "" || f.category == "" then Rejected(MissingRequired)
    else Accepted(Created, "/discussions")
  }

  /** Tags are optional: they never decide. */
  lemma TagsNeverDecide(f: DiscussionForm, tags: string)
    ensures Submit(f.(tags := tags)) == Submit(f)
  {
  }

  /** Only emptiness is checked: a title of one space passes. */
  lemma BlankTitlePasses(f: DiscussionForm)
    requires f.content != "" && f.category != ""
    ensures Submit(f.(title := " ")).Accepted?
  {
  }

  class CreateDiscussionPage {
    var formData: DiscussionForm

    constructor ()
      ensures formData == EmptyForm && Submit(formData).Rejected?
    {
      formData := EmptyForm;
    }

    method SetField(field: Field, value: string)
      modifies this
      ensures formData == WithField(old(formData), field, value)
    {
      formData := WithField(formData, field, value);
    }

    /** `handleSubmit`; the form is kept either way. */
    method HandleSubmit() returns (outcome: SubmitOutcome)
      ensures outcome == Submit(formData)
    {
      if formData.title == "" || formData.content == "" || formData.category == "" {
        return Rejected(MissingRequired);
      }
      return Accepted(Created, "/discussions");
    }
  }
}
