/** The create-content page: the content-type tabs, the one form record they share,
    and the submit check. */
module CreateContent {
  import opened Common

  datatype ContentForm = ContentForm(
    title: string,
    description: string,
    location: string,
    coordinates: string,
    category: string,
    historicalPeriod: string,
    materials: string,
    significance: string,
    images: string)

  const EmptyForm := ContentForm("", "", "", "", "", "", "", "", "")

  datatype Field =
    | Title | Description | Location | Coordinates | Category | HistoricalPeriod
    | Materials | Significance | Images

  /** `setFormData({ ...formData, [field]: value })`. */
  function WithField(f: ContentForm, field: Field, value: string): ContentForm
  {
    match field
    case Title => f.(title := value)
    case Description => f.(description := value)
    case Location => f.(location := value)
    case Coordinates => f.(coordinates := value)
    case Category => f.(category := value)
    case HistoricalPeriod => f.(historicalPeriod := value)
    case Materials => f.(materials := value)
    case Significance => f.(significance := value)
    case Images => f.(images := value)
  }

  const MissingRequired := MissingInformation("Please fill in all required fields.")

  /** The success toast names the selected content type. */
  function CreatedToast(contentType: string): (t: Toast)
    ensures t.title == "Content Created!" && !t.destructive
    ensures t.description == "Your " + contentType + " entry has been submitted for review."
  {
    Toast("Content Created!", "Your " + contentType + " entry has been submitted for review.", false)
  }

  /** `handleSubmit`: rejected, with no navigation, when title, description or location
      is empty; otherwise a toast naming the content type and a move to the admin page. */
  function Submit(contentType: string, f: ContentForm): (r: SubmitOutcome)
    ensures r.Rejected? <==> f.title == "" || f.description == "" || f.location == ""
    ensures r.Rejected? ==> r.toast == MissingRequired && r.toast.destructive
    ensures r.Accepted? ==> r.toast == CreatedToast(contentType) && r.route == "/admin"
  {
    if f.title == "" || f.description == "" || f.location == "" then Rejected(MissingRequired)
    else Accepted(CreatedToast(contentType), "/admin")
  }

  /** Coordinates, category, period, materials, significance and images never decide,
      and neither does the content type. */
  lemma OnlyThreeFieldsDecide(t1: string, f: ContentForm, t2: string, g: ContentForm)
    requires f.title == g.title && f.description == g.description && f.location == g.location
    ensures Submit(t1, f).Rejected? == Submit(t2, g).Rejected?
  {
  }

  /** Two accepted submits differ only in the type named by the toast. */
  lemma ToastNamesTheType(t1: string, t2: string, f: ContentForm)
    requires Submit(t1, f).Accepted? && t1 != t2
    ensures Submit(t1, f).toast != Submit(t2, f).toast
    ensures Submit(t1, f).route == Submit(t2, f).route
  {
    var d1, d2 := Submit(t1, f).toast.description, Submit(t2, f).toast.description;
    if |t1| == |t2| {
      var k :| 0 <= k < |t1| && t1[k] != t2[k];
      assert d1[5 + k] == t1[k] && d2[5 + k] == t2[k];
    } else {
      assert |d1| != |d2|;
    }
  }

  /** The page's two pieces of state. */
  class CreateContentPage {
    var contentType: string
    var formData: ContentForm

    constructor ()
      ensures contentType == "monument" && formData == EmptyForm
    {
      contentType := "monument";
      formData := EmptyForm;
    }

    /** The tabs' `onValueChange`: one record is shared by all tabs, so what was typed
      is kept. */
    method SwitchTab(t: string)
      modifies this
      ensures contentType == t && formData == old(formData)
    {
      contentType := t;
    }

    method SetField(field: Field, value: string)
      modifies this
      ensures formData == WithField(old(formData), field, value) && contentType == old(contentType)
    {
      formData := WithField(formData, field, value);
    }

    /** `handleSubmit`; the state is kept either way. */
    method HandleSubmit() returns (outcome: SubmitOutcome)
      ensures outcome == Submit(contentType, formData)
    {
      if formData.title == "" || formData.description == "" || formData.location == "" {
        return Rejected(MissingRequired);
      }
      return Accepted(CreatedToast(contentType), "/admin");
    }
  }
}
