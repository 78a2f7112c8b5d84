/** The create-event page: the event form and its submit check. */
module CreateEvent {
  import opened Common

  datatype EventForm = EventForm(
    title: string,
    description: string,
    kind: string,
    category: string,
    date: string,
    time: string,
    endDate: string,
    endTime: string,
    location: string,
    isOnline: bool,
    maxAttendees: string,
    price: string,
    organizer: string,
    requirements: string,
    agenda: string)

  const EmptyForm := EventForm("", "", "", "", "", "", "", "", "", false, "", "", "", "", "")

  /** The fields the page's inputs edit; `isOnline` has no control. */
  datatype Field =
    | Title | Description | Kind | Category | Date | Time | EndDate | EndTime
    | Location | MaxAttendees | Price | Organizer | Requirements | Agenda

  /** `setFormData({ ...formData, [field]: value })`. */
  function WithField(f: EventForm, field: Field, value: string): (r: EventForm)
    ensures r.isOnline == f.isOnline
  {
    match field
    case Title => f.(title := value)
    case Description => f.(description := value)
    case Kind => f.(kind := value)
    case Category => f.(category := value)
    case Date => f.(date := value)
    case Time => f.(time := value)
    case EndDate => f.(endDate := value)
    case EndTime => f.(endTime := value)
    case Location => f.(location := value)
    case MaxAttendees => f.(maxAttendees := value)
    case Price => f.(price := value)
    case Organizer => f.(organizer := value)
    case Requirements => f.(requirements := value)
    case Agenda => f.(agenda := value)
  }

  const EventCreated := Toast("Event Created!", "Your event has been submitted for review and will be published soon.", false)
  const MissingRequired := MissingInformation("Please fill in all required fields.")

  /** `handleSubmit`: rejected, with no navigation, when title, description, type or date
      is empty; otherwise the success toast and a move to the events page. */
  function Submit(f: EventForm): (r: SubmitOutcome)
    ensures r.Rejected? <==> f.title == "" || f.description == "" || f.kind == "" || f.date == ""
    ensures r.Rejected? ==> r.toast == MissingRequired && r.toast.destructive
    ensures r.Accepted? ==> r.toast == EventCreated && r.route == "/events"
  {
    if f.title == "" || f.description == "" || f.kind == "" || f.date == "" then Rejected(MissingRequired)
    else Accepted(EventCreated, "/events")
  }

  /** Only the four checked fields decide: the category (marked required on the page),
      the times, place, capacity, price, organizer, requirements and agenda never do. */
  lemma OnlyFourFieldsDecide(f: EventForm, g: EventForm)
    requires f.title == g.title && f.description == g.description && f.kind == g.kind && f.date == g.date
    ensures Submit(f) == Submit(g)
  {
  }

  /** An event without a category is accepted. */
  lemma CategoryIsNotChecked(f: EventForm)
    requires f.title != "" && f.description != "" && f.kind != "" && f.date != ""
    ensures Submit(f.(category := "")).Accepted?
  {
  }

  /** Only emptiness is checked: a title of one space passes. */
  lemma BlankTitlePasses(f: EventForm)
    requires f.description != "" && f.kind != "" && f.date != ""
    ensures Submit(f.(title := " ")).Accepted?
  {
  }

  /** The page's `formData` state. */
  class CreateEventPage {
    var formData: EventForm

    constructor ()
      ensures formData == EmptyForm && Submit(formData).Rejected?
    {
      formData := EmptyForm;
    }

    /** An input's `onChange` or a select's `onValueChange`. */
    method SetField(field: Field, value: string)
      modifies this
      ensures formData == WithField(old(formData), field, value)
    {
      formData := WithField(formData, field, value);
    }

    /** `handleSubmit`; the form is kept either way. */
    method HandleSubmit() returns (outcome: SubmitOutcome)
      ensures outcome == Submit(formData)
    {
      if formData.title == "" || formData.description == "" || formData.kind == "" || formData.date == "" {
        return Rejected(MissingRequired);
      }
      return Accepted(EventCreated, "/events");
    }
  }
}
