/** The "Edit Service Request" page: an edit form with a status badge, update and delete. */
module RequestEdit {
  import opened Common
  import Text
  import Seqs

  datatype RequestData = RequestData(
    title: string,
    serviceCategory: string,
    description: string,
    location: string,
    budget: string,
    timeline: string,
    urgency: string,
    status: string)

  /** `useState` initial value: every field empty except `status`, which is "open". */
  const INITIAL_REQUEST := RequestData("", "", "", "", "", "", "", "open")

  /** The request the loading effect puts in place of the whole record. */
  const MOCK_REQUEST := RequestData(
    "Kitchen sink repair needed",
    "plumbing",
    "My kitchen sink is leaking underneath and the faucet is dripping. Need professional repair.",
    "Brooklyn, NY 11201",
    "$100-300",
    "This week",
    "medium",
    "open")

  datatype Field = Title | ServiceCategory | Description | Location | Budget | Timeline | Urgency | Status

  /**
   * The fields bound to `handleInputChange`: the title, description, location,
   * budget and timeline inputs. The category, urgency and status change only
   * through their selects.
   */
  type InputField = f: Field | !(f.ServiceCategory? || f.Urgency? || f.Status?) witness Title

  function Get(d: RequestData, f: Field): string {
    match f
    case Title => d.title
    case ServiceCategory => d.serviceCategory
    case Description => d.description
    case Location => d.location
    case Budget => d.budget
    case Timeline => d.timeline
    case Urgency => d.urgency
    case Status => d.status
  }

  /** `{ ...prev, [name]: value }`: the named field takes the value, every other field is kept. */
  function WithField(d: RequestData, f: Field, value: string): (r: RequestData)
    ensures Get(r, f) == value
    ensures forall g :: g != f ==> Get(r, g) == Get(d, g)
  {
    match f
    case Title => d.(title := value)
    case ServiceCategory => d.(serviceCategory := value)
    case Description => d.(description := value)
    case Location => d.(location := value)
    case Budget => d.(budget := value)
    case Timeline => d.(timeline := value)
    case Urgency => d.(urgency := value)
    case Status => d.(status := value)
  }

  // ---------------------------------------------------------------- status badge

  /** An entry of `statusOptions`; `labelText` is its `label` (a reserved word here). */
  datatype StatusOption = StatusOption(value: string, labelText: string, color: string)

  const STATUS_OPTIONS: seq<StatusOption> := [
    StatusOption("open", "Open", "bg-green-500"),
    StatusOption("in-progress", "In Progress", "bg-blue-500"),
    StatusOption("completed", "Completed", "bg-gray-500"),
    StatusOption("cancelled", "Cancelled", "bg-red-500")
  ]

  const STATUS_VALUES: set<string> := {"open", "in-progress", "completed", "cancelled"}

  /** `statusOptions.find(s => s.value === status)`: found exactly for the four option values. */
  function StatusOptionFor(status: string): (r: Option<StatusOption>)
    ensures r.Some? <==> status in STATUS_VALUES
    ensures r.Some? ==> r.value in STATUS_OPTIONS && r.value.value == status
    ensures forall i :: 0 <= i < |STATUS_OPTIONS| && STATUS_OPTIONS[i].value == status ==> r == Some(STATUS_OPTIONS[i])
  {
    var p := (o: StatusOption) => o.value == status;
    var found := Seqs.Find(STATUS_OPTIONS, p);
    assert found.None? ==> !p(STATUS_OPTIONS[0]) && !p(STATUS_OPTIONS[1]) && !p(STATUS_OPTIONS[2]) && !p(STATUS_OPTIONS[3]);
    found
  }

  /**
   * The header badge's class `${option?.color} text-white`: a missing option
   * is interpolated as the text "undefined".
   */
  function BadgeClass(status: string): (cls: string)
    ensures status == "open" ==> cls == "bg-green-500 text-white"
    ensures status == "in-progress" ==> cls == "bg-blue-500 text-white"
    ensures status == "completed" ==> cls == "bg-gray-500 text-white"
    ensures status == "cancelled" ==> cls == "bg-red-500 text-white"
    ensures status !in STATUS_VALUES ==> cls == "undefined text-white"
  {
    var found := StatusOptionFor(status);
    assert status == "open" ==> found == Some(STATUS_OPTIONS[0]);
    assert status == "in-progress" ==> found == Some(STATUS_OPTIONS[1]);
    assert status == "completed" ==> found == Some(STATUS_OPTIONS[2]);
    assert status == "cancelled" ==> found == Some(STATUS_OPTIONS[3]);
    WhiteTextClasses();
    (match found case Some(o) => o.color case None => "undefined") + " text-white"
  }

  lemma WhiteTextClasses()
    ensures "bg-green-500" + " text-white" == "bg-green-500 text-white"
    ensures "bg-blue-500" + " text-white" == "bg-blue-500 text-white"
    ensures "bg-gray-500" + " text-white" == "bg-gray-500 text-white"
    ensures "bg-red-500" + " text-white" == "bg-red-500 text-white"
    ensures "undefined" + " text-white" == "undefined text-white"
  {
  }

  /** The header badge's caption `option?.label`: nothing for a status without an option. */
  function BadgeCaption(status: string): (caption: Option<string>)
    ensures status == "open" ==> caption == Some("Open")
    ensures status == "in-progress" ==> caption == Some("In Progress")
    ensures status == "completed" ==> caption == Some("Completed")
    ensures status == "cancelled" ==> caption == Some("Cancelled")
    ensures status !in STATUS_VALUES ==> caption.None?
  {
    var found := StatusOptionFor(status);
    assert status == "open" ==> found == Some(STATUS_OPTIONS[0]);
    assert status == "in-progress" ==> found == Some(STATUS_OPTIONS[1]);
    assert status == "completed" ==> found == Some(STATUS_OPTIONS[2]);
    assert status == "cancelled" ==> found == Some(STATUS_OPTIONS[3]);
    match found
    case Some(o) => Some(o.labelText)
    case None => None
  }

  /** The values of the options are pairwise different, so at most one entry can match. */
  lemma StatusOptionValuesDistinct()
    ensures forall i, j :: 0 <= i < j < |STATUS_OPTIONS| ==> STATUS_OPTIONS[i].value != STATUS_OPTIONS[j].value
  {
  }

  /** The page opens with an "Open" badge in green, before and after loading. */
  lemma InitialBadgeIsOpen()
    ensures BadgeCaption(INITIAL_REQUEST.status) == Some("Open")
    ensures BadgeClass(INITIAL_REQUEST.status) == "bg-green-500 text-white"
    ensures MOCK_REQUEST.status == INITIAL_REQUEST.status
  {
  }

  // ---------------------------------------------------------------- page state

  class RequestEditor {
    var formData: RequestData
    var isLoading: bool

    constructor ()
      ensures formData == INITIAL_REQUEST && !isLoading
    {
      formData := INITIAL_REQUEST;
      isLoading := false;
    }

    /**
     * The inputs marked `required` (title, description, location) are
     * non-empty; otherwise the browser does not fire the form's submit event.
     */
    predicate RequiredFilled()
      reads this
    {
      formData.title != "" && formData.description != "" && formData.location != ""
    }

    /** The loading effect: the whole record is replaced by the loaded request. */
    method LoadRequest()
      modifies this
      ensures formData == MOCK_REQUEST && isLoading == old(isLoading)
    {
      formData := MOCK_REQUEST;
    }

    /** `handleInputChange`: only the field named by the input changes. */
    method HandleInputChange(field: InputField, value: string)
      modifies this
      ensures formData == WithField(old(formData), field, value)
      ensures isLoading == old(isLoading)
    {
      formData := WithField(formData, field, value);
    }

    /** The status select. */
    method SelectStatus(value: string)
      modifies this
      ensures formData == old(formData).(status := value)
      ensures isLoading == old(isLoading)
    {
      formData := formData.(status := value);
    }

    /** The category select; its item values are the lower-cased category names. */
    method SelectServiceCategory(category: string)
      modifies this
      ensures formData == old(formData).(serviceCategory := Text.ToLower(category))
      ensures Text.IsLowerCase(formData.serviceCategory)
      ensures isLoading == old(isLoading)
    {
      formData := formData.(serviceCategory := Text.ToLower(category));
    }

    /** The urgency select. */
    method SelectUrgency(value: string)
      modifies this
      ensures formData == old(formData).(urgency := value)
      ensures isLoading == old(isLoading)
    {
      formData := formData.(urgency := value);
    }

    /**
     * A press on "Update Request": the button is disabled while loading, and
     * the browser submits the form only when every required input is filled.
     * A submission starts the update; the form is kept either way.
     */
    method PressUpdate() returns (updating: bool)
      modifies this
      ensures updating <==> !old(isLoading) && old(RequiredFilled())
      ensures isLoading == (old(isLoading) || updating)
      ensures formData == old(formData)
    {
      updating := !isLoading && RequiredFilled();
      if updating {
        isLoading := true;
      }
    }

    /**
     * A press on "Delete" (disabled while loading); `confirmed` is the answer
     * of the confirmation dialog. The delete starts only on a confirmation,
     * and the form is kept either way.
     */
    method PressDelete(confirmed: bool) returns (deleting: bool)
      modifies this
      ensures deleting <==> !old(isLoading) && confirmed
      ensures isLoading == (old(isLoading) || deleting)
      ensures formData == old(formData)
    {
      deleting := !isLoading && confirmed;
      if deleting {
        isLoading := true;
      }
    }

    /** The update timer firing. */
    method UpdateCompleted() returns (t: Toast)
      modifies this
      ensures !isLoading && formData == old(formData)
      ensures t.title == "Request Updated!" && !t.destructive
    {
      t := Toast("Request Updated!", "Your service request has been successfully updated.", false);
      isLoading := false;
    }

    /** The delete timer firing. */
    method DeleteCompleted() returns (t: Toast)
      modifies this
      ensures !isLoading && formData == old(formData)
      ensures t.title == "Request Deleted" && t.destructive
    {
      t := Toast("Request Deleted", "Your service request has been deleted.", true);
      isLoading := false;
    }
  }
}
