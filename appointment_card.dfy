/**
 * The decisions `AppointmentCard` makes: the status badge, the displayed
 * duration and names, which sections a viewer sees, and which actions the
 * footer offers for a status and a viewer.
 */
module AppointmentCard {
  import opened Wrappers
  import opened JsString
  import opened TitleCase

  /** Who is looking at the card (`viewerType`). */
  datatype Viewer = User | Vet | Clinic

  /** The actions the footer can offer, in the order it lays them out. */
  datatype Action = Cancel | CheckIn | Accept | Finalize

  /** The button that confirms an action's dialog. */
  datatype Control = CancelAppointmentButton | CheckInButton | AcceptAppointmentButton

  datatype Person = Person(firstName: string, lastName: string)

  datatype Veterinarian = Veterinarian(users: Option<Person>, specialization: Option<string>)

  datatype PetDetails = PetDetails(name: string, species: string, breed: Option<string>)

  datatype ClinicDetails = ClinicDetails(
    name: string, address: string, city: string, state: string, postalCode: string, phoneNumber: string)

  /** The fields of an appointment the card's decisions look at; the relations may be missing. */
  datatype Appointment = Appointment(
    status: string,
    durationMinutes: Option<int>,
    appointmentType: string,
    notes: Option<string>,
    pets: Option<PetDetails>,
    veterinarians: Option<Veterinarian>,
    clinics: Option<ClinicDetails>)

  const Requested := "requested"
  const Confirmed := "confirmed"
  const CheckedIn := "checked_in"
  const Completed := "completed"
  const Cancelled := "cancelled"
  const NoShow := "no_show"

  /** The statuses an appointment can hold. */
  const Statuses: set<string> := {Requested, Confirmed, CheckedIn, Completed, Cancelled, NoShow}

  // ---------------------------------------------------------------------------
  // Badge

  /** `statusColors`: it has no entry for `checked_in` or `no_show`, and one for `pending`, which is not a status. */
  const StatusColors: map<string, string> := map[
    Confirmed := "bg-green-100 text-green-800 border-green-200",
    Requested := "bg-blue-100 text-blue-800 border-blue-200",
    Completed := "bg-purple-100 text-purple-800 border-purple-200",
    Cancelled := "bg-red-100 text-red-800 border-red-200",
    "pending" := "bg-yellow-100 text-yellow-800 border-yellow-200"]

  const FallbackBadgeClass := "bg-gray-100"

  /** `statusColors[status] || "bg-gray-100"`: the table's entry, or grey for a status missing from it. */
  function BadgeClass(status: string): (r: string)
    ensures status in StatusColors ==> r == StatusColors[status]
    ensures status !in StatusColors ==> r == FallbackBadgeClass
    ensures r != []
  {
    if status in StatusColors && StatusColors[status] != [] then StatusColors[status] else FallbackBadgeClass
  }

  /** `status.charAt(0).toUpperCase() + status.slice(1)`: only the first character changes. */
  function BadgeLabel(status: string): (r: string)
    ensures |r| == |status|
    ensures status != [] ==> r[0] == Upper(status[0]) && r[1..] == status[1..]
  {
    CapitalizeFirst(status)
  }

  // ---------------------------------------------------------------------------
  // Fallbacks

  const DefaultDurationMinutes := 30

  /** `duration_minutes || 30`: a missing or zero duration shows as 30 minutes. */
  function DisplayDuration(durationMinutes: Option<int>): (r: int)
    ensures r != 0
    ensures durationMinutes.Some? && durationMinutes.value != 0 ==> r == durationMinutes.value
    ensures durationMinutes.None? || durationMinutes.value == 0 ==> r == DefaultDurationMinutes
  {
    match durationMinutes
    case Some(d) => if d != 0 then d else DefaultDurationMinutes
    case None => DefaultDurationMinutes
  }

  const UnknownVeterinarian := "Unknown Veterinarian"

  /** `vetName`: the vet's user's first and last name, or a placeholder when that relation is missing. */
  function VetName(a: Appointment): (r: string)
    ensures a.veterinarians.Some? && a.veterinarians.value.users.Some? ==>
      var u := a.veterinarians.value.users.value;
      r == u.firstName + " " + u.lastName
    ensures a.veterinarians.None? || a.veterinarians.value.users.None? ==> r == UnknownVeterinarian
  {
    match a.veterinarians
    case Some(Veterinarian(Some(u), _)) => u.firstName + " " + u.lastName
    case _ => UnknownVeterinarian
  }

  const MixedBreed := "Mixed Breed"

  /** `toTitleCase(breed) || "Mixed Breed"`: the placeholder is used exactly when the breed is missing or empty. */
  function BreedLabel(breed: Option<string>): (r: string)
    ensures breed.None? || breed.value == [] ==> r == MixedBreed
    ensures breed.Some? && breed.value != [] ==> r == ToTitleCase(breed) && |r| == |breed.value|
  {
    var t := ToTitleCase(breed);
    if t == [] then MixedBreed else t
  }

  const NoNotes := "No additional notes provided."

  /**
   * `notes || "No additional notes provided."`: the notes box is never blank,
   * and it shows either the caller's notes verbatim or the placeholder.
   */
  function NotesText(notes: Option<string>): (r: string)
    ensures r != []
    ensures r == NoNotes || (notes.Some? && r == notes.value)
    ensures notes.Some? && notes.value != [] ==> r == notes.value
  {
    if notes.Some? && notes.value != [] then notes.value else NoNotes
  }

  // ---------------------------------------------------------------------------
  // Sections

  /** What the pet section shows: name, species and breed label. */
  datatype PetLines = PetLines(name: string, species: string, breed: string)

  /** What the veterinarian section shows: the heading and the specialization. */
  datatype VetLines = VetLines(heading: string, specialization: string)

  /** The pet section: for vets and clinics, when the pet relation is present. */
  function PetSection(a: Appointment, viewer: Viewer): (r: Option<PetLines>)
    ensures r.Some? <==> (viewer == Vet || viewer == Clinic) && a.pets.Some?
    ensures r.Some? ==>
      r.value.name == ToTitleCase(Some(a.pets.value.name)) &&
      r.value.species == ToTitleCase(Some(a.pets.value.species)) &&
      r.value.breed == BreedLabel(a.pets.value.breed)
  {
    if (viewer == Vet || viewer == Clinic) && a.pets.Some? then
      var p := a.pets.value;
      Some(PetLines(ToTitleCase(Some(p.name)), ToTitleCase(Some(p.species)), BreedLabel(p.breed)))
    else None
  }

  /**
   * The veterinarian section: for users and clinics, when the veterinarian
   * relation is present; `specialization ?? ""` makes a missing
   * specialization read as empty.
   */
  function VetSection(a: Appointment, viewer: Viewer): (r: Option<VetLines>)
    ensures r.Some? <==> (viewer == User || viewer == Clinic) && a.veterinarians.Some?
    ensures r.Some? ==>
      r.value.heading == "Dr. " + VetName(a) &&
      r.value.specialization == ToTitleCase(a.veterinarians.value.specialization)
  {
    if (viewer == User || viewer == Clinic) && a.veterinarians.Some? then
      var v := a.veterinarians.value;
      var spec := if v.specialization.Some? then v.specialization.value else "";
      Some(VetLines("Dr. " + VetName(a), ToTitleCase(Some(spec))))
    else None
  }

  /** The clinic section: for users only, when the clinic relation is present. */
  function ClinicSection(a: Appointment, viewer: Viewer): (r: Option<ClinicDetails>)
    ensures r.Some? <==> viewer == User && a.clinics.Some?
    ensures r.Some? ==> r == a.clinics
  {
    if viewer == User && a.clinics.Some? then a.clinics else None
  }

  /** The appointment type, title-cased. */
  function TypeLabel(a: Appointment): (r: string)
    ensures |r| == |a.appointmentType|
    ensures '_' !in r
  {
    TitleCaseSpaces(a.appointmentType);
    ToTitleCase(Some(a.appointmentType))
  }

  // ---------------------------------------------------------------------------
  // Footer

  /**
   * The actions the footer offers, in layout order. `showFooter` defaults to
   * true; when it is false there is no footer and so no action.
   */
  function OfferedActions(status: string, viewer: Viewer, showFooter: bool): (r: seq<Action>)
    ensures Cancel in r <==> showFooter && status != Cancelled
    ensures CheckIn in r <==> showFooter && status == Confirmed && viewer == Vet
    ensures Accept in r <==> showFooter && status == Requested && (viewer == Vet || viewer == Clinic)
    ensures Finalize in r <==> showFooter && status == CheckedIn && viewer == Vet
    ensures !showFooter ==> r == []
    ensures forall i, j :: 0 <= i < j < |r| ==> r[i] != r[j]
    ensures Cancel in r ==> r[0] == Cancel
  {
    if !showFooter then []
    else
      (if status != Cancelled then [Cancel] else []) +
      (if status == Confirmed && viewer == Vet then [CheckIn] else []) +
      (if status == Requested && (viewer == Vet || viewer == Clinic) then [Accept] else []) +
      (if status == CheckedIn && viewer == Vet then [Finalize] else [])
  }

  /** The button each action's dialog confirms with; finalizing uses the accept button. */
  function ControlOf(action: Action): (r: Control)
    ensures r == CancelAppointmentButton <==> action == Cancel
    ensures r == CheckInButton <==> action == CheckIn
    ensures r == AcceptAppointmentButton <==> action == Accept || action == Finalize
  {
    match action
    case Cancel => CancelAppointmentButton
    case CheckIn => CheckInButton
    case Accept => AcceptAppointmentButton
    case Finalize => AcceptAppointmentButton
  }

  /** Whether the caller's `additionalActions` are rendered; they live inside the footer. */
  predicate ShowsAdditionalActions(showFooter: bool, hasAdditionalActions: bool)
  {
    showFooter && hasAdditionalActions
  }

  /**
   * `showFooter` gates the whole footer: without it neither a built-in action nor
   * the caller's extra actions appear; with it the extra actions appear exactly
   * when the caller passed some, whatever the status and the viewer.
   */
  lemma FooterGatesActions(status: string, viewer: Viewer, showFooter: bool, hasAdditionalActions: bool)
    ensures !showFooter ==> OfferedActions(status, viewer, showFooter) == [] && !ShowsAdditionalActions(showFooter, hasAdditionalActions)
    ensures showFooter ==> (ShowsAdditionalActions(showFooter, hasAdditionalActions) <==> hasAdditionalActions)
    ensures showFooter && status != Cancelled ==> OfferedActions(status, viewer, showFooter) != []
  {
  }

  // ---------------------------------------------------------------------------
  // Properties

  /** Apart from cancelling, the footer offers at most one action, and never more than two in all. */
  lemma AtMostOneForwardAction(status: string, viewer: Viewer, showFooter: bool)
    ensures var r := OfferedActions(status, viewer, showFooter);
      |r| <= 2 &&
      !(CheckIn in r && Accept in r) && !(CheckIn in r && Finalize in r) && !(Accept in r && Finalize in r)
  {
  }

  /** The status the intended lifecycle moves an appointment from with a forward action. */
  function ForwardFrom(action: Action): Option<string>
  {
    match action
    case Accept => Some(Requested)
    case CheckIn => Some(Confirmed)
    case Finalize => Some(CheckedIn)
    case Cancel => None
  }

  /**
   * Every forward action the footer offers starts from the status the
   * lifecycle requested → confirmed → checked_in → completed moves it on
   * from, and a user is never offered one.
   */
  lemma ForwardActionsFollowLifecycle(status: string, viewer: Viewer, showFooter: bool, x: Action)
    requires x in OfferedActions(status, viewer, showFooter) && x != Cancel
    ensures ForwardFrom(x) == Some(status)
    ensures viewer != User
  {
  }

  /**
   * Cancelling is offered to every viewer of a completed or no-show
   * appointment too, although the intended lifecycle would treat completion as final.
   */
  lemma CancelOfferedOnFinishedAppointments(viewer: Viewer)
    ensures Cancel in OfferedActions(Completed, viewer, true)
    ensures Cancel in OfferedActions(NoShow, viewer, true)
  {
  }

  /** A user is offered cancelling and nothing else. */
  lemma UserOnlyCancels(status: string)
    ensures OfferedActions(status, User, true) == if status == Cancelled then [] else [Cancel]
  {
  }

  /** Cancelling sets the status to `cancelled` whatever it was; after that the card offers nothing. */
  lemma CancelledOffersNothing(viewer: Viewer, showFooter: bool)
    ensures OfferedActions(Cancelled, viewer, showFooter) == []
  {
  }

  /** A newly created appointment is `requested`: vets and clinics may accept or cancel it, its owner may cancel it. */
  lemma NewAppointmentActions()
    ensures OfferedActions(Requested, User, true) == [Cancel]
    ensures OfferedActions(Requested, Vet, true) == [Cancel, Accept]
    ensures OfferedActions(Requested, Clinic, true) == [Cancel, Accept]
  {
  }

  /** The lifecycle statuses missing from the colour table fall back to grey; the others each have their own colour. */
  lemma BadgeColours()
    ensures BadgeClass(CheckedIn) == FallbackBadgeClass && BadgeClass(NoShow) == FallbackBadgeClass
    ensures forall s, t :: s in Statuses && t in Statuses && s != t && s in StatusColors && t in StatusColors ==>
      BadgeClass(s) != BadgeClass(t)
    ensures forall s :: s in Statuses && s in StatusColors ==> BadgeClass(s) != FallbackBadgeClass
  {
  }

  /** The badge keeps underscores, unlike `toTitleCase`: `checked_in` reads `Checked_in`. */
  lemma BadgeLabelKeepsUnderscore()
    ensures BadgeLabel(CheckedIn) == "Checked_in"
    ensures ToTitleCase(Some(CheckedIn)) == "Checked In"
  {
    assert BadgeLabel(CheckedIn) == "Checked_in" by {
      assert Upper('c') == 'C';
      assert BadgeLabel(CheckedIn) == ['C'] + CheckedIn[1..];
    }
    assert ToTitleCase(Some(CheckedIn)) == "Checked In" by {
      TitleCaseFromReference(CheckedIn, "Checked In");
    }
  }

  /** Which sections each viewer can see. */
  lemma SectionsByViewer(a: Appointment)
    ensures PetSection(a, User).None? && ClinicSection(a, Vet).None? && ClinicSection(a, Clinic).None?
    ensures VetSection(a, Vet).None?
    ensures a.pets.Some? ==> PetSection(a, Vet).Some? && PetSection(a, Clinic).Some?
    ensures a.veterinarians.Some? ==> VetSection(a, User).Some? && VetSection(a, Clinic).Some?
    ensures a.clinics.Some? ==> ClinicSection(a, User).Some?
  {
  }
}
