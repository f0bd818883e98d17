# Veterinary clinic app: title casing, pet validation and appointment-card decisions

This project models the three pieces of self-contained logic in the veterinary
pet-monitoring and healthcare-management web application. It proves properties
of each.

- **`toTitleCase`** (`TitleCase`). This helper turns enum values and names into
  display text: on the appointment card it shows the pet's name, species and
  breed, the appointment type and the vet's specialization, and the pet schemas
  apply it to a name they parse (`PetSchema`, `UpdatePetSchema`). The status
  badge does not use it (it capitalises only the first character), and neither
  does the pet page for species, breed and sex. It lower-cases the text,
  splits it on `_`, upper-cases the first character of each piece and joins the
  pieces with one space. The model follows that pipeline. It builds on a model of
  JavaScript's `split` and `join`, with their round trip proved. It is also proved
  equal to a single left-to-right pass and to a position-by-position reference
  (`TitleCharAt`). From that reference follow length preservation, where spaces
  appear, which letters are upper- and lower-case, and the examples: a space is
  not a word boundary, empty pieces become extra spaces, and the function is not
  idempotent.
- **Pet input validation** (`PetDefinition`). These are the zod rules of
  `PetSchema` and `UpdatePetSchema`, one function per field. Each field function
  returns the issues that field raises. The whole-object parse collects the
  issues of every field, as zod does, or returns the accepted value with its name
  trimmed and title-cased. `Message` gives each issue's text, and
  the text alone identifies the issue. The Prisma
  enumerations are abstract sets (`Enums`). The clock reading is a parameter
  `now`. Weights and pet ids are JavaScript numbers, modelled as reals. The name
  length is counted in UTF-16 code units, as `String.prototype.length` counts it.
- **Appointment card decisions** (`AppointmentCard`). These are the pure
  decisions of the `AppointmentCard` component:
  - the badge colour lookup and the badge label;
  - the fallbacks for duration, veterinarian name, breed and notes;
  - which section each viewer (user, vet, clinic) sees;
  - which footer actions (cancel, check-in, accept, finalize) are offered for a
    status, a viewer and `showFooter`;
  - which button confirms each action.

  The finalize dialog confirms with the same `AcceptAppointmentButton` as the
  accept dialog (`ControlOf`).

`JsString` models the JavaScript string built-ins these depend on: case mapping,
`trim` with the ECMAScript whitespace set, and the UTF-16 `length`. `Wrappers`
holds `Option` (for `undefined`/`null`) and `Result`.

Two places where the code does less than an appointment lifecycle would lead
one to expect; the model follows the code:
- The intended lifecycle requested → confirmed → checked_in → completed would
  make completed and cancelled final, with transition guards and a conflict
  check between bookings. None of these exist in the code. Cancelling sets the
  status to `cancelled` unconditionally (actions/appointment.ts:303-310), booking
  inserts the appointment without any overlap check, and the card offers Cancel
  for a completed appointment (`CancelOfferedOnFinishedAppointments`).
- The card itself tests for the status `checked_in`
  (components/shared/appointment-card.tsx:266), but the colour table (lines
  29-35) has no entry for it, nor for `no_show`; it has one for `pending`, which
  the card never tests for. Both `checked_in` and `no_show` fall back to grey
  (`BadgeColours`).

## Model

| member | source | states |
|---|---|---|
| JsString.Upper | lib/functions/text/title-case.ts:6 | `toUpperCase` on a character maps each ASCII lower-case letter to its upper-case partner and keeps every other character |
| JsString.Lower | lib/functions/text/title-case.ts:4 | `toLowerCase` on a character maps each ASCII upper-case letter to its lower-case partner and keeps every other character |
| JsString.LowerStr | lib/functions/text/title-case.ts:4 | `toLowerCase` keeps the length and lower-cases each position independently |
| JsString.SkipLeading | schemas/pet-definition.ts:10 | the scan for the start of the trimmed text passes only whitespace and stops at a non-whitespace character or the end |
| JsString.SkipTrailing | schemas/pet-definition.ts:10 | the scan for the end of the trimmed text passes only whitespace and stops after a non-whitespace character or at its lower bound |
| JsString.Trim | schemas/pet-definition.ts:10 | `trim` never lengthens its input, and gives `""` exactly when the input is all whitespace |
| JsString.TrimIsSlice | schemas/pet-definition.ts:10 | `trim` returns a contiguous slice of its input; only whitespace is cut on each side; the slice neither starts nor ends with whitespace |
| JsString.TrimAllWhitespace | schemas/pet-definition.ts:10 | a string of only whitespace trims to `""` |
| JsString.TrimIgnoresPadding | schemas/pet-definition.ts:10 | appending whitespace to a string does not change its trimmed form |
| JsString.Utf16Length | schemas/pet-definition.ts:6-9 | the length zod measures is at least the number of code points and at most twice it, and equals it for text in the Basic Multilingual Plane |
| JsString.Utf16LengthAppend | schemas/pet-definition.ts:6-9 | the length zod measures of a concatenation is the sum of the two lengths |
| JsString.AllWhitespaceIsBmp | schemas/pet-definition.ts:6-10 | every character `trim` removes is one UTF-16 unit long |
| TitleCase.Split | lib/functions/text/title-case.ts:5 | `split("_")` always yields at least one piece, and no piece contains the separator |
| TitleCase.Join | lib/functions/text/title-case.ts:7 | `join(" ")` begins with the first piece and is at least one character per separator long |
| TitleCase.JoinSeparates | lib/functions/text/title-case.ts:7 | `join(" ")` of two or more pieces is the first piece, one separator, then the join of the remaining pieces, so a separator stands between every two pieces even when the pieces contain it |
| TitleCase.CapitalizeFirst | lib/functions/text/title-case.ts:6 | `charAt(0).toUpperCase() + slice(1)` keeps the length, upper-cases the first character and keeps every other one |
| TitleCase.JoinSplit | lib/functions/text/title-case.ts:5-7 | joining the pieces of a split with the same separator restores the text |
| TitleCase.SplitJoin | lib/functions/text/title-case.ts:5-7 | splitting a join of separator-free pieces restores the pieces |
| TitleCase.CapitalizeAll | lib/functions/text/title-case.ts:6 | the `.map` keeps the number of pieces and capitalises each piece in place |
| TitleCase.ToTitleCase | lib/functions/text/title-case.ts:1-8 | `undefined` and `""` give `""`; every input keeps its length |
| TitleCase.ScanMatchesPipeline | lib/functions/text/title-case.ts:3-7 | split, capitalise and join equals one left-to-right pass that upper-cases after each `_` and turns `_` into a space |
| TitleCase.PipelineIsScan | lib/functions/text/title-case.ts:5-7 | capitalising every piece is that pass started at a piece boundary |
| TitleCase.ToTitleCaseIsScan | lib/functions/text/title-case.ts:3-7 | `toTitleCase` of any string is that pass over its lower-cased form |
| TitleCase.TitleCaseAt | lib/functions/text/title-case.ts:3-7 | output position i is: a space where the input has `_`; the upper-cased input character at position 0 or right after `_`; the lower-cased input character elsewhere |
| TitleCase.TitleCaseFromReference | lib/functions/text/title-case.ts:3-7 | a string that agrees with that per-position reference is the output |
| TitleCase.TitleCaseSpaces | lib/functions/text/title-case.ts:5-7 | the output has a space exactly where the input has `_` or a space, and never contains `_` |
| TitleCase.TitleCaseCasing | lib/functions/text/title-case.ts:4-6 | a letter at the start or right after `_` comes out upper-case; any other letter comes out lower-case; any other character except `_` is kept |
| TitleCase.SpaceIsNotBoundary | lib/functions/text/title-case.ts:5-6 | a letter right after a space is lower-cased |
| TitleCase.MaxPowerExample | lib/functions/text/title-case.ts:5-6 | `"max power"` becomes `"Max power"` |
| TitleCase.EmptyPiecesExample | lib/functions/text/title-case.ts:5-7 | `"a__b"` becomes `"A  B"` and `"_a_"` becomes `" A "` |
| TitleCase.NotIdempotent | lib/functions/text/title-case.ts:4-6 | `"a_b"` gives `"A B"`, but `"A B"` gives `"A b"`, so applying it twice differs from once |
| TitleCase.IdempotentOnOnePiece | lib/functions/text/title-case.ts:4-6 | for text without `_`, applying it twice equals applying it once |
| PetDefinition.Message | schemas/pet-definition.ts:12-55 | each issue's message: the schema's own for the enumerations (lines 12, 17, 22), the date (27), the weight (30) and the pet id's sign (55), zod's defaults for the name's length and the pet id's `int()`; its partners are `IssueOf` and the three lemmas below |
| PetDefinition.MessageIdentifiesIssue | schemas/pet-definition.ts:12-55 | every issue's message, the schema's own or zod's default, can be read back to that issue |
| PetDefinition.MessagesDistinct | schemas/pet-definition.ts:12-55 | no two issues carry the same message |
| PetDefinition.SchemaMessages | schemas/pet-definition.ts:12-55 | the enumeration, date, weight and pet-id issues carry the messages the schema gives them |
| PetDefinition.NameIssues | schemas/pet-definition.ts:6-9 | an empty raw name raises only the too-short issue; a non-empty one over 50 UTF-16 units raises only the too-long issue; any other name raises none; the length is taken before trimming |
| PetDefinition.NormalizeName | schemas/pet-definition.ts:10 | the stored name, `toTitleCase(name.trim())`, is never longer than the raw name |
| PetDefinition.EnumIssues | schemas/pet-definition.ts:11-25 | `sex`, `species` and `breed` are accepted exactly when they belong to their enumeration; otherwise the field's own issue is reported |
| PetDefinition.BirthDateIssues | schemas/pet-definition.ts:26-28 | a date of birth is accepted exactly when it is not after `now` |
| PetDefinition.WeightIssues | schemas/pet-definition.ts:29-31 | a weight is accepted exactly when it is greater than 0 |
| PetDefinition.PetIdIssues | schemas/pet-definition.ts:54-56 | a positive whole number raises nothing; a positive fraction raises the integer issue; a whole number of at most 0 raises the positive issue; a fraction of at most 0 raises both, in that order |
| PetDefinition.PetIssues | schemas/pet-definition.ts:5-34 | a pet raises no issue exactly when the name has 1 to 50 units, the three enum values are members, the date of birth is not after `now` and the weight is positive |
| PetDefinition.ParsePet | schemas/pet-definition.ts:5-34 | a pet is accepted exactly when all six rules hold; it is then stored with its name normalised and every other field unchanged; a refused pet reports at least one issue |
| PetDefinition.PetIssueReported | schemas/pet-definition.ts:5-34 | a pet parse reports an issue exactly when that issue's rule fails on the raw input (`PetRuleFails`), so no update-only issue is reported |
| PetDefinition.UpdatePetIssues | schemas/pet-definition.ts:36-58 | an update raises no issue exactly when the name is accepted, the weight is positive and the pet id raises nothing |
| PetDefinition.ParseUpdatePet | schemas/pet-definition.ts:36-58 | an update is accepted exactly when the name has 1 to 50 units, the weight is positive and the pet id is a whole number of at least 1; the result carries the normalised name and the pet id as an integer |
| PetDefinition.UpdateIssueReported | schemas/pet-definition.ts:36-58 | an update parse reports an issue exactly when that issue's rule fails on the raw input (`UpdateRuleFails`), so no create-only issue is reported |
| PetDefinition.PetIdAcceptsWholeNumbers | schemas/pet-definition.ts:54-56 | every whole number of at least 1 is an accepted pet id |
| PetDefinition.PetIdAcceptedIsWhole | schemas/pet-definition.ts:54-56 | every accepted pet id is a whole number of at least 1 |
| PetDefinition.StoredNameBounded | schemas/pet-definition.ts:6-10 | an accepted name is stored with at most 50 characters |
| PetDefinition.WhitespaceNameStoredEmpty | schemas/pet-definition.ts:6-10 | a name of 1 to 50 whitespace characters passes the length rule and is stored as `""` |
| PetDefinition.PaddingCountsButIsDropped | schemas/pet-definition.ts:6-10 | trailing whitespace adds one unit per character to the length the 50-unit limit measures, so it can push a name over the limit, but it does not change the stored name |
| PetDefinition.OneSpaceOverTheLimit | schemas/pet-definition.ts:6-10 | an accepted 50-unit name followed by one space is refused, though it would be stored the same |
| PetDefinition.SchemasAgreeOnNameAndWeight | schemas/pet-definition.ts:37-53 | the create and update schemas store the same name and the same weight for the same input |
| AppointmentCard.BadgeClass | components/shared/appointment-card.tsx:61 | the badge class is the status's entry in the colour table, or `bg-gray-100` when it has none |
| AppointmentCard.BadgeColours | components/shared/appointment-card.tsx:29-35 | `checked_in` and `no_show` get the grey fallback; every other status has its own distinct colour |
| AppointmentCard.BadgeLabel | components/shared/appointment-card.tsx:62 | the badge label upper-cases only the first character and keeps the rest |
| AppointmentCard.BadgeLabelKeepsUnderscore | components/shared/appointment-card.tsx:62 | `checked_in` is labelled `Checked_in`, whereas `toTitleCase` would give `Checked In` |
| AppointmentCard.DisplayDuration | components/shared/appointment-card.tsx:91 | the duration shown is the appointment's own when it is present and non-zero, otherwise 30, and never 0 |
| AppointmentCard.VetName | components/shared/appointment-card.tsx:52-54 | the vet name is `first last` when the vet's user is present, otherwise `Unknown Veterinarian` |
| AppointmentCard.BreedLabel | components/shared/appointment-card.tsx:112 | the placeholder `Mixed Breed` is used exactly when the breed is missing or empty; otherwise the title-cased breed is shown, with its length |
| AppointmentCard.NotesText | components/shared/appointment-card.tsx:177 | the notes box is never blank: it shows either the notes verbatim or the placeholder, and always the notes when they are present and non-empty |
| AppointmentCard.PetSection | components/shared/appointment-card.tsx:100-113 | vets and clinics see the pet section when the pet is present, with the title-cased name and species and the breed label |
| AppointmentCard.VetSection | components/shared/appointment-card.tsx:121-132 | users and clinics see the vet section when the vet is present, headed `Dr. ` and the vet name; a missing specialization reads as empty |
| AppointmentCard.ClinicSection | components/shared/appointment-card.tsx:142-157 | only users see the clinic section, and only when the clinic is present |
| AppointmentCard.TypeLabel | components/shared/appointment-card.tsx:171 | the appointment type is shown title-cased, with its length kept and no `_` |
| AppointmentCard.OfferedActions | components/shared/appointment-card.tsx:187-290 | Cancel is offered exactly when the status is not `cancelled`; Check-in exactly for a vet on `confirmed`; Accept exactly for a vet or clinic on `requested`; Finalize exactly for a vet on `checked_in`; nothing without a footer; no action twice, and Cancel first |
| AppointmentCard.ControlOf | components/shared/appointment-card.tsx:207-283 | the accept button confirms both Accept and Finalize; each other action has its own button |
| AppointmentCard.FooterGatesActions | components/shared/appointment-card.tsx:187-303 | without the footer neither a card action nor the caller's extra actions appear; with it the extra actions appear exactly when passed, whatever the status and viewer, and any status but `cancelled` offers some action |
| AppointmentCard.AtMostOneForwardAction | components/shared/appointment-card.tsx:215-290 | at most one of Check-in, Accept and Finalize is offered, so at most two actions in all |
| AppointmentCard.ForwardActionsFollowLifecycle | components/shared/appointment-card.tsx:215-290 | each forward action offered starts from the status the lifecycle requested → confirmed → checked_in → completed moves on from, and never appears for a user |
| AppointmentCard.CancelOfferedOnFinishedAppointments | components/shared/appointment-card.tsx:190 | Cancel is offered to every viewer of a `completed` or `no_show` appointment |
| AppointmentCard.UserOnlyCancels | components/shared/appointment-card.tsx:190-266 | a user is offered Cancel unless the status is `cancelled`, and nothing else |
| AppointmentCard.CancelledOffersNothing | actions/appointment.ts:303-310 | after the unconditional cancel, the card offers no action to anyone |
| AppointmentCard.NewAppointmentActions | actions/appointment.ts:127 | a newly booked appointment is `requested`: its owner may cancel it; a vet or clinic may cancel or accept it |
| AppointmentCard.SectionsByViewer | components/shared/appointment-card.tsx:100-142 | users never see the pet; vets see only the pet; clinics see pet and vet but not the clinic |

## Left out

- Case mapping covers ASCII letters only. JavaScript's `toLowerCase` and `toUpperCase` also map other scripts, and some mappings change the length (`"ß".toUpperCase()` is `"SS"`). The model leaves all non-ASCII characters unchanged, so its length-preservation results are about the modelled mapping.
- Missing or mistyped fields are not modelled. zod's `required_error` and `invalid_type_error` paths, and its default type errors, cover these. The model takes each input field as already of the right type.
- The string branch of `UpdatePetSchema.weight_kg` is not modelled. It uses `parseFloat` and throws on `NaN`. Only the numeric branch and its `> 0` rule are modelled.
- Floating point is not modelled: weights and pet ids are reals, with no `NaN`, infinities or rounding. An invalid `Date` is not modelled: dates are integer instants.
- `profile_picture_url` and `profile_picture_key` are carried through unchanged. The schema puts no rule on them beyond being optional strings.
- The clock reads (`new Date()`) are left out. The model takes the current instant as `now`.
- The date and time formatting (date-fns) is left out, and so is the `created_at` fallback that feeds it. `formatDecimal` for the displayed weight is left out too.
- The card's JSX layout, icons and dialogs are left out. Only its decisions are modelled.
- What the confirm buttons do is not modelled: `CancelAppointmentButton`, `CheckInButton` and `AcceptAppointmentButton` are not part of this model.
- Looking up inherited object keys in `statusColors` (a status such as `"constructor"`) is not modelled. The table is a plain map.
- The server actions (`actions/*.ts`) are left out: they are database queries, session lookups, redirects and password hashing. Of them the model keeps two facts: booking stores status `requested`, and cancelling stores `cancelled` unconditionally.
- There is no conflict check or transition guard in the code, so none is modelled. Cancel is reachable from every status, and the existing-appointment query does not exclude cancelled appointments.
- Forms, page layouts, routing, middleware and the sign-up form test are left out: they are UI and framework plumbing with no logic of their own here.
- Strings that are not sequences of Unicode scalar values are not representable. A JavaScript string may hold an unpaired surrogate; a name containing one cannot be given to the model.
- The breed tables in `types/breed-types.ts` are left out. The breed enumeration is an abstract set.
