/**
 * The field rules of `PetSchema` (creating a pet) and `UpdatePetSchema`
 * (editing one): what each accepts, the issues it reports otherwise, and the
 * name transform.
 */
module PetDefinition {
  import opened Wrappers
  import opened JsString
  import opened TitleCase

  /** The values of the Prisma enumerations `pet_sex_type`, `species_type` and `breed_type`. */
  datatype Enums = Enums(sexes: set<string>, species: set<string>, breeds: set<string>)

  /** An instant as milliseconds since the epoch; the clock reading is passed in as `now`. */
  type Instant = int

  /** One failed rule; an object parse reports every failed rule of every field. */
  datatype Issue =
    | NameTooShort
    | NameTooLong
    | InvalidSex
    | InvalidSpecies
    | InvalidBreed
    | BirthDateInFuture
    | WeightNotPositive
    | PetIdNotInteger
    | PetIdNotPositive

  /** The message each issue carries: the schema's own where it gives one, zod's default otherwise. */
  function Message(i: Issue): string
  {
    match i
    case NameTooShort => "String must contain at least 1 character(s)"
    case NameTooLong => "String must contain at most 50 character(s)"
    case InvalidSex => "Invalid sex type"
    case InvalidSpecies => "Invalid species type"
    case InvalidBreed => "Invalid breed type"
    case BirthDateInFuture => "Date of birth must be in the past"
    case WeightNotPositive => "Weight must be a positive number"
    case PetIdNotInteger => "Expected integer, received float"
    case PetIdNotPositive => "Pet ID must be a positive integer"
  }

  /** Reads the issue back from its message, by its length and at most two of its characters. */
  function IssueOf(m: string): Option<Issue>
  {
    if |m| == 43 then Some(if m[23] == 'l' then NameTooShort else NameTooLong)
    else if |m| == 16 then Some(InvalidSex)
    else if |m| == 20 then Some(InvalidSpecies)
    else if |m| == 18 then Some(InvalidBreed)
    else if |m| == 33 then Some(if m[0] == 'D' then BirthDateInFuture else PetIdNotPositive)
    else if |m| == 32 then Some(if m[0] == 'W' then WeightNotPositive else PetIdNotInteger)
    else None
  }

  /** Every message names its issue, so the text alone tells which rule failed. */
  lemma MessageIdentifiesIssue(i: Issue)
    ensures IssueOf(Message(i)) == Some(i)
  {
    match i
    case NameTooShort =>
    case NameTooLong =>
    case InvalidSex =>
    case InvalidSpecies =>
    case InvalidBreed =>
    case BirthDateInFuture =>
    case WeightNotPositive =>
    case PetIdNotInteger =>
    case PetIdNotPositive =>
  }

  /** No two issues share a message. */
  lemma MessagesDistinct(i: Issue, j: Issue)
    requires i != j
    ensures Message(i) != Message(j)
  {
    MessageIdentifiesIssue(i);
    MessageIdentifiesIssue(j);
  }

  /** The enumerations and the refinements report the schema's own messages rather than zod's defaults. */
  lemma SchemaMessages()
    ensures Message(InvalidSex) == "Invalid sex type"
    ensures Message(InvalidSpecies) == "Invalid species type"
    ensures Message(InvalidBreed) == "Invalid breed type"
    ensures Message(BirthDateInFuture) == "Date of birth must be in the past"
    ensures Message(WeightNotPositive) == "Weight must be a positive number"
    ensures Message(PetIdNotPositive) == "Pet ID must be a positive integer"
  {
  }

  /** The input of `PetSchema`; weights are JavaScript numbers, modelled as reals. */
  datatype PetInput = PetInput(
    name: string,
    sex: string,
    species: string,
    breed: string,
    dateOfBirth: Instant,
    weightKg: real,
    profilePictureUrl: Option<string>,
    profilePictureKey: Option<string>)

  /** The input of `UpdatePetSchema` (the numeric branch of `weight_kg`). */
  datatype UpdatePetInput = UpdatePetInput(
    name: string,
    weightKg: real,
    petId: real,
    profilePictureUrl: Option<string>)

  /** What `UpdatePetSchema` yields; an accepted pet id is a whole number. */
  datatype UpdatePet = UpdatePet(name: string, weightKg: real, petId: int, profilePictureUrl: Option<string>)

  const NameMinLength: nat := 1
  const NameMaxLength: nat := 50

  // ---------------------------------------------------------------------------
  // Field rules

  /** `z.string().min(1).max(50)`, measured in UTF-16 code units of the raw, untrimmed text. */
  function NameIssues(raw: string): (r: seq<Issue>)
    ensures raw == [] ==> r == [NameTooShort]
    ensures raw != [] && Utf16Length(raw) > NameMaxLength ==> r == [NameTooLong]
    ensures raw != [] && Utf16Length(raw) <= NameMaxLength ==> r == []
  {
    (if Utf16Length(raw) < NameMinLength then [NameTooShort] else []) +
    (if Utf16Length(raw) > NameMaxLength then [NameTooLong] else [])
  }

  predicate NameAccepted(raw: string)
  {
    NameIssues(raw) == []
  }

  /** `.transform((name) => toTitleCase(name.trim()))`. */
  function NormalizeName(raw: string): (r: string)
    ensures |r| <= |raw|
  {
    ToTitleCase(Some(Trim(raw)))
  }

  /** `z.enum(Object.values(e), { message })` for one enumeration. */
  function EnumIssues(v: string, members: set<string>, issue: Issue): (r: seq<Issue>)
    ensures r == [] <==> v in members
    ensures r != [] ==> r == [issue]
  {
    if v in members then [] else [issue]
  }

  /** `z.date().refine((date) => date <= new Date())`. */
  function BirthDateIssues(dateOfBirth: Instant, now: Instant): (r: seq<Issue>)
    ensures r == [] <==> dateOfBirth <= now
    ensures r != [] ==> r == [BirthDateInFuture]
  {
    if dateOfBirth <= now then [] else [BirthDateInFuture]
  }

  /** `.refine((value) => value > 0)` on the weight. */
  function WeightIssues(weightKg: real): (r: seq<Issue>)
    ensures r == [] <==> weightKg > 0.0
    ensures r != [] ==> r == [WeightNotPositive]
  {
    if weightKg > 0.0 then [] else [WeightNotPositive]
  }

  predicate IsInteger(x: real)
  {
    x.Floor as real == x
  }

  /** `z.number().int().positive()`: both checks run, so a negative fraction reports both. */
  function PetIdIssues(petId: real): (r: seq<Issue>)
    ensures IsInteger(petId) && petId > 0.0 ==> r == []
    ensures !IsInteger(petId) && petId > 0.0 ==> r == [PetIdNotInteger]
    ensures IsInteger(petId) && petId <= 0.0 ==> r == [PetIdNotPositive]
    ensures !IsInteger(petId) && petId <= 0.0 ==> r == [PetIdNotInteger, PetIdNotPositive]
  {
    (if IsInteger(petId) then [] else [PetIdNotInteger]) +
    (if petId > 0.0 then [] else [PetIdNotPositive])
  }

  // ---------------------------------------------------------------------------
  // Whole-object parses

  /** The issues of every field, in the schema's field order. */
  function PetIssues(p: PetInput, now: Instant, enums: Enums): (r: seq<Issue>)
    ensures r == [] <==>
      NameAccepted(p.name) && p.sex in enums.sexes && p.species in enums.species && p.breed in enums.breeds &&
      p.dateOfBirth <= now && p.weightKg > 0.0
  {
    NameIssues(p.name) +
    EnumIssues(p.sex, enums.sexes, InvalidSex) +
    EnumIssues(p.species, enums.species, InvalidSpecies) +
    EnumIssues(p.breed, enums.breeds, InvalidBreed) +
    BirthDateIssues(p.dateOfBirth, now) +
    WeightIssues(p.weightKg)
  }

  /**
   * `PetSchema.safeParse`: every failed rule is reported, and an accepted
   * input comes back with its name trimmed and title-cased and every other
   * field as given.
   */
  function ParsePet(p: PetInput, now: Instant, enums: Enums): (r: Result<PetInput, seq<Issue>>)
    ensures r.Ok? <==>
      NameMinLength <= Utf16Length(p.name) <= NameMaxLength &&
      p.sex in enums.sexes && p.species in enums.species && p.breed in enums.breeds &&
      p.dateOfBirth <= now && p.weightKg > 0.0
    ensures r.Ok? ==> r.value == p.(name := NormalizeName(p.name))
    ensures r.Err? ==> r.error == PetIssues(p, now, enums) && r.error != []
  {
    var issues := PetIssues(p, now, enums);
    if issues == [] then Ok(p.(name := NormalizeName(p.name))) else Err(issues)
  }

  /** The issues of every field, in the schema's field order. */
  function UpdatePetIssues(u: UpdatePetInput): (r: seq<Issue>)
    ensures r == [] <==> NameAccepted(u.name) && u.weightKg > 0.0 && PetIdIssues(u.petId) == []
  {
    NameIssues(u.name) + WeightIssues(u.weightKg) + PetIdIssues(u.petId)
  }

  /**
   * `UpdatePetSchema.safeParse` on a numeric weight: the same name rule and
   * transform and the same weight rule as `PetSchema`, plus a pet id that must
   * be a whole number of at least 1.
   */
  function ParseUpdatePet(u: UpdatePetInput): (r: Result<UpdatePet, seq<Issue>>)
    ensures r.Ok? <==>
      NameMinLength <= Utf16Length(u.name) <= NameMaxLength && u.weightKg > 0.0 &&
      IsInteger(u.petId) && u.petId >= 1.0
    ensures r.Ok? ==>
      r.value.name == NormalizeName(u.name) && r.value.weightKg == u.weightKg &&
      r.value.petId >= 1 && r.value.petId as real == u.petId &&
      r.value.profilePictureUrl == u.profilePictureUrl
    ensures r.Err? ==> r.error == UpdatePetIssues(u) && r.error != []
  {
    var issues := UpdatePetIssues(u);
    if issues == [] then
      PetIdAcceptedIsWhole(u.petId);
      Ok(UpdatePet(NormalizeName(u.name), u.weightKg, u.petId.Floor, u.profilePictureUrl))
    else Err(issues)
  }

  // ---------------------------------------------------------------------------
  // Properties

  /** The condition under which `PetSchema` raises issue `x`, stated on the raw input. */
  predicate PetRuleFails(p: PetInput, now: Instant, enums: Enums, x: Issue)
  {
    match x
    case NameTooShort => p.name == []
    case NameTooLong => Utf16Length(p.name) > NameMaxLength
    case InvalidSex => p.sex !in enums.sexes
    case InvalidSpecies => p.species !in enums.species
    case InvalidBreed => p.breed !in enums.breeds
    case BirthDateInFuture => p.dateOfBirth > now
    case WeightNotPositive => p.weightKg <= 0.0
    case PetIdNotInteger => false
    case PetIdNotPositive => false
  }

  /** The condition under which `UpdatePetSchema` raises issue `x`, stated on the raw input. */
  predicate UpdateRuleFails(u: UpdatePetInput, x: Issue)
  {
    match x
    case NameTooShort => u.name == []
    case NameTooLong => Utf16Length(u.name) > NameMaxLength
    case WeightNotPositive => u.weightKg <= 0.0
    case PetIdNotInteger => !IsInteger(u.petId)
    case PetIdNotPositive => u.petId <= 0.0
    case InvalidSex => false
    case InvalidSpecies => false
    case InvalidBreed => false
    case BirthDateInFuture => false
  }

  /** A pet parse reports an issue exactly when that issue's rule fails. */
  lemma PetIssueReported(p: PetInput, now: Instant, enums: Enums, x: Issue)
    ensures x in PetIssues(p, now, enums) <==> PetRuleFails(p, now, enums, x)
  {
    match x
    case NameTooShort =>
    case NameTooLong =>
    case InvalidSex =>
    case InvalidSpecies =>
    case InvalidBreed =>
    case BirthDateInFuture =>
    case WeightNotPositive =>
    case PetIdNotInteger =>
    case PetIdNotPositive =>
  }

  /** An update parse reports an issue exactly when that issue's rule fails. */
  lemma UpdateIssueReported(u: UpdatePetInput, x: Issue)
    ensures x in UpdatePetIssues(u) <==> UpdateRuleFails(u, x)
  {
    match x
    case NameTooShort =>
    case NameTooLong =>
    case WeightNotPositive =>
    case PetIdNotInteger =>
    case PetIdNotPositive =>
    case InvalidSex =>
    case InvalidSpecies =>
    case InvalidBreed =>
    case BirthDateInFuture =>
  }

  /** Every whole number of at least 1 is an accepted pet id. */
  lemma PetIdAcceptsWholeNumbers(n: int)
    requires n >= 1
    ensures PetIdIssues(n as real) == []
  {
    assert (n as real).Floor == n;
  }

  /** An accepted pet id is a whole number of at least 1; anything else is refused. */
  lemma PetIdAcceptedIsWhole(petId: real)
    requires PetIdIssues(petId) == []
    ensures petId == petId.Floor as real && petId.Floor >= 1
  {
  }

  /** A stored name never exceeds the accepted raw length, so it is at most 50 characters. */
  lemma StoredNameBounded(raw: string)
    requires NameAccepted(raw)
    ensures |NormalizeName(raw)| <= NameMaxLength
  {
  }

  /** A name of only whitespace passes the length rule and is stored as the empty string. */
  lemma WhitespaceNameStoredEmpty(raw: string)
    requires raw != [] && |raw| <= NameMaxLength && AllWhitespace(raw)
    ensures NameAccepted(raw)
    ensures NormalizeName(raw) == []
  {
    AllWhitespaceIsBmp(raw);
    TrimAllWhitespace(raw);
  }

  /**
   * The length rule looks at the untrimmed text: trailing whitespace counts
   * against the limit of 50 yet leaves no trace in the stored name.
   */
  lemma PaddingCountsButIsDropped(name: string, pad: string)
    requires AllWhitespace(pad)
    ensures NormalizeName(name + pad) == NormalizeName(name)
    ensures Utf16Length(name + pad) == Utf16Length(name) + |pad|
    ensures Utf16Length(name) + |pad| > NameMaxLength ==> !NameAccepted(name + pad)
  {
    TrimIgnoresPadding(name, pad);
    Utf16LengthAppend(name, pad);
    AllWhitespaceIsBmp(pad);
  }

  /** A name at the limit becomes too long with one trailing space, though the stored name would not change. */
  lemma OneSpaceOverTheLimit(name: string)
    requires NameAccepted(name) && Utf16Length(name) == NameMaxLength
    ensures !NameAccepted(name + " ")
    ensures NormalizeName(name + " ") == NormalizeName(name)
  {
    PaddingCountsButIsDropped(name, " ");
  }

  /** Both schemas apply the same name rule and the same transform, and the same weight rule. */
  lemma SchemasAgreeOnNameAndWeight(p: PetInput, now: Instant, enums: Enums, u: UpdatePetInput)
    requires p.name == u.name && p.weightKg == u.weightKg
    requires ParsePet(p, now, enums).Ok? && ParseUpdatePet(u).Ok?
    ensures ParsePet(p, now, enums).value.name == ParseUpdatePet(u).value.name
    ensures ParsePet(p, now, enums).value.weightKg == ParseUpdatePet(u).value.weightKg
  {
  }
}
