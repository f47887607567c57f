/** The project document schema: seven required paths (title, description, contributors,
    imageUrl, fundingGoal, deadline, creatorName) and two paths with defaults (category,
    websiteUrl). A draft is what the route hands to the schema; `Build` validates it and
    fills the defaults, which is what saving a document does before it is written. */
module ProjectModel {
  import opened Wrappers
  import opened Json

  /** A stored project document. `fundingGoal` and `deadline` are plain numbers (the
      deadline a Unix timestamp in seconds); the schema constrains neither. */
  datatype Project = Project(
    title: string,
    description: string,
    contributors: seq<string>,
    imageUrl: string,
    fundingGoal: real,
    deadline: real,
    creatorName: string,
    category: string,
    websiteUrl: string)

  /** What a value handed to a schema path amounts to: nothing (undefined or null), a
      value of the path's type, or a value of another JSON type, which fails to cast. */
  datatype Slot<T> = Absent | Given(value: T) | WrongType

  /** The fields passed to the document constructor. Contributors always arrive as an
      array of strings: the route builds that array itself. */
  datatype ProjectDraft = ProjectDraft(
    title: Slot<string>,
    description: Slot<string>,
    contributors: seq<string>,
    imageUrl: Slot<string>,
    fundingGoal: Slot<real>,
    deadline: Slot<real>,
    creatorName: Slot<string>,
    category: Slot<string>,
    websiteUrl: Slot<string>)

  const DefaultCategory: string := "General"
  const DefaultWebsiteUrl: string := ""

  /** Reading a JSON value for a String path. */
  function StringSlot(v: Option<Json>): (r: Slot<string>)
    ensures r.Absent? <==> v.None? || v.value.JNull?
    ensures r.Given? <==> v.Some? && v.value.JStr?
    ensures r.Given? ==> r.value == v.value.s
  {
    match v
    case None => Absent
    case Some(JNull) => Absent
    case Some(JStr(s)) => Given(s)
    case Some(_) => WrongType
  }

  /** Reading a JSON value for a Number path. */
  function NumberSlot(v: Option<Json>): (r: Slot<real>)
    ensures r.Absent? <==> v.None? || v.value.JNull?
    ensures r.Given? <==> v.Some? && v.value.JNum?
    ensures r.Given? ==> r.value == v.value.n
  {
    match v
    case None => Absent
    case Some(JNull) => Absent
    case Some(JNum(n)) => Given(n)
    case Some(_) => WrongType
  }

  /** A required String path is satisfied by a non-empty string. */
  predicate RequiredString(s: Slot<string>) {
    s.Given? && s.value != ""
  }

  /** A required Number path is satisfied by any number. */
  predicate RequiredNumber(s: Slot<real>) {
    s.Given?
  }

  /** A path with a default accepts anything but a value that fails to cast. */
  predicate Castable<T>(s: Slot<T>) {
    !s.WrongType?
  }

  /** The document passes validation. */
  predicate Valid(d: ProjectDraft) {
    && RequiredString(d.title)
    && RequiredString(d.description)
    && RequiredString(d.imageUrl)
    && RequiredNumber(d.fundingGoal)
    && RequiredNumber(d.deadline)
    && RequiredString(d.creatorName)
    && Castable(d.category)
    && Castable(d.websiteUrl)
  }

  /** The value a path with a default takes. */
  function WithDefault(s: Slot<string>, default: string): (r: string)
    requires Castable(s)
    ensures s.Given? ==> r == s.value
    ensures s.Absent? ==> r == default
  {
    if s.Given? then s.value else default
  }

  /** Validation error raised by `save()` when a required path is missing or a cast fails. */
  const ValidationError: string := "ValidationError"

  /** Saving a draft: it fails exactly when validation fails; otherwise every required
      field is stored as given and the two defaults are filled in. */
  function Build(d: ProjectDraft): (r: Result<Project, string>)
    ensures r.Success? <==> Valid(d)
    ensures r.Failure? ==> r.error == ValidationError
    ensures r.Success? ==>
      && r.value.title == d.title.value
      && r.value.description == d.description.value
      && r.value.contributors == d.contributors
      && r.value.imageUrl == d.imageUrl.value
      && r.value.fundingGoal == d.fundingGoal.value
      && r.value.deadline == d.deadline.value
      && r.value.creatorName == d.creatorName.value
  {
    if !Valid(d) then Failure(ValidationError)
    else Success(Project(
      d.title.value, d.description.value, d.contributors, d.imageUrl.value,
      d.fundingGoal.value, d.deadline.value, d.creatorName.value,
      WithDefault(d.category, DefaultCategory), WithDefault(d.websiteUrl, DefaultWebsiteUrl)))
  }

  /** A draft without a category is stored under "General"; a supplied one is stored as is. */
  lemma CategoryDefault(d: ProjectDraft)
    requires Valid(d)
    ensures d.category.Absent? ==> Build(d).value.category == "General"
    ensures d.category.Given? ==> Build(d).value.category == d.category.value
  {
  }

  /** A draft without a website is stored with ""; a supplied one is stored as is. */
  lemma WebsiteUrlDefault(d: ProjectDraft)
    requires Valid(d)
    ensures d.websiteUrl.Absent? ==> Build(d).value.websiteUrl == ""
    ensures d.websiteUrl.Given? ==> Build(d).value.websiteUrl == d.websiteUrl.value
  {
  }

  /** A draft missing any one required field is not saved. */
  lemma MissingRequiredRejected(d: ProjectDraft)
    requires
      || d.title.Absent? || d.description.Absent? || d.imageUrl.Absent?
      || d.fundingGoal.Absent? || d.deadline.Absent? || d.creatorName.Absent?
    ensures Build(d).Failure?
  {
  }

  /** The schema puts no constraint on the values of fundingGoal and deadline: changing
      either number, to a negative goal or a past deadline, never changes whether a draft saves. */
  lemma NumbersUnconstrained(d: ProjectDraft, goal: real, deadline: real)
    requires d.fundingGoal.Given? && d.deadline.Given?
    ensures Build(d).Success? <==>
            Build(d.(fundingGoal := Given(goal), deadline := Given(deadline))).Success?
  {
  }
}
