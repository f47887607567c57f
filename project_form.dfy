/** The project-creation form. Its state is the form record, the preview image URL, the
    validation errors and the loading flag. Submitting validates the form, then fetches an
    image from the image service, then calls `createProject` on the contract, then POSTs
    the record to `/api/projectlist`; the first step that throws ends the sequence with the
    error alert. The three outside calls are given as their outcomes, and `parseFloat` is a
    parameter: a number, or None for NaN. */
module ProjectForm {
  import opened Wrappers
  import opened Json
  import opened Text
  import opened Http
  import opened ProjectModel

  /** The nine inputs of the form. */
  datatype Field =
    | Title | Description | Contributors | FundingGoal | EndDate
    | Category | CreatorName | WebsiteUrl | MinContribution

  datatype Form = Form(
    title: string,
    description: string,
    contributors: string,
    fundingGoal: string,
    endDate: string,
    category: string,
    creatorName: string,
    websiteUrl: string,
    minContribution: string)

  const EmptyForm: Form := Form("", "", "", "", "", "", "", "", "")

  /** `form[field]`. */
  function Get(form: Form, f: Field): string {
    match f
    case Title => form.title
    case Description => form.description
    case Contributors => form.contributors
    case FundingGoal => form.fundingGoal
    case EndDate => form.endDate
    case Category => form.category
    case CreatorName => form.creatorName
    case WebsiteUrl => form.websiteUrl
    case MinContribution => form.minContribution
  }

  /** `{ ...prev, [field]: value }`: the one field takes the new value, the others keep theirs. */
  function HandleChange(form: Form, f: Field, v: string): (r: Form)
    ensures Get(r, f) == v
    ensures forall g :: g != f ==> Get(r, g) == Get(form, g)
  {
    match f
    case Title => form.(title := v)
    case Description => form.(description := v)
    case Contributors => form.(contributors := v)
    case FundingGoal => form.(fundingGoal := v)
    case EndDate => form.(endDate := v)
    case Category => form.(category := v)
    case CreatorName => form.(creatorName := v)
    case WebsiteUrl => form.(websiteUrl := v)
    case MinContribution => form.(minContribution := v)
  }

  /** `parseFloat`, left uninterpreted: the number a string denotes, or None for NaN. */
  type ParseFloat = string -> Option<real>

  // ---------------------------------------------------------------------------
  // Validation
  // ---------------------------------------------------------------------------

  /** Whether the check on field `f` fails. Title, description and creator name fail when
      empty after trimming; end date and category only when literally empty; the funding
      goal when empty or when it parses to a number that is not positive (NaN passes,
      because `NaN <= 0` is false). The other three fields are not checked. */
  predicate Fails(form: Form, f: Field, parseFloat: ParseFloat) {
    match f
    case Title => Trim(form.title) == ""
    case Description => Trim(form.description) == ""
    case CreatorName => Trim(form.creatorName) == ""
    case FundingGoal =>
      form.fundingGoal == "" || (parseFloat(form.fundingGoal).Some? && parseFloat(form.fundingGoal).value <= 0.0)
    case EndDate => form.endDate == ""
    case Category => form.category == ""
    case _ => false
  }

  const TitleRequired: string := "Title is required"
  const DescriptionRequired: string := "Description is required"
  const CreatorNameRequired: string := "Creator name is required"
  const InvalidFundingGoal: string := "Enter a valid funding goal"
  const EndDateRequired: string := "End date is required"
  const CategoryRequired: string := "Select a category"

  /** The message shown under a field whose check fails. */
  function Message(f: Field): string {
    match f
    case Title => TitleRequired
    case Description => DescriptionRequired
    case CreatorName => CreatorNameRequired
    case FundingGoal => InvalidFundingGoal
    case EndDate => EndDateRequired
    case Category => CategoryRequired
    case _ => ""
  }

  /** The form is valid when none of the six checks fails. */
  predicate Passes(form: Form, parseFloat: ParseFloat) {
    && !Fails(form, Title, parseFloat)
    && !Fails(form, Description, parseFloat)
    && !Fails(form, CreatorName, parseFloat)
    && !Fails(form, FundingGoal, parseFloat)
    && !Fails(form, EndDate, parseFloat)
    && !Fails(form, Category, parseFloat)
  }

  /** Only the six listed fields are ever checked, so validity is the absence of any failure. */
  lemma PassesIffNoFailure(form: Form, parseFloat: ParseFloat)
    ensures Passes(form, parseFloat) <==> forall f :: !Fails(form, f, parseFloat)
  {
  }

  /** A funding goal that is not a number does not make the form invalid. */
  lemma NaNFundingGoalPasses(form: Form, parseFloat: ParseFloat)
    requires form.fundingGoal != "" && parseFloat(form.fundingGoal).None?
    ensures !Fails(form, FundingGoal, parseFloat)
  {
  }

  // ---------------------------------------------------------------------------
  // What the submit handler sends
  // ---------------------------------------------------------------------------

  /** `form.contributors.split(",").map((c) => c.trim())`, the list handed to the contract:
      one entry per comma-separated piece, each trimmed, blank entries kept. */
  function ChainContributors(raw: string): (r: seq<string>)
    ensures |r| == |Split(raw, ',')| == Count(raw, ',') + 1
    ensures forall i :: 0 <= i < |r| ==> r[i] == Trim(Split(raw, ',')[i])
  {
    SplitLength(raw, ',');
    TrimEach(Split(raw, ','))
  }

  /** Trims every entry. */
  function TrimEach(parts: seq<string>): (r: seq<string>)
    ensures |r| == |parts|
    ensures forall i :: 0 <= i < |parts| ==> r[i] == Trim(parts[i])
  {
    if parts == [] then [] else [Trim(parts[0])] + TrimEach(parts[1..])
  }

  /** An empty contributors input still sends one (empty) contributor to the contract. */
  lemma EmptyContributorsSendOneBlank()
    ensures ChainContributors("") == [""]
  {
  }

  /** The arguments of the contract's `createProject` call. */
  datatype CreateArgs = CreateArgs(imageUrl: string, title: string, description: string, contributors: seq<string>)

  function CreateArgsOf(form: Form, url: string): CreateArgs {
    CreateArgs(url, form.title, form.description, ChainContributors(form.contributors))
  }

  /** What the image service answered, as parsed JSON; or the fetch or the parse threw. */
  datatype ImageFetch = ImageThrew | ImageReplied(reply: map<string, string>)

  const DataUrlPrefix: string := "data:image/png;base64,"

  /** `data:image/png;base64,${data.base64}`: a reply without `base64` interpolates as "undefined". */
  function ImageDataUrl(reply: map<string, string>): (url: string)
    ensures |url| >= |DataUrlPrefix| && url[..|DataUrlPrefix|] == DataUrlPrefix
    ensures "base64" in reply ==> url[|DataUrlPrefix|..] == reply["base64"]
    ensures "base64" !in reply ==> url[|DataUrlPrefix|..] == "undefined"
  {
    DataUrlPrefix + (if "base64" in reply then reply["base64"] else "undefined")
  }

  /** `JSON.stringify` of a number: NaN becomes null. */
  function NumberOrNull(x: Option<real>): Json {
    if x.Some? then JNum(x.value) else JNull
  }

  /** The keys of the body POSTed to the store. */
  const PostBodyKeys: set<string> :=
    {"title", "description", "contributors", "fundingGoal", "endDate", "category",
     "creatorName", "websiteUrl", "minContribution", "imageUrl"}

  /** `{ ...form, imageUrl: url, fundingGoal: parseFloat(form.fundingGoal),
      minContribution: parseFloat(form.minContribution || "0") }`. */
  function PostBody(form: Form, url: string, parseFloat: ParseFloat): (body: Json)
    ensures body.JObj?
  {
    JObj(map[
      "title" := JStr(form.title),
      "description" := JStr(form.description),
      "contributors" := JStr(form.contributors),
      "fundingGoal" := NumberOrNull(parseFloat(form.fundingGoal)),
      "endDate" := JStr(form.endDate),
      "category" := JStr(form.category),
      "creatorName" := JStr(form.creatorName),
      "websiteUrl" := JStr(form.websiteUrl),
      "minContribution" := NumberOrNull(parseFloat(if form.minContribution == "" then "0" else form.minContribution)),
      "imageUrl" := JStr(url)])
  }

  /** The body POSTed to the store has exactly the nine form fields and `imageUrl`: in
      particular it has no `deadline`. */
  lemma PostBodyKeysExact(form: Form, url: string, parseFloat: ParseFloat)
    ensures PostBody(form, url, parseFloat).fields.Keys == PostBodyKeys
    ensures "deadline" !in PostBody(form, url, parseFloat).fields
  {
  }

  /** The body carries the raw form fields, the contributors as the raw comma-separated
      string, the image URL, and the two numeric fields parsed (an empty minimum
      contribution parsed as "0"). */
  lemma PostBodyValues(form: Form, url: string, parseFloat: ParseFloat)
    ensures var fields := PostBody(form, url, parseFloat).fields;
      && fields["contributors"] == JStr(form.contributors)
      && fields["endDate"] == JStr(form.endDate)
      && fields["imageUrl"] == JStr(url)
      && fields["fundingGoal"] == NumberOrNull(parseFloat(form.fundingGoal))
      && fields["minContribution"] ==
           NumberOrNull(parseFloat(if form.minContribution == "" then "0" else form.minContribution))
      && forall f | f in [Title, Description, Category, CreatorName, WebsiteUrl] ::
           fields[FieldName(f)] == JStr(Get(form, f))
  {
  }

  /** The property name of each field. */
  function FieldName(f: Field): string {
    match f
    case Title => "title"
    case Description => "description"
    case Contributors => "contributors"
    case FundingGoal => "fundingGoal"
    case EndDate => "endDate"
    case Category => "category"
    case CreatorName => "creatorName"
    case WebsiteUrl => "websiteUrl"
    case MinContribution => "minContribution"
  }

  // ---------------------------------------------------------------------------
  // The submit sequence
  // ---------------------------------------------------------------------------

  /** An outside call the handler makes. */
  datatype Call =
    | FetchImage(description: string)
    | CreateOnChain(args: CreateArgs)
    | PostProject(body: Json)

  /** The position of each kind of call in the sequence. */
  function Stage(c: Call): nat {
    match c
    case FetchImage(_) => 0
    case CreateOnChain(_) => 1
    case PostProject(_) => 2
  }

  /** How the POST to the store settled: `fetch` throws only when no answer arrives; any
      answer, whatever its status, resolves it. */
  datatype PostFetch = PostThrew | PostResolved(response: Response<Project>)

  /** The alert the handler shows, if any. */
  datatype Alert = NoAlert | CreatedAlert | ErrorAlert

  /** The calls made, the alert shown, and the preview URL set (None: left as it was). */
  datatype Submission = Submission(calls: seq<Call>, alert: Alert, preview: Option<string>)

  /** The submit sequence given how each outside call turns out. */
  function Submit(form: Form, parseFloat: ParseFloat, image: ImageFetch, chainWritten: bool, post: PostFetch): (s: Submission)
    // the calls run in the fixed order fetch, contract, store, and stop at the first throw
    ensures forall i :: 0 <= i < |s.calls| ==> Stage(s.calls[i]) == i
    ensures |s.calls| ==
      if !Passes(form, parseFloat) then 0
      else if image.ImageThrew? then 1
      else if !chainWritten then 2
      else 3
    ensures |s.calls| >= 1 ==> s.calls[0] == FetchImage(form.description)
    ensures |s.calls| >= 2 ==> s.calls[1] == CreateOnChain(CreateArgsOf(form, ImageDataUrl(image.reply)))
    ensures |s.calls| == 3 ==> s.calls[2] == PostProject(PostBody(form, ImageDataUrl(image.reply), parseFloat))
    // the alert: none on invalid input, success exactly when nothing threw
    ensures s.alert == NoAlert <==> !Passes(form, parseFloat)
    ensures s.alert == CreatedAlert <==> |s.calls| == 3 && post.PostResolved?
    // the preview is set once the image reply is in
    ensures s.preview.Some? <==> |s.calls| >= 2
    ensures s.preview.Some? ==> s.preview.value == ImageDataUrl(image.reply)
  {
    if !Passes(form, parseFloat) then Submission([], NoAlert, None)
    else
      match image
      case ImageThrew => Submission([FetchImage(form.description)], ErrorAlert, None)
      case ImageReplied(reply) =>
        var url := ImageDataUrl(reply);
        var fetched := [FetchImage(form.description), CreateOnChain(CreateArgsOf(form, url))];
        if !chainWritten then Submission(fetched, ErrorAlert, Some(url))
        else
          Submission(fetched + [PostProject(PostBody(form, url, parseFloat))],
                     if post.PostThrew? then ErrorAlert else CreatedAlert, Some(url))
  }

  /** The success alert never depends on what the store answered: a 201 and a 500 give
      the same alert. */
  lemma AlertIgnoresStoreStatus(form: Form, parseFloat: ParseFloat, image: ImageFetch, chainWritten: bool,
                                r1: Response<Project>, r2: Response<Project>)
    ensures Submit(form, parseFloat, image, chainWritten, PostResolved(r1)) ==
            Submit(form, parseFloat, image, chainWritten, PostResolved(r2))
  {
  }

  /** If the image fetch or the contract write throws, nothing is POSTed to the store. */
  lemma NoStoreWriteAfterThrow(form: Form, parseFloat: ParseFloat, image: ImageFetch, chainWritten: bool, post: PostFetch)
    requires image.ImageThrew? || !chainWritten
    ensures var s := Submit(form, parseFloat, image, chainWritten, post);
      (forall i :: 0 <= i < |s.calls| ==> !s.calls[i].PostProject?) &&
      (Passes(form, parseFloat) ==> s.alert == ErrorAlert)
  {
  }

  /** The error map `validateForm` builds, one check after the other: an entry for each
      failing check, holding that check's message, and no other entry. It is empty exactly
      when the form passes (`NoErrorsIffPasses`). */
  method CollectErrors(form: Form, parseFloat: ParseFloat) returns (newErrors: map<Field, string>)
    ensures forall f :: f in newErrors <==> Fails(form, f, parseFloat)
    ensures forall f :: f in newErrors ==> newErrors[f] == Message(f)
  {
    newErrors := map[];
    if Trim(form.title) == "" {
      newErrors := newErrors[Title := Message(Title)];
    }
    if Trim(form.description) == "" {
      newErrors := newErrors[Description := Message(Description)];
    }
    if Trim(form.creatorName) == "" {
      newErrors := newErrors[CreatorName := Message(CreatorName)];
    }
    if form.fundingGoal == "" || (parseFloat(form.fundingGoal).Some? && parseFloat(form.fundingGoal).value <= 0.0) {
      newErrors := newErrors[FundingGoal := Message(FundingGoal)];
    }
    if form.endDate == "" {
      newErrors := newErrors[EndDate := Message(EndDate)];
    }
    if form.category == "" {
      newErrors := newErrors[Category := Message(Category)];
    }
  }

  /** An error map holding exactly the failing checks is empty exactly when the form passes. */
  lemma NoErrorsIffPasses(errors: map<Field, string>, form: Form, parseFloat: ParseFloat)
    requires forall f :: f in errors <==> Fails(form, f, parseFloat)
    ensures |errors| == 0 <==> Passes(form, parseFloat)
  {
  }

  /** The form component's state. */
  class ProjectFormState {
    var form: Form
    var imageUrl: Option<string>
    var errors: map<Field, string>
    var loading: bool

    constructor ()
      ensures form == EmptyForm && imageUrl == None && errors == map[] && !loading
    {
      form := EmptyForm;
      imageUrl := None;
      errors := map[];
      loading := false;
    }

    /** An input's change handler: `setForm` with `HandleChange`. */
    method Change(f: Field, v: string)
      modifies this`form
      ensures form == HandleChange(old(form), f, v)
    {
      form := HandleChange(form, f, v);
    }

    /** `validateForm`: replaces the previous errors with a fresh error map and reports
        whether it is empty. */
    method ValidateForm(parseFloat: ParseFloat) returns (ok: bool)
      modifies this`errors
      ensures forall f :: f in errors <==> Fails(form, f, parseFloat)
      ensures forall f :: f in errors ==> errors[f] == Message(f)
      ensures ok <==> Passes(form, parseFloat)
    {
      var newErrors := CollectErrors(form, parseFloat);
      errors := newErrors;
      ok := |newErrors| == 0;
      NoErrorsIffPasses(newErrors, form, parseFloat);
    }

    /** `generateImageAndSubmit`: validate, and stop there when the form has errors;
        otherwise run the steps of `RunSteps`. */
    method GenerateImageAndSubmit(parseFloat: ParseFloat, image: ImageFetch, chainWritten: bool, post: PostFetch)
      returns (calls: seq<Call>, alert: Alert)
      modifies this
      ensures form == old(form)
      ensures var s := Submit(old(form), parseFloat, image, chainWritten, post);
        && calls == s.calls && alert == s.alert
        && imageUrl == (if s.preview.Some? then s.preview else old(imageUrl))
      ensures forall f :: f in errors <==> Fails(form, f, parseFloat)
      ensures forall f :: f in errors ==> errors[f] == Message(f)
      ensures Passes(form, parseFloat) ==> !loading
      ensures !Passes(form, parseFloat) ==> loading == old(loading)
    {
      var ok := ValidateForm(parseFloat);
      if !ok {
        calls, alert := [], NoAlert;
        return;
      }
      calls, alert := RunSteps(parseFloat, image, chainWritten, post);
    }

    /** The `try`/`finally` block run on a valid form: set `loading`, fetch the image, show
        its preview, write to the contract, POST to the store, alert, and clear `loading`
        on every path. */
    method RunSteps(parseFloat: ParseFloat, image: ImageFetch, chainWritten: bool, post: PostFetch)
      returns (calls: seq<Call>, alert: Alert)
      requires Passes(form, parseFloat)
      modifies this`imageUrl, this`loading
      ensures var s := Submit(form, parseFloat, image, chainWritten, post);
        && calls == s.calls && alert == s.alert
        && imageUrl == (if s.preview.Some? then s.preview else old(imageUrl))
      ensures !loading
    {
      loading := true;
      if image.ImageThrew? {
        calls, alert := [FetchImage(form.description)], ErrorAlert;
      } else {
        var url := ImageDataUrl(image.reply);
        imageUrl := Some(url);
        calls := [FetchImage(form.description), CreateOnChain(CreateArgsOf(form, url))];
        if !chainWritten {
          alert := ErrorAlert;
        } else {
          calls := calls + [PostProject(PostBody(form, url, parseFloat))];
          alert := if post.PostThrew? then ErrorAlert else CreatedAlert;
        }
      }
      loading := false;
    }
  }
}
