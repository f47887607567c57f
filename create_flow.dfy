/** How the pieces fit together when a project is created and listed: the form sends its
    description to the image service, its arguments to the contract and its body to the
    `/api/projectlist` route, and the list page shows what the route's GET returns. The
    lemmas here state what each side receives from the other, including where the two
    disagree: the route never saves what the form sends, yet the form reports success. */
module CreateFlow {
  import opened Wrappers
  import opened Json
  import opened Text
  import opened Http
  import opened ProjectModel
  import opened ProjectListRoute
  import opened ProjectForm
  import opened ImageService
  import opened ProjectListPage

  /** The request the form sends to the image service: `{ description: form.description }`. */
  function ImageRequest(form: Form): RequestData {
    Body(Some(form.description))
  }

  /** A form that passes validation has a description with a non-space character, so the
      image service never answers it with 400. */
  lemma ValidFormPassesImageGuard(form: Form, parseFloat: ParseFloat, reply: ModelReply)
    requires Passes(form, parseFloat)
    ensures GenerateResponse(ImageRequest(form), reply).status != 400
  {
  }

  /** The image service answers 400 and 500 with an object that has no `base64`: the form
      then builds the URL "data:image/png;base64,undefined" and goes on to the contract
      call, since `fetch` does not throw on an error status. */
  lemma ServiceErrorGivesUndefinedImage(form: Form, parseFloat: ParseFloat, reply: ModelReply,
                                        chainWritten: bool, post: PostFetch)
    requires Passes(form, parseFloat)
    requires GenerateResponse(ImageRequest(form), reply).status != 200
    ensures var answer := GenerateResponse(ImageRequest(form), reply).body;
      && ImageDataUrl(answer) == DataUrlPrefix + "undefined"
      && |Submit(form, parseFloat, ImageReplied(answer), chainWritten, post).calls| >= 2
  {
  }

  /** On a 200 the form's image URL carries exactly the payload the service picked. */
  lemma ServiceImageReachesForm(form: Form, reply: ModelReply)
    requires GenerateResponse(ImageRequest(form), reply).status == 200
    ensures ImageDataUrl(GenerateResponse(ImageRequest(form), reply).body) ==
            DataUrlPrefix + FirstInline(reply.parts).value
  {
  }

  /** The route rejects every body the form can send: the form names the date `endDate`,
      while the schema requires `deadline`, so validation fails and the answer is 500,
      whatever the form holds and whatever the database does. */
  lemma FormBodyAlwaysRejected(form: Form, url: string, parseFloat: ParseFloat, connected: bool, written: bool)
    ensures PostOutcome(Some(PostBody(form, url, parseFloat)), connected, written) ==
            Response(500, Error(PostErrorMessage))
  {
  }

  /** The form sends its contributors as one string, which the route's cleaning turns into
      no contributors at all, while the contract receives at least one entry. */
  lemma ContributorsLostOnTheWay(form: Form, url: string, parseFloat: ParseFloat)
    ensures var fields := PostBody(form, url, parseFloat).fields;
      CleanContributors(Destructure(fields).contributors) == Success([])
    ensures |CreateArgsOf(form, url).contributors| >= 1
  {
  }

  /** The form shows its success alert although the route answered 500 and stored nothing:
      after the image reply and the contract write, the POST resolves with the route's
      answer, and the alert looks only at whether it resolved. */
  lemma SuccessAlertOverRejectedSave(form: Form, parseFloat: ParseFloat, reply: map<string, string>,
                                      connected: bool, written: bool)
    requires Passes(form, parseFloat)
    ensures var url := ImageDataUrl(reply);
      var answer := PostOutcome(Some(PostBody(form, url, parseFloat)), connected, written);
      && answer.status == 500
      && Submit(form, parseFloat, ImageReplied(reply), true, PostResolved(answer)).alert == CreatedAlert
  {
    FormBodyAlwaysRejected(form, ImageDataUrl(reply), parseFloat, connected, written);
  }

  /** The list page takes the route's GET answer: a 200 gives it the stored records, which
      it shows as one card per record; a 500 is rejected by axios, and the list is kept. */
  lemma ListShowsStoredRecords(records: seq<Project>, connected: bool, found: bool)
    ensures var answer := GetOutcome(records, connected, found);
      && (Resolves(GetAnswered(answer)) <==> connected && found)
      && (Resolves(GetAnswered(answer)) ==> answer.body.value == records)
    ensures connected && found && records != [] ==>
      var s := View(false, records); s.Cards? && |s.cards| == |records|
  {
  }

  /** Creating a project through the form, then listing: the store, started empty, is
      still empty after the form's POST, so the list page shows "No projects found.". */
  method CreateThenList(form: Form, url: string, parseFloat: ParseFloat, connected: bool, written: bool)
    returns (screen: Screen)
    ensures screen == NoProjects
  {
    var store := new ProjectStore();
    var answer := store.Post(Some(PostBody(form, url, parseFloat)), connected, written);
    FormBodyAlwaysRejected(form, url, parseFloat, connected, written);
    var page := new ProjectListState();
    var listed := store.Get(connected, true);
    page.FetchProjects(GetAnswered(listed));
    screen := View(page.loading, page.projects);
  }
}
