/** The project list page. Its state is the fetched projects, the loading flag and the
    transaction status line. On mount it GETs `/api/projectlist` once; each card's
    Contribute button calls `contribute` on the contract. The GET answer and the outcome
    of the contract write are parameters. */
module ProjectListPage {
  import opened Wrappers
  import opened Text
  import opened Http
  import opened ProjectModel

  const SendingStatus: string := "Sending transaction..."
  const SentStatus: string := "Transaction sent! \U{1F389}"
  const FailedStatus: string := "Transaction failed \U{274C}"

  /** `contributors.slice(0, 3).join(", ") + (contributors.length > 3 ? "..." : "")`. */
  function ContributorsText(cs: seq<string>): (r: string)
    ensures |cs| <= 3 ==> r == Join(cs, ", ")
    ensures |cs| > 3 ==> r == Join(cs[..3], ", ") + "..."
  {
    var shown := SliceTo(cs, 3);
    assert |cs| <= 3 ==> shown == cs[..|cs|] == cs;
    Join(shown, ", ") + (if |cs| > 3 then "..." else "")
  }

  /** The first three contributors, or all of them when there are fewer, each appear whole
      in the text. */
  lemma ContributorsTextShowsFirst(cs: seq<string>, i: int)
    requires 0 <= i < |cs| && i < 3
    ensures exists k :: OccursAt(cs[i], ContributorsText(cs), k)
  {
    var shown := SliceTo(cs, 3);
    JoinHasPart(shown, ", ", i);
    var k :| OccursAt(shown[i], Join(shown, ", "), k);
    var r := ContributorsText(cs);
    assert r[..|Join(shown, ", ")|] == Join(shown, ", ");
    assert r[k..k + |cs[i]|] == Join(shown, ", ")[k..k + |cs[i]|];
    assert OccursAt(cs[i], r, k);
  }

  /** Contributors past the third never show: two lists longer than three that agree on
      their first three entries give the same text, which ends in "...". */
  lemma ContributorsTextHidesRest(cs: seq<string>, ds: seq<string>)
    requires |cs| > 3 && |ds| > 3 && cs[..3] == ds[..3]
    ensures ContributorsText(cs) == ContributorsText(ds)
    ensures var r := ContributorsText(cs); |r| >= 3 && r[|r| - 3..] == "..."
  {
  }

  /** A contributor-less project shows an empty contributors line. */
  lemma NoContributorsShowsNothing()
    ensures ContributorsText([]) == ""
  {
  }

  /** One card: the image, the title, the description, the contributors line and the
      argument its Contribute button passes. */
  datatype Card = Card(imageUrl: string, title: string, description: string, contributors: string,
                       contributeId: Option<int>)

  /** What the page shows: the loading line, the empty line, or one card per project. */
  datatype Screen = LoadingScreen | NoProjects | Cards(cards: seq<Card>)

  /** The card of a project. A document the route saved has no `projectId`, so the button
      passes `undefined`. */
  function CardOf(p: Project): Card {
    Card(p.imageUrl, p.title, p.description, ContributorsText(p.contributors), None)
  }

  /** The page body: loading first, then "No projects found." for an empty list, then the
      cards in list order. */
  function View(loading: bool, projects: seq<Project>): (s: Screen)
    ensures s == LoadingScreen <==> loading
    ensures s == NoProjects <==> !loading && projects == []
    ensures s.Cards? ==> |s.cards| == |projects| && forall i :: 0 <= i < |projects| ==> s.cards[i] == CardOf(projects[i])
  {
    if loading then LoadingScreen
    else if |projects| == 0 then NoProjects
    else Cards(seq(|projects|, i requires 0 <= i < |projects| => CardOf(projects[i])))
  }

  /** No card's Contribute button passes a project id: the schema has no `projectId` path,
      so `project.projectId` is undefined on every document the route saved, which `CardOf`
      states by passing None. */
  lemma NoCardHasProjectId(projects: seq<Project>)
    ensures var s := View(false, projects);
      s.Cards? ==> forall i :: 0 <= i < |s.cards| ==> s.cards[i].contributeId.None?
  {
  }

  /** The status line under the cards, shown only when the status is not empty. */
  function StatusLine(status: string): (line: Option<string>)
    ensures line.Some? <==> status != ""
    ensures line.Some? ==> line.value == status
  {
    if status == "" then None else Some(status)
  }

  /** The contract call a Contribute click makes: `contribute(projectId, address)`, with no
      value attached. */
  datatype ContributeCall = Contribute(projectId: Option<int>, contributor: Option<string>)

  /** The GET answer as the page receives it: the request failed to complete, or the
      route answered. */
  datatype GetReply = GetThrew | GetAnswered(response: Response<seq<Project>>)

  /** Whether axios resolves with a list: the answer came back with a 2xx status. */
  predicate Resolves(reply: GetReply) {
    reply.GetAnswered? && 200 <= reply.response.status < 300 && reply.response.body.Data?
  }

  class ProjectListState {
    var projects: seq<Project>
    var loading: bool
    var status: string

    constructor ()
      ensures projects == [] && loading && status == ""
    {
      projects := [];
      loading := true;
      status := "";
    }

    /** The mount effect: replace the list with the answer when axios resolves, keep it
        otherwise, and clear `loading` either way. */
    method FetchProjects(reply: GetReply)
      modifies this`projects, this`loading
      ensures projects == (if Resolves(reply) then reply.response.body.value else old(projects))
      ensures !loading
    {
      if Resolves(reply) {
        projects := reply.response.body.value;
      }
      loading := false;
    }

    /** `contributeToProject`: show the sending status, write to the contract, then show
        the sent or the failed status. Returns the call made and the statuses shown, in
        order. */
    method ContributeToProject(projectId: Option<int>, address: Option<string>, txOk: bool)
      returns (call: ContributeCall, shown: seq<string>)
      modifies this`status
      ensures call == Contribute(projectId, address)
      ensures shown == [SendingStatus, if txOk then SentStatus else FailedStatus]
      ensures status == shown[1]
    {
      status := SendingStatus;
      shown := [status];
      call := Contribute(projectId, address);
      if txOk {
        status := SentStatus;
      } else {
        status := FailedStatus;
      }
      shown := shown + [status];
    }
  }
}
