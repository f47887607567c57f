/** The `/api/projectlist` route. POST picks nine fields out of the JSON body, cleans the
    contributors, and saves a project document; GET lists every stored project. Each
    handler turns any exception into a 500 answer. The database is a sequence of stored
    documents held by `ProjectStore`; whether it is reachable and whether it accepts a
    write are parameters. */
module ProjectListRoute {
  import opened Wrappers
  import opened Json
  import opened Text
  import opened Http
  import opened ProjectModel

  // ---------------------------------------------------------------------------
  // Cleaning the contributors
  // ---------------------------------------------------------------------------

  /** `contributors.filter((c) => c.trim() !== "")` over an array of strings. */
  function KeepNonBlank(cs: seq<string>): (r: seq<string>)
    ensures |r| <= |cs|
    ensures forall i :: 0 <= i < |r| ==> Trim(r[i]) != ""
    ensures forall c :: c in r <==> c in cs && Trim(c) != ""
  {
    if cs == [] then []
    else if Trim(cs[0]) != "" then [cs[0]] + KeepNonBlank(cs[1..])
    else KeepNonBlank(cs[1..])
  }

  /** `a` is obtained from `b` by deleting elements, keeping the order of the rest. */
  predicate IsSubsequence<T(==)>(a: seq<T>, b: seq<T>)
    decreases |b|
  {
    if a == [] then true
    else if b == [] then false
    else if a[0] == b[0] then IsSubsequence(a[1..], b[1..])
    else IsSubsequence(a, b[1..])
  }

  /** The cleaned list is the input with the blank entries deleted: the kept strings are
      the original ones, untrimmed, in their original order. */
  lemma {:induction false} KeepNonBlankIsSubsequence(cs: seq<string>)
    ensures IsSubsequence(KeepNonBlank(cs), cs)
  {
    if cs != [] {
      KeepNonBlankIsSubsequence(cs[1..]);
      if Trim(cs[0]) == "" {
        SubsequenceOfTail(KeepNonBlank(cs[1..]), cs);
      }
    }
  }

  /** A subsequence of the tail is a subsequence of the whole. */
  lemma {:induction false} SubsequenceOfTail<T>(a: seq<T>, b: seq<T>)
    requires b != [] && IsSubsequence(a, b[1..])
    ensures IsSubsequence(a, b)
    decreases |b|, |a|
  {
    if a != [] && a[0] == b[0] {
      SubsequenceDropFirst(a, b[1..]);
    }
  }

  /** Dropping the first element of a subsequence keeps it a subsequence. */
  lemma {:induction false} SubsequenceDropFirst<T>(a: seq<T>, b: seq<T>)
    requires a != [] && IsSubsequence(a, b)
    ensures IsSubsequence(a[1..], b)
    decreases |b|, |a|
  {
    assert b != [];
    if a[0] == b[0] {
      if a[1..] != [] {
        SubsequenceOfTail(a[1..], b);
      }
    } else {
      SubsequenceDropFirst(a, b[1..]);
      if a[1..] != [] {
        SubsequenceOfTail(a[1..], b);
      }
    }
  }

  /** A list without blank entries passes through the cleaning unchanged. */
  lemma {:induction false} KeepNonBlankNoBlanks(cs: seq<string>)
    requires forall i :: 0 <= i < |cs| ==> Trim(cs[i]) != ""
    ensures KeepNonBlank(cs) == cs
  {
    if cs != [] {
      KeepNonBlankNoBlanks(cs[1..]);
    }
  }

  /** Cleaning twice is cleaning once. */
  lemma KeepNonBlankIdempotent(cs: seq<string>)
    ensures KeepNonBlank(KeepNonBlank(cs)) == KeepNonBlank(cs)
  {
    KeepNonBlankNoBlanks(KeepNonBlank(cs));
  }

  /** The cleaning keeps every non-blank entry as often as it occurs and drops every blank
      one: it changes multiplicities only by removing blanks. */
  lemma {:induction false} KeepNonBlankCounts(cs: seq<string>, c: string)
    ensures multiset(KeepNonBlank(cs))[c] == if Trim(c) != "" then multiset(cs)[c] else 0
  {
    if cs != [] {
      KeepNonBlankCounts(cs[1..], c);
      assert cs == [cs[0]] + cs[1..];
    }
  }

  /** Cleaning a concatenation cleans each part: the filter looks at one entry at a time. */
  lemma {:induction false} KeepNonBlankAppend(a: seq<string>, b: seq<string>)
    ensures KeepNonBlank(a + b) == KeepNonBlank(a) + KeepNonBlank(b)
  {
    if a != [] {
      assert (a + b)[0] == a[0] && (a + b)[1..] == a[1..] + b;
      KeepNonBlankAppend(a[1..], b);
    } else {
      assert a + b == b;
    }
  }

  /** The strings of an array whose elements are all strings. */
  function Strings(items: seq<Json>): (r: seq<string>)
    requires forall i :: 0 <= i < |items| ==> items[i].JStr?
    ensures |r| == |items|
    ensures forall i :: 0 <= i < |items| ==> r[i] == items[i].s
  {
    if items == [] then [] else [items[0].s] + Strings(items[1..])
  }

  /** The error `trim` raises on an array element that is not a string. */
  const TrimTypeError: string := "TypeError: c.trim is not a function"

  /** The cleaned contributors of the request body: a missing or non-array value becomes
      [], an array of strings loses its blank entries, and an array holding anything but
      strings makes the filter throw. */
  function CleanContributors(v: Option<Json>): (r: Result<seq<string>, string>)
    ensures (v.None? || !v.value.JArr?) ==> r == Success([])
    ensures r.Failure? <==>
      v.Some? && v.value.JArr? && exists i :: 0 <= i < |v.value.items| && !v.value.items[i].JStr?
    ensures r.Success? ==> forall i :: 0 <= i < |r.value| ==> Trim(r.value[i]) != ""
    ensures v.Some? && v.value.JArr? && r.Success? ==> r.value == KeepNonBlank(Strings(v.value.items))
  {
    match v
    case Some(JArr(items)) =>
      if forall i :: 0 <= i < |items| ==> items[i].JStr? then Success(KeepNonBlank(Strings(items)))
      else Failure(TrimTypeError)
    case _ => Success([])
  }

  // ---------------------------------------------------------------------------
  // POST
  // ---------------------------------------------------------------------------

  /** The nine names the handler destructures from the body. */
  const PickedFields: set<string> :=
    {"title", "description", "imageUrl", "fundingGoal", "deadline",
     "creatorName", "contributors", "category", "websiteUrl"}

  /** The properties of the parsed body: destructuring `null` throws; any other value that
      is not an object has none of the nine properties. */
  function Properties(body: Json): Option<map<string, Json>> {
    match body
    case JNull => None
    case JObj(fields) => Some(fields)
    case _ => Some(map[])
  }

  /** `body[name]`, undefined when absent. */
  function Property(fields: map<string, Json>, name: string): Option<Json> {
    if name in fields then Some(fields[name]) else None
  }

  /** The nine properties the handler destructures from the body, undefined when absent. */
  datatype Picked = Picked(
    title: Option<Json>,
    description: Option<Json>,
    imageUrl: Option<Json>,
    fundingGoal: Option<Json>,
    deadline: Option<Json>,
    creatorName: Option<Json>,
    contributors: Option<Json>,
    category: Option<Json>,
    websiteUrl: Option<Json>)

  /** `const { title, description, ... } = body`. */
  function Destructure(fields: map<string, Json>): Picked {
    Picked(
      Property(fields, "title"),
      Property(fields, "description"),
      Property(fields, "imageUrl"),
      Property(fields, "fundingGoal"),
      Property(fields, "deadline"),
      Property(fields, "creatorName"),
      Property(fields, "contributors"),
      Property(fields, "category"),
      Property(fields, "websiteUrl"))
  }

  /** The document constructor's argument: the picked properties and the cleaned contributors. */
  function DraftOf(p: Picked, contributors: seq<string>): ProjectDraft {
    ProjectDraft(
      StringSlot(p.title),
      StringSlot(p.description),
      contributors,
      StringSlot(p.imageUrl),
      NumberSlot(p.fundingGoal),
      NumberSlot(p.deadline),
      StringSlot(p.creatorName),
      StringSlot(p.category),
      StringSlot(p.websiteUrl))
  }

  const PostErrorMessage: string := "Server error"
  const GetErrorMessage: string := "Failed to fetch projects"

  /** What the handler answers once the properties are destructured: clean the
      contributors, build and validate the document, and write it. */
  function SaveOutcome(p: Picked, written: bool): (r: Response<Project>)
    ensures r.status == 201 || r == Response(500, Error(PostErrorMessage))
    ensures r.status == 201 <==>
      && written && CleanContributors(p.contributors).Success?
      && Valid(DraftOf(p, CleanContributors(p.contributors).value))
    ensures r.status == 201 ==>
      r.body == Data(Build(DraftOf(p, CleanContributors(p.contributors).value)).value)
  {
    var serverError := Response(500, Error(PostErrorMessage));
    match CleanContributors(p.contributors)
    case Failure(_) => serverError
    case Success(contributors) =>
      match Build(DraftOf(p, contributors))
      case Failure(_) => serverError
      case Success(project) => if written then Response(201, Data(project)) else serverError
  }

  /** The answer of POST. `request` is the parsed body (None when `request.json()` throws),
      `connected` whether `dbConnect()` resolves and `written` whether the database accepts
      the insert that `save()` performs once validation passes. */
  function PostOutcome(request: Option<Json>, connected: bool, written: bool): (r: Response<Project>)
    ensures r.status == 201 || r.status == 500
    ensures r.status == 201 <==> r.body.Data?
    ensures r.status == 500 ==> r.body == Error(PostErrorMessage)
    ensures r.status == 201 ==> connected && written && request.Some?
    ensures r.status == 201 ==>
      forall i :: 0 <= i < |r.body.value.contributors| ==> Trim(r.body.value.contributors[i]) != ""
  {
    if !connected || request.None? then Response(500, Error(PostErrorMessage))
    else
      match Properties(request.value)
      case None => Response(500, Error(PostErrorMessage))
      case Some(fields) => SaveOutcome(Destructure(fields), written)
  }

  /** A body object is saved exactly when the database is up and accepts the write, its
      contributors clean without error, and the picked fields pass the schema; the stored
      record carries the picked fields and the cleaned contributors. */
  lemma PostCreatedExactly(fields: map<string, Json>, connected: bool, written: bool)
    ensures var r := PostOutcome(Some(JObj(fields)), connected, written);
      var p := Destructure(fields);
      var cleaned := CleanContributors(p.contributors);
      && (r.status == 201 <==>
           connected && written && cleaned.Success? && Valid(DraftOf(p, cleaned.value)))
      && (r.status == 201 ==> r.body.value == Build(DraftOf(p, cleaned.value)).value)
  {
  }

  /** What every document in the store satisfies: its contributors are non-blank and its
      required strings are non-empty, since it passed the cleaning and the schema. */
  predicate Stored(p: Project) {
    && (forall i :: 0 <= i < |p.contributors| ==> Trim(p.contributors[i]) != "")
    && p.title != "" && p.description != "" && p.imageUrl != "" && p.creatorName != ""
  }

  /** The record a successful POST returns is one the store may hold. */
  lemma PostStoresValidRecord(request: Option<Json>, connected: bool, written: bool)
    ensures var r := PostOutcome(request, connected, written);
      r.status == 201 ==> Stored(r.body.value)
  {
    var r := PostOutcome(request, connected, written);
    if r.status == 201 {
      var fields := Properties(request.value).value;
      var p := Destructure(fields);
      assert Valid(DraftOf(p, CleanContributors(p.contributors).value));
    }
  }

  /** A body that is not an object is never saved: `null` cannot be destructured, and any
      other value has none of the nine properties, so the title is missing. */
  lemma PostNeedsObject(request: Option<Json>, connected: bool, written: bool)
    requires request.Some? && !request.value.JObj?
    ensures PostOutcome(request, connected, written) == Response(500, Error(PostErrorMessage))
  {
    if connected && !request.value.JNull? {
      assert Destructure(map[]).title.None?;
    }
  }

  /** Only the nine destructured properties matter: any other property of the body, such
      as `endDate` or `minContribution`, can be removed without changing the answer. */
  lemma PostOnlyPicksNineFields(fields: map<string, Json>, connected: bool, written: bool)
    ensures PostOutcome(Some(JObj(fields)), connected, written) ==
            PostOutcome(Some(JObj(map k | k in fields && k in PickedFields :: fields[k])), connected, written)
  {
    var picked := map k | k in fields && k in PickedFields :: fields[k];
    assert Destructure(fields) == Destructure(picked);
  }

  /** The answer of GET over the stored `records`. */
  function GetOutcome(records: seq<Project>, connected: bool, found: bool): (r: Response<seq<Project>>)
    ensures r.status == 200 || r.status == 500
    ensures r.status == 200 <==> connected && found
    ensures r.status == 200 ==> r.body == Data(records)
    ensures r.status == 500 ==> r.body == Error(GetErrorMessage)
  {
    if connected && found then Response(200, Data(records)) else Response(500, Error(GetErrorMessage))
  }

  /** Each stored document in `records` is the record a successful POST returned. */
  class ProjectStore {
    var records: seq<Project>

    /** Every stored document passed the cleaning and the schema. */
    ghost predicate Valid()
      reads this
    {
      forall i :: 0 <= i < |records| ==> Stored(records[i])
    }

    constructor ()
      ensures records == [] && Valid()
    {
      records := [];
    }

    /** The POST handler: a successful save appends exactly the returned record to the
        store; every failure leaves the store as it was. */
    method Post(request: Option<Json>, connected: bool, written: bool) returns (r: Response<Project>)
      requires Valid()
      modifies this
      ensures Valid()
      ensures r == PostOutcome(request, connected, written)
      ensures r.status == 201 ==> records == old(records) + [r.body.value]
      ensures r.status != 201 ==> records == old(records)
    {
      r := Response(500, Error(PostErrorMessage));
      if !connected || request.None? {
        return;
      }
      var fields := Properties(request.value);
      if fields.None? {
        return;
      }
      var picked := Destructure(fields.value);
      var cleaned := CleanContributors(picked.contributors);
      if cleaned.Failure? {
        return;
      }
      var project := Build(DraftOf(picked, cleaned.value));
      if project.Failure? || !written {
        return;
      }
      r := Response(201, Data(project.value));
      PostStoresValidRecord(request, connected, written);
      records := records + [project.value];
    }

    /** The GET handler: every stored project, in store order, or a 500 answer when the
        database cannot be reached (`connected`) or the query fails (`found`). */
    method Get(connected: bool, found: bool) returns (r: Response<seq<Project>>)
      requires Valid()
      ensures r == GetOutcome(records, connected, found)
      ensures r.status == 200 ==> forall i :: 0 <= i < |r.body.value| ==> Stored(r.body.value[i])
    {
      if connected && found {
        r := Response(200, Data(records));
      } else {
        r := Response(500, Error(GetErrorMessage));
      }
    }
  }
}
