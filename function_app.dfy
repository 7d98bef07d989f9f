/**
  The two HTTP handlers of the function app and their helpers.

  `StartContainerInstance` checks the key set of every submitted comment,
  stores the raw request body in `data_in/{run_id}.json`, starts the container
  group `aci-px-{run_id}` and answers 202 with the results URL.
  `GetResults` infers the job's state from the container group and the share
  and answers 202 (not ready), 200 (the results, which it then cleans up),
  404 (already collected) or 500 (the container failed).

  The pure functions Submit and Poll say what each handler returns and what
  the world looks like afterwards; the class Cloud holds the world as mutable
  state and its methods, which follow the handlers step by step, are proved
  to agree with them.
 */
module FunctionApp {
  import opened Wrappers
  import opened PyStr
  import opened Resources

  const InputDir := "data_in"
  const OutputDir := "data_out"
  const JsonExt := ".json"
  const GroupPrefix := "aci-px-"
  const SubmitRoute := "StartContainerInstance"
  const ResultsRoute := "GetResults/"
  const StateTerminated := "Terminated"
  const DetailCompleted := "Completed"
  const AlreadyCollectedMessage := "File already collected"
  const ProcessingErrorMessage := "Error during processing"

  /** The keys every submitted comment must carry, no more and no fewer. */
  const ExpectedKeys: set<string> := {"comment_id", "comment_text", "question_type"}

  /** The state a group reports right after it is created: not yet started. */
  const Waiting := ContainerState("Waiting", "")

  /** A parsed comment, reduced to the only thing the app inspects: its keys. */
  type KeySet = set<string>

  datatype Body = Text(text: string) | Raw(bytes: Bytes)

  datatype Response = Response(status: int, body: Body)

  /** Exceptions that escape a handler (the host answers them with a 500). */
  datatype Error =
    | InvalidJson        // the `assert` on a comment's key set failed
    | ResourceNotFound   // the results file to download does not exist

  datatype Outcome = Returned(response: Response) | Raised(error: Error)

  /** What a handler produced and the world it left behind. */
  datatype Step = Step(outcome: Outcome, after: World)

  function InputPath(runId: string): Path { Path(InputDir, runId + JsonExt) }

  function OutputPath(runId: string): Path { Path(OutputDir, runId + JsonExt) }

  function GroupName(runId: string): string { GroupPrefix + runId }

  /** Different runs use different group names. */
  lemma GroupNameInjective(a: string, b: string)
    ensures GroupName(a) == GroupName(b) ==> a == b
  {
    if GroupName(a) == GroupName(b) {
      assert a == GroupName(a)[|GroupPrefix|..];
    }
  }

  /** Different runs use different file names. */
  lemma FileNameInjective(a: string, b: string)
    ensures a + JsonExt == b + JsonExt ==> a == b
  {
    if a + JsonExt == b + JsonExt {
      assert a == (a + JsonExt)[..|a|];
      assert |a| == |b|;
    }
  }

  // ---- submission -------------------------------------------------------

  /** Every comment has exactly the expected key set: no key missing and
      no key extra. */
  predicate WellFormedBatch(comments: seq<KeySet>)
    ensures WellFormedBatch(comments) <==>
      forall i | 0 <= i < |comments| :: ExpectedKeys <= comments[i] && comments[i] <= ExpectedKeys
  {
    forall i | 0 <= i < |comments| :: comments[i] == ExpectedKeys
  }

  /** The validation loop: the index of the first comment whose key set is
      wrong (where the `assert` fails), or None when the batch is accepted. */
  method FirstInvalidComment(comments: seq<KeySet>) returns (bad: Option<nat>)
    ensures bad.None? <==> WellFormedBatch(comments)
    ensures bad.Some? ==> bad.value < |comments| && comments[bad.value] != ExpectedKeys
    ensures bad.Some? ==> forall j | 0 <= j < bad.value :: comments[j] == ExpectedKeys
  {
    for i := 0 to |comments|
      invariant forall j | 0 <= j < i :: comments[j] == ExpectedKeys
    {
      if comments[i] != ExpectedKeys {
        return Some(i);
      }
    }
    return None;
  }

  /** The URL handed back for polling: the request URL with every
      `StartContainerInstance` replaced by `GetResults/{run_id}`. */
  function ResultsUrl(requestUrl: string, runId: string): (r: string)
    ensures !Contains(requestUrl, SubmitRoute) ==> r == requestUrl
  {
    Replace(requestUrl, SubmitRoute, ResultsRoute + runId)
  }

  /** For a request URL that names the submit route once, the results URL
      is that URL with the route swapped for `GetResults/{run_id}`. */
  lemma ResultsUrlSwapsRoute(base: string, query: string, runId: string)
    requires forall i: nat :: i != |base| ==> !OccursAt(base + SubmitRoute + query, i, SubmitRoute)
    ensures ResultsUrl(base + SubmitRoute + query, runId) == base + ResultsRoute + runId + query
  {
    ReplaceSingleOccurrence(base, SubmitRoute, query, ResultsRoute + runId);
  }

  /** `start_container_instance` on the world `w`, with the raw body, the
      key sets of the parsed comments, the request URL and the run id. */
  function Submit(w: World, body: Bytes, comments: seq<KeySet>, requestUrl: string, runId: string): (s: Step)
    ensures s.outcome.Raised? <==> !WellFormedBatch(comments)
    ensures s.outcome.Raised? ==> s.outcome.error == InvalidJson && s.after == w
    ensures s.outcome.Returned? ==>
      && s.outcome.response == Response(202, Text(ResultsUrl(requestUrl, runId)))
      && InputPath(runId) in s.after.share && s.after.share[InputPath(runId)] == body
      && GroupName(runId) in s.after.groups && s.after.groups[GroupName(runId)].state != StateTerminated
      && s.after.share.Keys == w.share.Keys + {InputPath(runId)}
      && s.after.groups.Keys == w.groups.Keys + {GroupName(runId)}
      && (forall p | p in w.share && p != InputPath(runId) :: s.after.share[p] == w.share[p])
      && (forall g | g in w.groups && g != GroupName(runId) :: s.after.groups[g] == w.groups[g])
  {
    if !WellFormedBatch(comments) then Step(Raised(InvalidJson), w)
    else
      Step(Returned(Response(202, Text(ResultsUrl(requestUrl, runId)))),
           World(w.share[InputPath(runId) := body], w.groups[GroupName(runId) := Waiting]))
  }

  // ---- results ----------------------------------------------------------

  /** `_check_for_file`: some name listed in `data_in`, less its last five
      characters, is the run id. */
  function CheckForFile(names: set<string>, runId: string): (found: bool)
    ensures runId + JsonExt in names ==> found
    ensures found && runId != "" ==>
      exists n | n in names :: |n| == |runId| + |JsonExt| && n[..|runId|] == runId
  {
    DropLastOfAppend(runId, JsonExt);
    runId in set n | n in names :: DropLast(n, |JsonExt|)
  }

  /** The check also accepts a name with any other five-character ending:
      a file `r1.yaml` makes run `r1` count as staged. With
      CheckForFile's own contract, a non-empty run id is found exactly when
      such a name is listed. */
  lemma AnyFiveCharacterSuffixIsFound(names: set<string>, runId: string, n: string)
    requires n in names && |n| == |runId| + |JsonExt| && n[..|runId|] == runId
    ensures CheckForFile(names, runId)
  {
    assert DropLast(n, |JsonExt|) == runId;
  }

  /** The staged input file is always found. */
  lemma StagedInputIsFound(share: map<Path, Bytes>, runId: string)
    requires InputPath(runId) in share
    ensures CheckForFile(Listing(share, InputDir), runId)
  {
  }

  /** When every name in `data_in` ends in `.json`, the check finds a
      (non-empty) run id exactly when that run's input file is staged. */
  lemma CheckForFileIffStaged(share: map<Path, Bytes>, runId: string)
    requires runId != ""
    requires forall n | n in Listing(share, InputDir) :: EndsWith(n, JsonExt)
    ensures CheckForFile(Listing(share, InputDir), runId) <==> InputPath(runId) in share
  {
    if CheckForFile(Listing(share, InputDir), runId) {
      var n :| n in Listing(share, InputDir) && DropLast(n, |JsonExt|) == runId;
      DropLastIsPrefix(n, |JsonExt|, runId);
      assert EndsWith(n, JsonExt);
      assert n == n[..|runId|] + n[|runId|..];
      assert n == runId + JsonExt;
    } else if InputPath(runId) in share {
      StagedInputIsFound(share, runId);
    }
  }

  /** The decision `get_results` takes. */
  datatype Decision =
    | Pending            // 202: the container has not started or is running
    | Completed          // 200: collect the results and clean up
    | Failed             // 500: the container terminated unsuccessfully
    | AlreadyCollected   // 404: no container group and no input file

  /** The branch chain of `get_results`, from the container group (None when
      the lookup raises ResourceNotFoundError) and whether the input file is
      listed. */
  function Decide(group: Option<ContainerState>, inputListed: bool): (d: Decision)
    ensures d.Completed? <==> group == Some(ContainerState(StateTerminated, DetailCompleted))
    ensures d.AlreadyCollected? <==> group.None? && !inputListed
    ensures d.Failed? <==> group.Some? && group.value.state == StateTerminated
                           && group.value.detailStatus != DetailCompleted
  {
    match group
    case None => if inputListed then Pending else AlreadyCollected
    case Some(current) =>
      if current.state != StateTerminated then Pending
      else if current.detailStatus == DetailCompleted then Completed
      else Failed
  }

  /** `get_results` for `runId` on the world `w`, with the request URL. */
  function Poll(w: World, runId: string, requestUrl: string): (s: Step)
    ensures s.after.share.Keys <= w.share.Keys && w.share.Keys - s.after.share.Keys <= {OutputPath(runId)}
    ensures s.after.groups.Keys <= w.groups.Keys && w.groups.Keys - s.after.groups.Keys <= {GroupName(runId)}
    ensures forall p | p in s.after.share :: s.after.share[p] == w.share[p]
    ensures forall g | g in s.after.groups :: s.after.groups[g] == w.groups[g]
    ensures s.outcome.Returned? && s.outcome.response.status == 200 ==>
      && OutputPath(runId) in w.share
      && s.outcome.response.body == Raw(w.share[OutputPath(runId)])
      && OutputPath(runId) !in s.after.share
  {
    var name := GroupName(runId);
    var group := if name in w.groups then Some(w.groups[name]) else None;
    match Decide(group, CheckForFile(Listing(w.share, InputDir), runId))
    case Pending => Step(Returned(Response(202, Text(requestUrl))), w)
    case AlreadyCollected => Step(Returned(Response(404, Text(AlreadyCollectedMessage))), w)
    case Failed => Step(Returned(Response(500, Text(ProcessingErrorMessage))), w)
    case Completed =>
      var out := OutputPath(runId);
      if out in w.share then
        Step(Returned(Response(200, Raw(w.share[out]))), World(w.share - {out}, w.groups - {name}))
      else
        Step(Raised(ResourceNotFound), World(w.share, w.groups - {name}))
  }

  // ---- the world as mutable state ---------------------------------------

  /** The file share and the container groups, updated in place. */
  class Cloud {
    var share: map<Path, Bytes>
    var groups: map<string, ContainerState>

    constructor (share0: map<Path, Bytes>, groups0: map<string, ContainerState>)
      ensures share == share0 && groups == groups0
    {
      share := share0;
      groups := groups0;
    }

    function Snapshot(): World
      reads this
    {
      World(share, groups)
    }

    /** `_upload_comments`: write the bytes to `data_in/{run_id}.json`. */
    method UploadComments(comments: Bytes, runId: string)
      modifies this
      ensures share == old(share)[InputPath(runId) := comments]
      ensures groups == old(groups)
    {
      share := share[InputPath(runId) := comments];
    }

    /** `_create_and_start_container`: create or replace group `aci-px-{run_id}`. */
    method CreateAndStartContainer(runId: string)
      modifies this
      ensures groups == old(groups)[GroupName(runId) := Waiting]
      ensures share == old(share)
    {
      groups := groups[GroupName(runId) := Waiting];
    }

    /** `begin_delete` of a container group, taken as immediate. */
    method BeginDelete(name: string)
      modifies this
      ensures groups == old(groups) - {name}
      ensures share == old(share)
    {
      groups := groups - {name};
    }

    /** `_get_completed_file`: download `data_out/{run_id}.json`, then delete it. */
    method GetCompletedFile(runId: string) returns (r: Result<Bytes, Error>)
      modifies this
      ensures OutputPath(runId) in old(share) ==>
                r == Success(old(share)[OutputPath(runId)]) && share == old(share) - {OutputPath(runId)}
      ensures OutputPath(runId) !in old(share) ==> r == Failure(ResourceNotFound) && share == old(share)
      ensures groups == old(groups)
    {
      var path := OutputPath(runId);
      if path !in share {
        return Failure(ResourceNotFound);
      }
      var fileBytes := share[path];
      share := share - {path};
      return Success(fileBytes);
    }

    /** The `StartContainerInstance` route. */
    method StartContainerInstance(body: Bytes, comments: seq<KeySet>, requestUrl: string, runId: string)
      returns (o: Outcome)
      modifies this
      ensures Step(o, Snapshot()) == Submit(old(Snapshot()), body, comments, requestUrl, runId)
    {
      var bad := FirstInvalidComment(comments);
      if bad.Some? {
        return Raised(InvalidJson);
      }
      UploadComments(body, runId);
      CreateAndStartContainer(runId);
      var resultsUrl := Replace(requestUrl, SubmitRoute, ResultsRoute + runId);
      return Returned(Response(202, Text(resultsUrl)));
    }

    /** The `GetResults/{run_id}` route. */
    method GetResults(requestUrl: string, runId: string) returns (o: Outcome)
      modifies this
      ensures Step(o, Snapshot()) == Poll(old(Snapshot()), runId, requestUrl)
    {
      var containerId := GroupName(runId);
      if containerId !in groups {
        var found := CheckForFile(Listing(share, InputDir), runId);
        if !found {
          return Returned(Response(404, Text(AlreadyCollectedMessage)));
        }
        return Returned(Response(202, Text(requestUrl)));
      }
      var container := groups[containerId];
      if container.state != StateTerminated {
        return Returned(Response(202, Text(requestUrl)));
      }
      if container.detailStatus == DetailCompleted {
        BeginDelete(containerId);
        var file := GetCompletedFile(runId);
        match file
        case Success(fileBytes) => return Returned(Response(200, Raw(fileBytes)));
        case Failure(e) => return Raised(e);
      }
      return Returned(Response(500, Text(ProcessingErrorMessage)));
    }
  }
}
