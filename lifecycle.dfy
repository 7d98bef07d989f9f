/**
  Properties of a job's life: what a submission does, what each poll answers
  and changes, and what a sequence of them adds up to.
 */
module Lifecycle {
  import opened Wrappers
  import opened PyStr
  import opened Resources
  import opened FunctionApp

  // ---- submission -------------------------------------------------------

  /** A comment with a missing or extra key rejects the whole batch before
      anything is uploaded or created. */
  lemma RejectedBatchChangesNothing(w: World, body: Bytes, comments: seq<KeySet>, url: string, runId: string, i: nat)
    requires i < |comments| && comments[i] != ExpectedKeys
    ensures Submit(w, body, comments, url, runId) == Step(Raised(InvalidJson), w)
  {
  }

  /** An accepted batch stores the raw body verbatim under the run's input
      path, creates the run's group, touches nothing else, answers 202 with
      the results URL, and a poll of that URL right away reports the job
      pending and changes nothing. */
  lemma AcceptedBatchIsStagedAndPending(w: World, body: Bytes, comments: seq<KeySet>, url: string, runId: string)
    requires WellFormedBatch(comments)
    ensures var s := Submit(w, body, comments, url, runId);
      && s.outcome == Returned(Response(202, Text(ResultsUrl(url, runId))))
      && s.after.share == w.share[InputPath(runId) := body]
      && s.after.groups == w.groups[GroupName(runId) := Waiting]
      && Poll(s.after, runId, ResultsUrl(url, runId))
         == Step(Returned(Response(202, Text(ResultsUrl(url, runId)))), s.after)
  {
  }

  // ---- one poll, branch by branch ---------------------------------------

  /** No group and no listed input file: 404, nothing changes. */
  lemma PollWithoutGroupOrInput(w: World, runId: string, url: string)
    requires GroupName(runId) !in w.groups
    requires !CheckForFile(Listing(w.share, InputDir), runId)
    ensures Poll(w, runId, url) == Step(Returned(Response(404, Text(AlreadyCollectedMessage))), w)
  {
  }

  /** No group yet but the input file is listed: 202 with the request URL,
      nothing changes. */
  lemma PollBeforeGroupExists(w: World, runId: string, url: string)
    requires GroupName(runId) !in w.groups
    requires CheckForFile(Listing(w.share, InputDir), runId)
    ensures Poll(w, runId, url) == Step(Returned(Response(202, Text(url))), w)
  {
  }

  /** A group that has not terminated: 202 with the request URL whatever its
      detail status and whatever the share holds, nothing changes. */
  lemma PollWhileRunning(w: World, runId: string, url: string)
    requires GroupName(runId) in w.groups
    requires w.groups[GroupName(runId)].state != StateTerminated
    ensures Poll(w, runId, url) == Step(Returned(Response(202, Text(url))), w)
  {
  }

  /** A group that terminated with any detail status but "Completed": 500,
      and the group and every file stay in place for inspection. */
  lemma PollAfterFailure(w: World, runId: string, url: string)
    requires GroupName(runId) in w.groups
    requires w.groups[GroupName(runId)].state == StateTerminated
    requires w.groups[GroupName(runId)].detailStatus != DetailCompleted
    ensures Poll(w, runId, url) == Step(Returned(Response(500, Text(ProcessingErrorMessage))), w)
  {
  }

  /** A group that terminated with "Completed": 200 with the results file's
      bytes; the group and that file are gone and nothing else changed. */
  lemma PollAfterCompletion(w: World, runId: string, url: string)
    requires GroupName(runId) in w.groups
    requires w.groups[GroupName(runId)] == ContainerState(StateTerminated, DetailCompleted)
    requires OutputPath(runId) in w.share
    ensures Poll(w, runId, url)
         == Step(Returned(Response(200, Raw(w.share[OutputPath(runId)]))),
                 World(w.share - {OutputPath(runId)}, w.groups - {GroupName(runId)}))
  {
  }

  /** "Completed" without a results file: the group has already been deleted
      when the download raises; the share is untouched. */
  lemma PollAfterCompletionWithoutResults(w: World, runId: string, url: string)
    requires GroupName(runId) in w.groups
    requires w.groups[GroupName(runId)] == ContainerState(StateTerminated, DetailCompleted)
    requires OutputPath(runId) !in w.share
    ensures Poll(w, runId, url) == Step(Raised(ResourceNotFound), World(w.share, w.groups - {GroupName(runId)}))
  {
  }

  /** Only a poll that collects changes anything: every other answer leaves
      the world as it was. */
  lemma OnlyCollectionChangesTheWorld(w: World, runId: string, url: string)
    ensures var s := Poll(w, runId, url);
      s.after != w ==> GroupName(runId) in w.groups
                       && w.groups[GroupName(runId)] == ContainerState(StateTerminated, DetailCompleted)
  {
  }

  /** The status is checked before the outcome: two groups in the same
      non-terminated state are answered alike, whatever their detail status. */
  lemma StateBeforeDetailStatus(state: string, detail1: string, detail2: string, listed1: bool, listed2: bool)
    requires state != StateTerminated
    ensures Decide(Some(ContainerState(state, detail1)), listed1)
         == Decide(Some(ContainerState(state, detail2)), listed2)
         == Pending
  {
  }

  // ---- sequences of polls -----------------------------------------------

  /** Polling a pending job again, with nothing else changed, gives the same
      answer and again changes nothing. */
  lemma PendingPollIsIdempotent(w: World, runId: string, url: string)
    requires Poll(w, runId, url).outcome == Returned(Response(202, Text(url)))
    ensures Poll(w, runId, url).after == w
    ensures Poll(Poll(w, runId, url).after, runId, url) == Poll(w, runId, url)
  {
  }

  /** Results are delivered at most once: after a poll that answered 200, a
      second poll for the same run finds no group, so it answers 202 or 404,
      never another 200, and changes nothing. */
  lemma NoSecondDelivery(w: World, runId: string, url: string)
    requires Poll(w, runId, url).outcome.Returned?
    requires Poll(w, runId, url).outcome.response.status == 200
    ensures var w' := Poll(w, runId, url).after;
      && GroupName(runId) !in w'.groups
      && Poll(w', runId, url).after == w'
      && Poll(w', runId, url).outcome.response.status in {202, 404}
  {
  }

  /** After a poll that answered 200, when the input file is gone too (the
      container removes it; the app never does) and `data_in` holds only
      `.json` files, the next poll answers 404. */
  lemma CollectedJobThenAnswers404(w: World, runId: string, url: string)
    requires runId != ""
    requires InputPath(runId) !in w.share
    requires forall n | n in Listing(w.share, InputDir) :: EndsWith(n, JsonExt)
    requires Poll(w, runId, url).outcome.Returned?
    requires Poll(w, runId, url).outcome.response.status == 200
    ensures Poll(Poll(w, runId, url).after, runId, url)
         == Step(Returned(Response(404, Text(AlreadyCollectedMessage))), Poll(w, runId, url).after)
  {
    var w' := Poll(w, runId, url).after;
    NoSecondDelivery(w, runId, url);
    assert w'.share == w.share - {OutputPath(runId)};
    assert Listing(w'.share, InputDir) == Listing(w.share, InputDir);
    CheckForFileIffStaged(w.share, runId);
  }

  /** The deletion of the group is asynchronous: a second poll that comes
      before it has taken effect still sees the group Terminated/Completed,
      finds the results file gone and raises (the host answers 500), so
      the results are not delivered twice in that case either. */
  lemma SecondPollBeforeDeleteTakesEffect(w: World, runId: string, url: string)
    requires Poll(w, runId, url).outcome.Returned?
    requires Poll(w, runId, url).outcome.response.status == 200
    ensures var early := World(Poll(w, runId, url).after.share, w.groups);
      Poll(early, runId, url) == Step(Raised(ResourceNotFound), World(early.share, w.groups - {GroupName(runId)}))
  {
    var w' := Poll(w, runId, url).after;
    assert GroupName(runId) in w.groups;
    assert w'.share == w.share - {OutputPath(runId)};
  }

  /** The app deletes only the results file: a collected run whose input
      file was left behind answers 202 to every later poll. */
  lemma LeftoverInputKeepsRunPending(w: World, runId: string, url: string)
    requires InputPath(runId) in w.share
    requires Poll(w, runId, url).outcome.Returned?
    requires Poll(w, runId, url).outcome.response.status == 200
    ensures var w' := Poll(w, runId, url).after;
      Poll(w', runId, url) == Step(Returned(Response(202, Text(url))), w')
  {
    var w' := Poll(w, runId, url).after;
    assert InputPath(runId) != OutputPath(runId);
    StagedInputIsFound(w'.share, runId);
  }

  /** A poll for one run leaves every other run's group, input file and
      results file as they were. */
  lemma PollIsolatesRuns(w: World, runId: string, other: string, url: string)
    requires other != runId
    ensures var w' := Poll(w, runId, url).after;
      && (GroupName(other) in w'.groups <==> GroupName(other) in w.groups)
      && (GroupName(other) in w.groups ==> w'.groups[GroupName(other)] == w.groups[GroupName(other)])
      && (InputPath(other) in w'.share <==> InputPath(other) in w.share)
      && (InputPath(other) in w.share ==> w'.share[InputPath(other)] == w.share[InputPath(other)])
      && (OutputPath(other) in w'.share <==> OutputPath(other) in w.share)
      && (OutputPath(other) in w.share ==> w'.share[OutputPath(other)] == w.share[OutputPath(other)])
  {
    GroupNameInjective(runId, other);
    FileNameInjective(runId, other);
  }

  // ---- a whole run ------------------------------------------------------

  /** What the container is relied on to do for a successful run: consume
      its input file, write its results file, and terminate with
      "Completed". The container's own program is not part of this model. */
  function SandboxCompletes(w: World, runId: string, results: Bytes): (w': World)
    ensures InputPath(runId) !in w'.share
    ensures OutputPath(runId) in w'.share && w'.share[OutputPath(runId)] == results
    ensures GroupName(runId) in w'.groups
    ensures w'.groups[GroupName(runId)] == ContainerState(StateTerminated, DetailCompleted)
  {
    World((w.share - {InputPath(runId)})[OutputPath(runId) := results],
          w.groups[GroupName(runId) := ContainerState(StateTerminated, DetailCompleted)])
  }

  /** Submitting a batch under any non-empty run id, letting the container finish,
      and polling returns exactly the container's results; the next poll
      answers 404. */
  lemma SubmitRunCollect(w: World, body: Bytes, comments: seq<KeySet>, url: string, runId: string, results: Bytes)
    requires WellFormedBatch(comments)
    requires runId != ""
    requires forall n | n in Listing(w.share, InputDir) :: EndsWith(n, JsonExt)
    ensures var w1 := SandboxCompletes(Submit(w, body, comments, url, runId).after, runId, results);
      var pollUrl := ResultsUrl(url, runId);
      && Poll(w1, runId, pollUrl).outcome == Returned(Response(200, Raw(results)))
      && Poll(Poll(w1, runId, pollUrl).after, runId, pollUrl).outcome
         == Returned(Response(404, Text(AlreadyCollectedMessage)))
  {
    var w1 := SandboxCompletes(Submit(w, body, comments, url, runId).after, runId, results);
    var pollUrl := ResultsUrl(url, runId);
    assert OutputPath(runId) != InputPath(runId);
    forall n | n in Listing(w1.share, InputDir) ensures EndsWith(n, JsonExt) {
      assert Path(InputDir, n) != InputPath(runId);
      assert Path(InputDir, n) in w.share;
    }
    CollectedJobThenAnswers404(w1, runId, pollUrl);
  }

  /** The same run on the mutable world: the handlers as methods of a Cloud,
      with the container's work done in between. */
  method SubmitRunCollectOnCloud(cloud: Cloud, body: Bytes, comments: seq<KeySet>, url: string, runId: string, results: Bytes)
    returns (submitted: Outcome, collected: Outcome, again: Outcome)
    requires WellFormedBatch(comments)
    requires runId != ""
    requires forall n | n in Listing(cloud.share, InputDir) :: EndsWith(n, JsonExt)
    modifies cloud
    ensures submitted == Returned(Response(202, Text(ResultsUrl(url, runId))))
    ensures collected == Returned(Response(200, Raw(results)))
    ensures again == Returned(Response(404, Text(AlreadyCollectedMessage)))
    ensures GroupName(runId) !in cloud.groups
    ensures InputPath(runId) !in cloud.share && OutputPath(runId) !in cloud.share
  {
    ghost var w := cloud.Snapshot();
    submitted := cloud.StartContainerInstance(body, comments, url, runId);
    AcceptedBatchIsStagedAndPending(w, body, comments, url, runId);
    var finished := SandboxCompletes(cloud.Snapshot(), runId, results);
    cloud.share, cloud.groups := finished.share, finished.groups;
    var pollUrl := Replace(url, SubmitRoute, ResultsRoute + runId);
    collected := cloud.GetResults(pollUrl, runId);
    again := cloud.GetResults(pollUrl, runId);
    SubmitRunCollect(w, body, comments, url, runId, results);
  }
}
