# pxtextmining docker API: job lifecycle model

A Dafny model of the Azure Function app that runs text-mining jobs in Azure
Container Instances. A client POSTs a batch of comments to
`StartContainerInstance`. The app checks each comment's key set and stores the
raw request body as `data_in/{run_id}.json` on the "comments" file share. It
then creates the container group `aci-px-{run_id}` and answers 202 with a
results URL. The client polls `GetResults/{run_id}`. From the container group's
state and the share's contents the app decides one of four things:

- 202: not ready yet;
- 200: the results; the group delete is issued before the download, and the results file is deleted after it;
- 404: already collected;
- 500: the container failed.

The Azure services become values (module `Resources`):

- the file share is a map from `Path(dir, name)` to bytes;
- the container groups are a map from group name to the current state of the
  group's container (`state`, `detail_status`).

Module `FunctionApp` holds the app itself:

- the pure functions `Submit` and `Poll` say what each route answers and what
  the world looks like afterwards;
- the class `Cloud` keeps the share and the groups as mutable fields;
- the methods of `Cloud` follow the Python handlers and helpers step by step
  and are proved to agree with `Submit` and `Poll`.

Module `PyStr` models the two pieces of Python string semantics the app uses:
`str.replace`, which replaces every occurrence, and `s[:-5]`. Module
`Lifecycle` proves properties of whole runs:

- each poll branch with what it changes;
- at-most-once delivery;
- the 404 after collection;
- isolation between runs;
- submit, then run, then collect, end to end.

The run id, which the app draws from `uuid.uuid4()`, is a parameter. JSON
parsing is a parameter too: the handler gets the raw body bytes together with
the key set of every parsed comment.

## Model

| member | source | states |
|---|---|---|
| `PyStr.DropLast` | function_app.py:224 | definition of `s[:-k]`: the prefix of `s` that is `k` characters shorter, or empty when `s` has at most `k` characters |
| `PyStr.DropLastIsPrefix` | function_app.py:224 | stripping 5 characters gives a non-empty run id exactly when the name is that run id followed by 5 more characters |
| `PyStr.DropLastOfAppend` | function_app.py:224 | stripping `.json` from `{run_id}.json` gives back the run id |
| `PyStr.Replace` | function_app.py:58 | `str.replace` for a non-empty pattern, scanning left to right without overlaps; a string that does not contain the pattern comes back unchanged |
| `PyStr.NoOccurrenceNotContains` | function_app.py:58 | a string in which the pattern starts at no index does not contain it, so `str.replace` leaves it unchanged |
| `PyStr.ContainsOccurs` | function_app.py:58 | a string that contains the pattern has it at some index, the converse of `NoOccurrenceNotContains` |
| `PyStr.ReplaceFirstOccurrence` | function_app.py:58 | `str.replace` replaces the first occurrence, keeps what precedes it and carries on after it, so every occurrence is replaced |
| `PyStr.ReplaceSingleOccurrence` | function_app.py:58 | a string with exactly one occurrence of the pattern gets exactly that occurrence replaced |
| `Resources.Listing` | function_app.py:218-224 | definition of a directory listing: exactly the names of the files in that directory |
| `FunctionApp.GroupNameInjective` | function_app.py:85 | the group name `aci-px-{run_id}` determines the run id, so the group `get_results` looks up is the one submission created for that run |
| `FunctionApp.FileNameInjective` | function_app.py:130 | the file name `{run_id}.json` determines the run id |
| `FunctionApp.WellFormedBatch` | function_app.py:50-52 | definition of an accepted batch: it passes the check exactly when no comment lacks an expected key and no comment has a key outside `{comment_id, comment_text, question_type}` |
| `FunctionApp.FirstInvalidComment` | function_app.py:50-52 | finds no bad comment exactly when every comment's key set equals `{comment_id, comment_text, question_type}`; otherwise returns the first comment whose key set differs, where the assert fails |
| `FunctionApp.ResultsUrl` | function_app.py:58 | the request URL with every `StartContainerInstance` replaced by `GetResults/{run_id}`; a URL without that route name comes back unchanged |
| `FunctionApp.Submit` | function_app.py:46-59 | raises the key-set error exactly when some comment's key set is wrong, and then changes nothing; otherwise answers 202 with the results URL, stores the raw body at `data_in/{run_id}.json`, creates `aci-px-{run_id}` in a non-Terminated state, and adds nothing else and changes no other file or group |
| `FunctionApp.CheckForFile` | function_app.py:210-225 | `_check_for_file` over a listing: a listed `{run_id}.json` is found; when a non-empty run id is found, some listed name is that run id followed by five more characters |
| `FunctionApp.ResultsUrlSwapsRoute` | function_app.py:58 | for a request URL naming `StartContainerInstance` once, the results URL is the same URL with `GetResults/{run_id}` in its place |
| `FunctionApp.AnyFiveCharacterSuffixIsFound` | function_app.py:224-225 | any listed name that is the run id plus five characters, such as `{run_id}.yaml`, makes `_check_for_file` report the run as found, so the check means "some name in `data_in` starts with the run id and has five more characters", not "the file exists" |
| `FunctionApp.StagedInputIsFound` | function_app.py:224-225 | once `data_in/{run_id}.json` exists, `_check_for_file` finds the run |
| `FunctionApp.CheckForFileIffStaged` | function_app.py:210-225 | when `data_in` holds only `.json` files, `_check_for_file` finds a run exactly when its input file exists |
| `FunctionApp.Decide` | function_app.py:92-115 | collect exactly when the group is Terminated with detail Completed; already collected exactly when there is no group and no listed input file; failure exactly when the group is Terminated with any other detail status |
| `FunctionApp.Poll` | function_app.py:84-115 | `get_results` on a world: it writes nothing; it removes at most `data_out/{run_id}.json` and `aci-px-{run_id}`; every file and group left keeps its value; a 200 carries the prior bytes of `data_out/{run_id}.json`, which is then gone |
| `FunctionApp.Cloud.UploadComments` | function_app.py:119-133 | the share maps `data_in/{run_id}.json` to the given bytes; the groups and the share's other files are unchanged |
| `FunctionApp.Cloud.CreateAndStartContainer` | function_app.py:136-187 | group `aci-px-{run_id}` exists, not yet started; the share and the other groups are unchanged |
| `FunctionApp.Cloud.BeginDelete` | function_app.py:112 | the named group is gone; nothing else changes |
| `FunctionApp.Cloud.GetCompletedFile` | function_app.py:190-207 | returns the prior bytes of `data_out/{run_id}.json` and removes exactly that file; raises not-found and changes nothing when it is absent |
| `FunctionApp.Cloud.StartContainerInstance` | function_app.py:28-59 | answer and new state are those of `Submit` |
| `FunctionApp.Cloud.GetResults` | function_app.py:62-115 | answer and new state are those of `Poll` |
| `Lifecycle.RejectedBatchChangesNothing` | function_app.py:50-56 | a comment with a missing or extra key rejects the batch; nothing is uploaded and no group is created |
| `Lifecycle.AcceptedBatchIsStagedAndPending` | function_app.py:54-59 | an accepted batch stores the raw body verbatim at `data_in/{run_id}.json` and creates `aci-px-{run_id}`, nothing else; answers 202 with the results URL; an immediate poll of that run answers 202 and changes nothing |
| `Lifecycle.PollWithoutGroupOrInput` | function_app.py:98-102 | no group and no listed input file: 404 "File already collected", nothing changes |
| `Lifecycle.PollBeforeGroupExists` | function_app.py:98-104 | no group but the input file listed: 202 with the request URL, nothing changes |
| `Lifecycle.PollWhileRunning` | function_app.py:106-109 | a group not Terminated: 202 with the request URL whatever its detail status, nothing changes |
| `Lifecycle.PollAfterFailure` | function_app.py:111-115 | Terminated with any other detail status: 500 "Error during processing"; the group and every file stay |
| `Lifecycle.PollAfterCompletion` | function_app.py:111-113 | Terminated and Completed: 200 with the prior bytes of `data_out/{run_id}.json`; exactly the group and that file are removed |
| `Lifecycle.PollAfterCompletionWithoutResults` | function_app.py:111-113 | Terminated and Completed without a results file: the group is already deleted when the download raises; the share is untouched |
| `Lifecycle.OnlyCollectionChangesTheWorld` | function_app.py:92-115 | a poll changes the world only when the group is Terminated with detail Completed |
| `Lifecycle.StateBeforeDetailStatus` | function_app.py:106-111 | status is checked before outcome: any non-Terminated group is pending whatever its detail status and the listing |
| `Lifecycle.PendingPollIsIdempotent` | function_app.py:98-109 | polling a pending job again with nothing else changed gives the same answer and again changes nothing |
| `Lifecycle.NoSecondDelivery` | function_app.py:98-113 | after a 200 the group is gone, so the next poll answers 202 or 404, never the results again, and changes nothing |
| `Lifecycle.CollectedJobThenAnswers404` | function_app.py:98-102 | after a 200, if the input file is also gone (the app never deletes it) and `data_in` holds only `.json` files, the next poll answers 404 |
| `Lifecycle.SecondPollBeforeDeleteTakesEffect` | function_app.py:111-113 | when a second poll comes before the asynchronous group delete has taken effect, it sees Terminated/Completed, the results file is gone and the download raises (the host answers 500); the results are not delivered twice |
| `Lifecycle.LeftoverInputKeepsRunPending` | function_app.py:98-113 | the app deletes only the results file, so a collected run whose input file was left behind answers 202 to every later poll |
| `Lifecycle.PollIsolatesRuns` | function_app.py:84-115 | a poll leaves every other run's group, input file and results file as they were |
| `Lifecycle.SandboxCompletes` | function_app.py:172 | definition of what the app relies on the container started with `{run_id}.json` to do on success: remove that input file, write the results file and terminate with Completed (not code of the app) |
| `Lifecycle.SubmitRunCollect` | function_app.py:28-115 | submitting under any non-empty run id, letting the container finish and polling returns exactly the container's results; when `data_in` holds only `.json` files, the next poll answers 404 |
| `Lifecycle.SubmitRunCollectOnCloud` | function_app.py:28-115 | the same run on the mutable `Cloud`, when `data_in` holds only `.json` files: 202 with the results URL, then 200 with the results, then 404, and no trace of the run remains |

## Left out

- The Azure SDK clients (`ContainerInstanceManagementClient`, `DefaultAzureCredential`, `ShareFileClient`, `ShareDirectoryClient`) are network calls; the two maps of `Resources.World` stand in for them.
- `begin_create_or_update` and `begin_delete` complete asynchronously; the model applies them at once. The "no group but input listed" branch is still modelled over any world, which covers a group the platform has not yet created.
- Lifecycle.NoSecondDelivery, Lifecycle.CollectedJobThenAnswers404 and Lifecycle.SubmitRunCollect: "the next poll answers 202 or 404" holds only once the group delete has taken effect. A prompt second poll in the source still sees the group Terminated/Completed. Its download then raises ResourceNotFoundError, which the host answers with 500. Lifecycle.SecondPollBeforeDeleteTakesEffect states that case: the results are still never delivered twice.
- FunctionApp.Cloud.CreateAndStartContainer: the container group's configuration (image and tag, CPU and memory, the share mounted at `/data`, OS type, restart policy, the command `python3 docker_run.py {run_id}.json`) is opaque to the app and not modelled. A new group is recorded in the state "Waiting" with an empty detail status. Only the fact that this state is not "Terminated" matters.
- A group whose container has no instance view yet (`instance_view` is None, an AttributeError in the source) is not modelled: every group in the model reports a current state.
- Directory listings return files only; subdirectories of `data_in` are not modelled. In the source, a subdirectory whose name is a run id plus five characters counts as that run's input, just as such a file does (`FunctionApp.AnyFiveCharacterSuffixIsFound`).
- config.py only reads environment variables; it is not part of this model.
- `uuid.uuid4()` is not modelled; the run id is a parameter. No lemma needs it to be fresh: a submission under a run id already in use overwrites that run's input file and group.
- JSON parsing (`req.get_json`) is not modelled. A comment is represented by its key set. An empty JSON list, object or string makes the validation loop run zero times, so the source stages the body and starts a container; the model does the same for an empty `comments`. A body that is not JSON raises in the source and is not modelled. The same goes for a non-empty value whose items have no `keys()`, and for a number or null.
- HTTP routing, the `guid` route constraint (lemmas that need it only ask for a non-empty run id), the function auth level and logging are not modelled.
- The host turns an exception that escapes a handler into a 500. The model stops at the exception: `Raised(InvalidJson)` for the failed key-set assert, `Raised(ResourceNotFound)` for a missing results file.
- Other failures of the Azure services are not modelled: authentication, transport and quota errors.
- Two polls of the same run racing each other are not modelled; the model is sequential. `Lifecycle.NoSecondDelivery` states the sequential version of at-most-once delivery.
- What the container itself does (`docker_run.py`) is not part of this model; `Lifecycle.SandboxCompletes` states what the app relies on it to do.
