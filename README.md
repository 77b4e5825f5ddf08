# CodeVox runner: job classifier, dispatch and queue loop

A Dafny model of the two pieces of deterministic logic in the CodeVox job runner:

- **The job processor** (`runner/src/job_processor.py`). The mock path classifies a job's
  `task_text` by case-insensitive keywords and builds a fixed result record. "help" is tested
  first, then "stdin"; any other text opens a pull request. `process_job` dispatches to the
  mock path when the processor is in mock mode; otherwise it returns a `failed` record.
  `send_callback` reduces the HTTP exchange to a boolean.
- **The runner** (`runner/src/main.py`). The runner's constructor reads its configuration. A
  mock queue is a FIFO list that `add_mock_job` appends to and `poll_sqs` pops from. The real
  queue answers a receive call. `run` loops while `running` holds: poll, process, send the
  callback, and delete the real-queue message only when the callback succeeded. It backs off on
  an empty poll and on an error, and stops on a stop signal.

Files:

- `wrappers.dfy`: `Option`. A call that may raise returns `JobProcessor.Outcome`, whose `Raised` case carries a `KeyError` or a `ValueError`.
- `text.dfy`: Python's `str.lower()` (on ASCII letters), the substring test `kw in s`, the
  slice `s[:n]`, and the proof that lowering and then searching is a case-insensitive search.
- `job_processor.dfy`: pure functions for the classifier, the dispatch and the callback
  decision, with lemmas for each branch and for keyword priority.
- `runner_spec.dfy`: the pure semantics of the runner.
  - `Poll` is one poll.
  - `Transition` is one loop iteration, built from the stages `Handle` and `Report`.
  - `RunFrom` is the loop over a finite supply of outcomes.
  - `Acknowledged` gives the receipts the acknowledgment rule deletes.
  - `Inv` is the invariant every reachable state keeps.
  - The lemmas state FIFO order and exactly-once consumption, and that nothing is deleted
    without a successful callback, over single steps and over whole runs.
- `runner.dfy`: class `SqsRunner`.
  - It holds the queue and the `running` flag, which it updates in place.
  - Ghost history fields record the jobs added, polled and processed, the callbacks sent, and
    the receipts passed to `delete_message`.
  - Its methods `AddMockJob`, `PollSqs`, `HandlePolled`, `Step` and `Run` are proved to produce
    exactly the state that `runner_spec.dfy` prescribes.
  - All of them except `HandlePolled` also keep `Inv`. `Step` keeps it for `HandlePolled`.

The network is replaced by parameters. `Env` holds one iteration's outcomes:
- the receive call's answer;
- the UUID text used for the commit id;
- the callback's HTTP status or exception;
- whether `delete_message` raised;
- where a stop signal arrives.

JSON decoding is a parameter `decode: string -> Option<Job>`, where `None` means `json.loads`
raised.

Points of the code's behaviour that the model keeps:
- The callback counts only status 200 as success (`runner/src/job_processor.py:87`).
- The non-mock path of the processor is a stub. It returns `{"status": "failed", "notes": ...}`
  with no `job_id` (`runner/src/job_processor.py:30`).
- The default branch has `loc_delta` 150 (`runner/src/job_processor.py:71`).
- The processor's own `mock_mode` is fixed to true in its constructor
  (`runner/src/job_processor.py:11`), independently of the runner's queue mode. So the runner
  always takes the mock path (`InitialMockMode`).
- A job without `job_id` raises `KeyError` in three places:
  - when it is added to the mock queue, before it is appended (`runner/src/main.py:39`);
  - in the loop's log line, before processing (`runner/src/main.py:82`), which sends it to the
    generic error backoff;
  - in the mock path itself.

  The model has all three.
- An empty receipt handle is falsy in Python, so it is never deleted.
- A stop signal arriving during the error backoff (`runner/src/main.py:111`, inside the
  `except Exception` clause) is not caught by the `except KeyboardInterrupt` clause. It leaves
  `run` with `running` still true. The model reports this as `Escaped`.

## Model

| member | source | states |
|---|---|---|
| Text.AsciiLower | runner/src/job_processor.py:37 | lowering keeps the length and lowers each character independently (A to Z only) |
| Text.Prefix | runner/src/job_processor.py:70 | `s[:n]` is a prefix of `s` of length min(n, len(s)) |
| Text.ContainsLowerIff | runner/src/job_processor.py:37-51 | `kw in text.lower()` for a lower-case keyword holds exactly when the keyword occurs in the text with each letter in either case |
| JobProcessor.MockProcessJob | runner/src/job_processor.py:32-79 | raises KeyError exactly when `job_id` is absent; otherwise the record carries the input's `job_id`, status auto_merged or pr_opened, a `commit_sha` exactly when auto-merged, a `pr_url` exactly when a PR is opened, tests and lint passed |
| JobProcessor.ProcessJob | runner/src/job_processor.py:13-30 | mock mode gives the mock result; otherwise a `failed` record with no `job_id`; status is failed exactly when not in mock mode |
| JobProcessor.SendCallback | runner/src/job_processor.py:81-95 | true exactly for a response with status 200; false for any other status and for a raised request; never raises |
| JobProcessor.HelpBranch | runner/src/job_processor.py:37-50 | a text containing "help" yields auto_merged, loc_delta 15, files cli.py and README.md, tests and lint passed |
| JobProcessor.HelpInAnyCase | runner/src/job_processor.py:37-50 | "help" written in any mix of cases selects the help record |
| JobProcessor.HelpBeatsStdin | runner/src/job_processor.py:37-55 | a text with both "help" and "stdin" takes the help branch (loc_delta 15, "abc" commit id) |
| JobProcessor.StdinBranch | runner/src/job_processor.py:51-64 | "stdin" without "help" yields auto_merged, loc_delta 25, files cli.py and tests/test_cli.py, a "def" commit id |
| JobProcessor.DefaultBranch | runner/src/job_processor.py:65-79 | any other text yields pr_opened, loc_delta 150, no commit id, URL prefix followed by the first at most eight characters of the job id |
| JobProcessor.MissingTaskTextOpensPr | runner/src/job_processor.py:34-79 | an absent `task_text` counts as "" and yields the pull-request record |
| JobProcessor.CommitShaShape | runner/src/job_processor.py:41-55 | a commit id is "abc" or "def" followed by six characters of the UUID text, nine characters in all |
| JobProcessor.PrUrlShape | runner/src/job_processor.py:70 | a PR URL is the fixed prefix followed by a prefix of the job id of at most eight characters |
| JobProcessor.SeedJobIsAutoMerged | runner/src/main.py:119-127 | the job the entry point seeds ("test-runner-123", a --help flag) is auto-merged with cli.py and README.md touched and tests passed |
| RunnerSpec.LoadConfig | runner/src/main.py:17-26 | the queue is real exactly when the lowered `SQS_ENABLED` (default "false") is "true"; then a missing or empty queue URL raises `ValueError` with the source's message; every accepted configuration is valid |
| RunnerSpec.SqsEnabledIgnoresCase | runner/src/main.py:17 | the queue is real exactly when the flag spells "true" in any mix of cases |
| RunnerSpec.Poll | runner/src/main.py:42-68 | mock: the front job with no receipt and the rest of the queue, nothing on an empty queue, polled job followed by new queue equals the old queue; real: queue untouched, the decoded first message with its receipt, nothing on an empty list, a receive error or a decode error (the last two flagged for the 5 s sleep) |
| RunnerSpec.Report | runner/src/main.py:88-98 | a report adds exactly one callback record and deletes the receipt exactly when the acknowledgment rule allows it, changing nothing else |
| RunnerSpec.Handle | runner/src/main.py:80-111 | handling a polled job never touches the queue, and it adds a callback (and possibly a delete) only when the job was reported; a job with an id and no stop signal is processed and reported with the processor's result and the callback's verdict, and the loop keeps running |
| RunnerSpec.RealQueueJobReported | runner/src/main.py:80-98 | on the real queue, a polled job with an id and no stop signal is reported with the processor's result and the callback's verdict; after a status-200 callback with a present, non-empty receipt, exactly that receipt is deleted |
| RunnerSpec.AcknowledgedConfirmed | runner/src/main.py:90-95 | every deleted receipt is non-empty, belongs to the real queue, and was carried by a successful callback |
| RunnerSpec.MockModeNeverDeletes | runner/src/main.py:93 | the mock queue never deletes anything |
| RunnerSpec.UnconfirmedReceiptNeverDeleted | runner/src/main.py:90-100 | in any reachable state, a receipt whose every callback failed was never passed to `delete_message` |
| RunnerSpec.StepDeleteRule | runner/src/main.py:90-98 | in one iteration `delete_message` is invoked exactly when the callback succeeded, the queue is real and the receipt is present and non-empty, and then with that receipt; otherwise nothing is deleted |
| RunnerSpec.FailedCallbackKeepsMessage | runner/src/main.py:99-100 | a failed callback deletes nothing, the loop runs on, and a mock job is not re-queued |
| RunnerSpec.DeleteFailureSwallowed | runner/src/main.py:94-98 | a raised `delete_message` leaves the same state as a successful one and only marks the report |
| RunnerSpec.StopSignal | runner/src/main.py:77-111 | without a stop signal `running` is unchanged; a signal at the poll clears `running` and changes nothing else; one during processing or the callback stops the loop when a job with an id was polled, and otherwise changes nothing; one during a sleep stops the loop after an empty poll, changes nothing when a job with an id is handled, and escapes with `running` still true after a job without an id reaches the error backoff |
| RunnerSpec.Transition | runner/src/main.py:77-111 | one iteration: a `Stopped` report clears `running` and any other report keeps it; the jobs added are unchanged, and the histories of polled and processed jobs, callbacks and deletes only grow. Its other properties are the lemmas `StepDeleteRule`, `StopSignal`, `UnreportedIterationState`, `RealQueueJobReported`, `MockStep` and `StepPreservesInv` |
| RunnerSpec.RunFrom | runner/src/main.py:75-111 | the `while self.running` loop over a finite supply of outcomes: the jobs added are unchanged and every history only grows. Its other properties are the lemmas `StopEndsRun`, `RunPreservesInv`, `MockRunInOrder`, `FreshRunnerHandlesJobsInOrder` and `SingleMockJobRun` |
| RunnerSpec.StopEndsRun | runner/src/main.py:77-111 | a run that is not running does nothing; an iteration that a stop signal stops or escapes is the last, and the run ends in its state |
| RunnerSpec.UnreportedIterationState | runner/src/main.py:79-111 | the whole new state of an iteration that reports nothing: an empty or failed poll changes only the queue and the polled history, and clears `running` under a signal during its sleep; a job without `job_id` is only consumed; a stop during processing clears `running` with nothing processed; a stop during the callback clears it after the job was processed |
| RunnerSpec.ShouldDelete | runner/src/main.py:90-93 | the acknowledgment rule: delete only after a successful callback, on the real queue, with a present and non-empty receipt. It has no contract of its own; `AcknowledgedConfirmed`, `MockModeNeverDeletes`, `UnconfirmedReceiptNeverDeleted` and `StepDeleteRule` state its properties |
| RunnerSpec.MissingJobIdKeepsPolling | runner/src/main.py:80-111 | a polled job without `job_id` is consumed but not processed, reported or deleted, and the loop keeps polling |
| RunnerSpec.MockStep | runner/src/main.py:79-100 | in mock mode without a stop signal, an iteration pops the front job, processes and reports it, and deletes nothing; on an empty queue it changes nothing |
| RunnerSpec.PollPreservesQueueInv | runner/src/main.py:44-47 | a poll keeps "jobs polled followed by the queue equal the jobs added" |
| RunnerSpec.HandlePreservesInv | runner/src/main.py:80-100 | handling a job keeps "deleted receipts equal the acknowledged ones" |
| RunnerSpec.StepPreservesInv | runner/src/main.py:77-111 | every iteration keeps the invariant `Inv` |
| RunnerSpec.RunPreservesInv | runner/src/main.py:77-111 | every run keeps the invariant, so deletes over a run are exactly the acknowledged callbacks |
| RunnerSpec.MockRunInOrder | runner/src/main.py:44-100 | in mock mode, with no stop signal and enough iterations, each queued job is polled, processed and reported exactly once in queue order; the queue ends empty, nothing is deleted and the loop still runs |
| RunnerSpec.FreshRunnerHandlesJobsInOrder | runner/src/main.py:37-100 | jobs j1..jn added to a fresh mock runner are polled, processed and reported in that order, each exactly once, with no delete |
| RunnerSpec.SingleMockJobRun | runner/src/main.py:114-130 | a fresh mock runner holding one job reports that job once, with the processor's result and the callback's verdict, after one iteration |
| Runner.SqsRunner.constructor | runner/src/main.py:15-20 | for a configuration `LoadConfig` accepts, a new runner is not running, has an empty queue and empty histories |
| Runner.SqsRunner.AddMockJob | runner/src/main.py:37-40 | appends the job at the end of the queue and changes nothing else; a job without `job_id` raises `KeyError("job_id")` and is not queued |
| Runner.SqsRunner.PollSqs | runner/src/main.py:42-68 | the object's queue and poll result are those of `RunnerSpec.Poll`; the invariant is kept |
| Runner.SqsRunner.HandlePolled | runner/src/main.py:80-111 | the new state and report are those of `RunnerSpec.Handle` |
| Runner.SqsRunner.Step | runner/src/main.py:77-111 | the new state and report are those of `RunnerSpec.Transition`; the invariant is kept |
| Runner.SqsRunner.Run | runner/src/main.py:70-111 | sets `running`, then the final state is `RunnerSpec.RunFrom` over the supplied outcomes; the invariant is kept |

## Left out

- The boto3 SQS client is left out (`receive_message`, `delete_message`, region and retry
  configuration, long-poll and visibility-timeout arguments). Its answers are parameters.
  Redelivery by the queue after the visibility timeout is outside this process and is not
  modelled.
- `requests.post` and the callback URL (`api_base_url`) are left out. Only the response status
  or the raised exception is modelled.
- The sleeps after a poll or an error are reduced to named outcomes: the 5 s receive-error
  sleep (`receiveError`), the 5 s idle sleep (`Idle`) and the 10 s error backoff (`Faulted`).
  The 2 s processing delay has no outcome of its own. It appears only as the `DuringProcess`
  stop point. Timing is not modelled.
- `print` logging, `load_dotenv` and `os.getenv` are left out. `LoadConfig` takes the two
  environment values as parameters. The region setting is only passed to the client.
- `uuid.uuid4()` randomness is left out. The UUID's text is a parameter.
- `json.loads` is an opaque parameter. A body whose JSON lacks `job_id` decodes to a job with
  an absent id. Jobs are typed: a present `job_id` or `task_text` is a string, and other job
  fields (repo, branch, user, style guide) are only logged, so they are not represented.
- Text.AsciiLower: lowers only A to Z, while Python's `str.lower()` also lowers other
  characters. Two non-ASCII characters lower to something containing an ASCII letter. The
  dotted capital I (U+0130) lowers to "i" followed by a combining dot, so it cannot complete
  "stdin", where "i" is followed by "n". The Kelvin sign lowers to "k", which no keyword uses.
  So the model's tests for "help", "stdin" and "true" agree with the source's.
- The stop signal is modelled at four points: before the poll completes, during processing,
  during the callback, and during a sleep. The last point covers the idle sleep, the
  receive-error sleep and the error backoff. A signal
  inside `delete_message` or inside a log call is not modelled. The loop stops at the end of
  the supplied outcomes, where the source would keep polling.
- Runner.SqsRunner.Run: does not return the iteration reports; its contract states only the
  final state. The reports are available from `Step`.
- The `main()` entry point and the asyncio start-up are left out. The seeded job appears as
  `JobProcessor.SeedJob`.
- The generation backend, the git branch and PR workflow and repository-URL parsing are not
  part of this model. The source files modelled here contain none of them.
