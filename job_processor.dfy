/** The job processor of the runner: the keyword-driven mock classifier that turns a job
    into a result record, the dispatch between the mock path and the (unimplemented) real
    path, and the decision that turns the callback's HTTP exchange into a boolean. */
module JobProcessor {
  import opened Wrappers
  import opened Text

  /** A job as decoded from the queue. Absent keys are `None`. The other fields a job may
      carry (repo, branch, user, style guide) are only logged by the processor. */
  datatype Job = Job(jobId: Option<string>, taskText: Option<string>)

  datatype Status = AutoMerged | PrOpened | Failed

  /** The result dictionary. A mock result carries every key; the result of the real path
      has only `status` (always `failed`) and `notes`. The optional keys of a mock result
      are the ones only some branches write. */
  datatype JobResult =
    | MockResult(jobId: string, status: Status, commitSha: Option<string>, prUrl: Option<string>,
                 locDelta: int, filesTouched: seq<string>, testsPassed: bool, lintPassed: bool,
                 tokIn: int, tokOut: int, durationMs: int, notes: string)
    | FailedResult(notes: string)
  {
    function StatusOf(): Status {
      if FailedResult? then Failed else status
    }

    /** The `job_id` key, when the record has one. */
    function JobIdOf(): Option<string> {
      if FailedResult? then None else Some(jobId)
    }
  }

  /** The exceptions the processor and the runner raise: a missing dictionary key, and the
      runner constructor's rejection of its configuration. */
  datatype Exception = KeyError(key: string) | ValueError(message: string)

  /** A call that either returns a value or raises. */
  datatype Outcome<+T> = Returned(value: T) | Raised(error: Exception)

  /** The HTTP exchange of the callback: a response with a status code, or an exception
      raised by the request (timeout, connection or DNS failure, ...). */
  datatype HttpOutcome = Response(statusCode: int) | RequestRaised

  /** `self.mock_mode` as the processor's constructor sets it. */
  const InitialMockMode := true

  const HelpKeyword := "help"
  const StdinKeyword := "stdin"
  const PullUrlPrefix := "https://github.com/user/repo/pull/"
  const NotImplementedNote := "Real processing not implemented"

  /** `job_data.get("task_text", "")`. */
  function TaskText(job: Job): string {
    job.taskText.GetOr("")
  }

  /** The `commit_sha` of an auto-merged result: a three-letter tag followed by the first
      six characters of the text of a fresh random UUID, which is given as a parameter. */
  function CommitSha(tag: string, uuidText: string): string {
    tag + Prefix(uuidText, 6)
  }

  function HelpResult(id: string, uuidText: string): JobResult {
    MockResult(id, AutoMerged, Some(CommitSha("abc", uuidText)), None, 15, ["cli.py", "README.md"],
               true, true, 1200, 400, 2000, "Added --help flag with documentation")
  }

  function StdinResult(id: string, uuidText: string): JobResult {
    MockResult(id, AutoMerged, Some(CommitSha("def", uuidText)), None, 25, ["cli.py", "tests/test_cli.py"],
               true, true, 1500, 600, 2500, "Added --stdin flag with input handling")
  }

  function PrResult(id: string): JobResult {
    MockResult(id, PrOpened, None, Some(PullUrlPrefix + Prefix(id, 8)), 150,
               ["cli.py", "utils.py", "tests/test_cli.py"],
               true, true, 2000, 800, 3500, "Added verbose logging - needs review due to size")
  }

  /** `_mock_process_job`: classify the lower-cased task text, "help" first, then "stdin",
      else a pull request. Reading `job_data["job_id"]` raises when the key is absent. */
  function MockProcessJob(job: Job, uuidText: string): (r: Outcome<JobResult>)
    ensures r.Raised? <==> job.jobId.None?
    ensures r.Raised? ==> r.error == KeyError("job_id")
    ensures r.Returned? ==> r.value.MockResult? && Some(r.value.jobId) == job.jobId
    ensures r.Returned? ==> r.value.status in {AutoMerged, PrOpened}
    ensures r.Returned? ==> (r.value.commitSha.Some? <==> r.value.status == AutoMerged)
    ensures r.Returned? ==> (r.value.prUrl.Some? <==> r.value.status == PrOpened)
    ensures r.Returned? ==> r.value.testsPassed && r.value.lintPassed
  {
    var lowered := AsciiLower(TaskText(job));
    match job.jobId
    case None => Raised(KeyError("job_id"))
    case Some(id) =>
      if Contains(lowered, HelpKeyword) then Returned(HelpResult(id, uuidText))
      else if Contains(lowered, StdinKeyword) then Returned(StdinResult(id, uuidText))
      else Returned(PrResult(id))
  }

  /** `process_job`: the mock path when `mockMode` holds, otherwise the stub of the real path. */
  function ProcessJob(mockMode: bool, job: Job, uuidText: string): (r: Outcome<JobResult>)
    ensures mockMode ==> r == MockProcessJob(job, uuidText)
    ensures !mockMode ==> r == Returned(FailedResult(NotImplementedNote))
    ensures r.Returned? ==> (r.value.StatusOf() == Failed <==> !mockMode)
    ensures r.Returned? ==> (r.value.JobIdOf() == None <==> !mockMode)
  {
    if mockMode then MockProcessJob(job, uuidText) else Returned(FailedResult(NotImplementedNote))
  }

  /** `send_callback`, reduced to its decision: success exactly on status 200; any other
      status or a raised request is a failure, and nothing escapes the call. */
  function SendCallback(response: HttpOutcome): (ok: bool)
    ensures ok <==> response.Response? && response.statusCode == 200
  {
    match response
    case Response(code) => code == 200
    case RequestRaised => false
  }

  // ---- Properties of the mock classifier ----

  /** A text containing "help" (after lowering) yields the help record. */
  lemma HelpBranch(job: Job, uuidText: string)
    requires job.jobId.Some?
    requires Contains(AsciiLower(TaskText(job)), HelpKeyword)
    ensures MockProcessJob(job, uuidText) == Returned(HelpResult(job.jobId.value, uuidText))
    ensures var r := MockProcessJob(job, uuidText).value;
      r.status == AutoMerged && r.locDelta == 15 && r.filesTouched == ["cli.py", "README.md"] &&
      r.testsPassed && r.lintPassed
  {
  }

  /** "help" written in any mix of cases selects the help record. */
  lemma HelpInAnyCase(job: Job, uuidText: string, i: nat)
    requires job.jobId.Some?
    requires MatchesIgnoringCase(TaskText(job), i, HelpKeyword)
    ensures var r := MockProcessJob(job, uuidText);
      r.Returned? && r.value.status == AutoMerged && r.value.locDelta == 15 &&
      r.value.filesTouched == ["cli.py", "README.md"] && r.value.testsPassed && r.value.lintPassed
  {
    ContainsLowerIff(TaskText(job), HelpKeyword);
  }

  /** "help" is tested before "stdin": a text with both takes the help branch. */
  lemma HelpBeatsStdin(job: Job, uuidText: string)
    requires job.jobId.Some?
    requires Contains(AsciiLower(TaskText(job)), HelpKeyword)
    requires Contains(AsciiLower(TaskText(job)), StdinKeyword)
    ensures MockProcessJob(job, uuidText).value.locDelta == 15
    ensures MockProcessJob(job, uuidText).value.commitSha == Some(CommitSha("abc", uuidText))
  {
  }

  /** A text with "stdin" but without "help" yields the stdin record. */
  lemma StdinBranch(job: Job, uuidText: string)
    requires job.jobId.Some?
    requires !Contains(AsciiLower(TaskText(job)), HelpKeyword)
    requires Contains(AsciiLower(TaskText(job)), StdinKeyword)
    ensures var r := MockProcessJob(job, uuidText).value;
      r.status == AutoMerged && r.locDelta == 25 && r.filesTouched == ["cli.py", "tests/test_cli.py"] &&
      r.commitSha == Some(CommitSha("def", uuidText))
  {
  }

  /** Any other text yields a pull request whose URL ends in the first (at most) eight
      characters of the job id, and no commit id. */
  lemma DefaultBranch(job: Job, uuidText: string)
    requires job.jobId.Some?
    requires !Contains(AsciiLower(TaskText(job)), HelpKeyword)
    requires !Contains(AsciiLower(TaskText(job)), StdinKeyword)
    ensures var r := MockProcessJob(job, uuidText).value;
      r.status == PrOpened && r.locDelta == 150 && r.commitSha.None? &&
      r.prUrl == Some(PullUrlPrefix + Prefix(job.jobId.value, 8))
  {
  }

  /** A job without `task_text` is classified as the empty text: a pull request. */
  lemma MissingTaskTextOpensPr(id: string, uuidText: string)
    ensures var r := MockProcessJob(Job(Some(id), None), uuidText);
      r.Returned? && r.value.status == PrOpened && r.value.locDelta == 150 &&
      r.value.prUrl == Some(PullUrlPrefix + Prefix(id, 8))
  {
    assert !OccursAt("", 0, HelpKeyword);
    assert !OccursAt("", 0, StdinKeyword);
  }

  /** The commit id of an auto-merged record is "abc" or "def" followed by six characters
      of the UUID text (nine characters in all) whenever that text has six characters. */
  lemma CommitShaShape(job: Job, uuidText: string)
    requires |uuidText| >= 6
    requires MockProcessJob(job, uuidText).Returned?
    requires MockProcessJob(job, uuidText).value.commitSha.Some?
    ensures var c := MockProcessJob(job, uuidText).value.commitSha.value;
      |c| == 9 && (c[..3] == "abc" || c[..3] == "def") && c[3..] == uuidText[..6]
  {
  }

  /** The suffix of a pull-request URL is a prefix of the job id of at most eight characters. */
  lemma PrUrlShape(job: Job, uuidText: string)
    requires MockProcessJob(job, uuidText).Returned?
    requires MockProcessJob(job, uuidText).value.status == PrOpened
    ensures var u := MockProcessJob(job, uuidText).value.prUrl.value;
      |PullUrlPrefix| <= |u| <= |PullUrlPrefix| + 8 && u[..|PullUrlPrefix|] == PullUrlPrefix &&
      u[|PullUrlPrefix|..] <= job.jobId.value
  {
    var u := MockProcessJob(job, uuidText).value.prUrl.value;
    assert u == PullUrlPrefix + Prefix(job.jobId.value, 8);
    assert u[|PullUrlPrefix|..] == Prefix(job.jobId.value, 8);
  }

  /** The job the runner's development entry point seeds: id "test-runner-123", asking for a
      --help flag. Only its id and task text matter to the processor. */
  const SeedJob := Job(Some("test-runner-123"), Some("Add a --help flag to the CLI tool"))

  /** The seeded job is auto-merged, touching the CLI file and the README, with tests passed. */
  lemma SeedJobIsAutoMerged(job: Job, uuidText: string)
    requires job == SeedJob
    ensures var r := ProcessJob(InitialMockMode, job, uuidText);
      r.Returned? && r.value.JobIdOf() == Some("test-runner-123") && r.value.StatusOf() == AutoMerged &&
      r.value.filesTouched == ["cli.py", "README.md"] && r.value.testsPassed
  {
    assert MatchesIgnoringCase(TaskText(job), 8, HelpKeyword) by {
      var text := TaskText(job);
      assert text[8] == 'h' && text[9] == 'e' && text[10] == 'l' && text[11] == 'p';
    }
    HelpInAnyCase(job, uuidText, 8);
  }
}
