/** The runner object: the mock queue and the `running` flag it updates in place, the poll,
    one iteration of the loop and the loop itself, each proved to do what RunnerSpec says.
    The network calls are replaced by the outcomes in `Env`; the history fields are ghost. */
module Runner {
  import opened Wrappers
  import opened JobProcessor
  import opened RunnerSpec

  class SqsRunner {
    const config: RunnerConfig
    var running: bool
    var mockJobs: seq<Job>
    ghost var added: seq<Job>
    ghost var taken: seq<Job>
    ghost var processed: seq<Job>
    ghost var callbacks: seq<Callback>
    ghost var deleteCalls: seq<string>

    ghost function State(): RunnerState
      reads this
    {
      RunnerState(running, mockJobs, added, taken, processed, callbacks, deleteCalls)
    }

    ghost predicate Valid()
      reads this
    {
      Inv(config, State())
    }

    /** A runner for a configuration produced by `LoadConfig`: not running, empty queue. */
    constructor (config: RunnerConfig)
      requires ValidConfig(config)
      ensures this.config == config
      ensures Valid() && State() == Initial()
    {
      this.config := config;
      running := false;
      mockJobs := [];
      added, taken, processed, callbacks, deleteCalls := [], [], [], [], [];
    }

    /** `add_mock_job`: append the job to the mock queue. Logging its `job_id` comes first, so a
        job without one raises and is not queued. Nothing else changes. */
    method AddMockJob(job: Job) returns (r: Outcome<()>)
      requires Valid()
      modifies this
      ensures Valid()
      ensures r.Raised? <==> job.jobId.None?
      ensures r.Raised? ==> r.error == KeyError("job_id")
      ensures State() == if r.Raised? then old(State())
                         else old(State()).(mockJobs := old(mockJobs) + [job], added := old(added) + [job])
    {
      if job.jobId.None? {
        return Raised(KeyError("job_id"));
      }
      mockJobs := mockJobs + [job];
      added := added + [job];
      return Returned(());
    }

    /** `poll_sqs`: pop the front of the mock queue, or take the first message of the real
        queue's answer. */
    method PollSqs(receive: ReceiveOutcome, decode: string -> Option<Job>)
      returns (polled: Option<Polled>, receiveError: bool)
      requires Valid()
      modifies this`mockJobs, this`taken
      ensures Valid()
      ensures var p := Poll(config.mockMode, old(mockJobs), receive, decode);
        polled == p.polled && receiveError == p.receiveError && mockJobs == p.queue
      ensures taken == old(taken) + TakenJobs(polled)
    {
      if config.mockMode {
        if mockJobs != [] {
          polled := Some(Polled(mockJobs[0], None));
          mockJobs := mockJobs[1..];
        } else {
          polled := None;
        }
        receiveError := false;
      } else {
        match receive
        case ReceiveRaised =>
          polled, receiveError := None, true;
        case Received(messages) =>
          if messages == [] {
            polled, receiveError := None, false;
          } else {
            match decode(messages[0].body.GetOr(DefaultBody))
            case None =>
              polled, receiveError := None, true;
            case Some(job) =>
              polled, receiveError := Some(Polled(job, messages[0].receiptHandle)), false;
          }
      }
      taken := taken + TakenJobs(polled);
      if config.mockMode && polled.Some? {
        assert old(taken) + old(mockJobs) == old(taken) + TakenJobs(polled) + mockJobs;
      }
    }

    /** The body of `run`'s loop once a job was polled: process it, send the callback, and
        delete the message when the acknowledgment rule allows it. */
    method HandlePolled(polled: Polled, env: Env) returns (report: StepReport)
      modifies this`running, this`processed, this`callbacks, this`deleteCalls
      ensures var st := Handle(config, old(State()), polled, env);
        State() == st.state && report == st.report
    {
      var job, receipt := polled.job, polled.receipt;
      if job.jobId.None? {
        // The generic handler backs off; a stop signal during that sleep leaves `run`.
        report := if env.interrupt == DuringBackoff then Escaped else Faulted(job);
        return;
      }
      if env.interrupt == DuringProcess {
        running := false;
        return Stopped;
      }
      var result := ProcessJob(InitialMockMode, job, env.uuidText).value;
      processed := processed + [job];
      if env.interrupt == DuringCallback {
        running := false;
        return Stopped;
      }
      var ok := SendCallback(env.callback);
      callbacks := callbacks + [Callback(job, receipt, result, ok)];
      var deleteCalled, deleted := false, false;
      if ok && !config.mockMode && receipt.Some? && receipt.value != "" {
        deleteCalls := deleteCalls + [receipt.value];
        deleteCalled := true;
        // A raised `delete_message` is logged and swallowed.
        deleted := env.deleteOk;
      }
      report := Handled(job, receipt, result, ok, deleteCalled, deleted);
    }

    /** One iteration of `run`'s loop: poll, then handle the job if there is one, or sleep. */
    method Step(env: Env, decode: string -> Option<Job>) returns (report: StepReport)
      requires Valid() && running
      modifies this
      ensures Valid()
      ensures var st := Transition(config, old(State()), env, decode);
        State() == st.state && report == st.report
    {
      StepPreservesInv(config, State(), env, decode);
      if env.interrupt == DuringPoll {
        running := false;
        return Stopped;
      }
      var polled, receiveError := PollSqs(env.receive, decode);
      if polled.None? {
        if env.interrupt == DuringBackoff {
          // Caught by the loop's KeyboardInterrupt handler.
          running := false;
          report := Stopped;
        } else {
          report := Idle(receiveError);
        }
      } else {
        report := HandlePolled(polled.value, env);
      }
    }

    /** `run`: set `running`, then iterate while it holds, one outcome of `envs` per
        iteration; a stop signal that escapes the loop body ends the loop as well. */
    method Run(envs: seq<Env>, decode: string -> Option<Job>)
      requires Valid()
      modifies this
      ensures Valid()
      ensures State() == RunFrom(config, old(State()).(running := true), envs, decode)
    {
      running := true;
      ghost var start := State();
      var i := 0;
      var escaped := false;
      while running && !escaped && i < |envs|
        invariant 0 <= i <= |envs|
        invariant Valid()
        invariant escaped ==> State() == RunFrom(config, start, envs, decode)
        invariant !escaped ==> RunFrom(config, State(), envs[i..], decode) == RunFrom(config, start, envs, decode)
        decreases |envs| - i
      {
        ghost var before := State();
        RunFromUnfold(config, before, envs[i..], decode);
        var report := Step(envs[i], decode);
        assert envs[i..][0] == envs[i] && envs[i..][1..] == envs[i + 1..];
        escaped := report.Escaped?;
        i := i + 1;
      }
      if !escaped && i == |envs| {
        assert envs[i..] == [];
      }
    }
  }
}
