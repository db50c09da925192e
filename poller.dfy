/** The wait for the uploaded video to become usable
    (app/api/analyze/tactics/route.ts, lines 171-199): a counter that stands
    for the seconds waited goes up by 2 per `getFile` call until it reaches
    300; only `PROCESSING` keeps the loop going. */
module Poller {
  import opened Wrappers
  import opened Text
  import opened Errors

  /** The file states of the provider's file service that the loop tests. */
  const Active := "ACTIVE"
  const Processing := "PROCESSING"
  const Failed := "FAILED"

  const MaxWaitSeconds: nat := 300
  /** The counter step: the 2000 ms pause between two calls. */
  const StepSeconds: nat := 2

  /** The file record the provider returns from an upload or a `getFile`. */
  datatype FileHandle = FileHandle(name: string, displayName: string, state: string, uri: string, mimeType: string)

  /** `getFile` as an oracle: the reply to the `k`-th call (counting from 0). */
  type FileService = nat -> Result<FileHandle>

  datatype PollOutcome = Ready(file: FileHandle) | Raised(error: Thrown)

  /** How the wait ended, and how many `getFile` calls it made. */
  datatype PollRun = PollRun(outcome: PollOutcome, polls: nat)

  /** The loop entered with `file` after `waited` seconds; the next call to
      `getFile` is call number `waited / StepSeconds`. */
  function Poll(file: FileHandle, waited: nat, getFile: FileService): (r: PollRun)
    decreases MaxWaitSeconds - waited
    ensures r.outcome.Ready? ==> r.outcome.file.state == Active
    ensures waited % StepSeconds == 0 && waited <= MaxWaitSeconds ==>
      r.polls <= (MaxWaitSeconds - waited) / StepSeconds
    ensures file.state == Active ==> r == PollRun(Ready(file), 0)
  {
    if waited < MaxWaitSeconds then
      if file.state == Active then PollRun(Ready(file), 0)
      else if file.state == Failed then PollRun(Raised(Raise(ProcessingFailed(file.displayName))), 0)
      else if file.state == Processing then
        match getFile(waited / StepSeconds)
        case Err(e) => PollRun(Raised(e), 1)
        case Ok(next) =>
          var rest := Poll(next, waited + StepSeconds, getFile);
          PollRun(rest.outcome, rest.polls + 1)
      else PollRun(Raised(Raise(UnexpectedState(file.state))), 0)
    else if file.state != Active then PollRun(Raised(Raise(TimedOut(file.state))), 0)
    else PollRun(Ready(file), 0)
  }

  /** The loop itself. The pause between calls is not modelled; the ghost
      `polls` counts the calls to `getFile`. */
  method AwaitActive(uploaded: FileHandle, getFile: FileService) returns (outcome: PollOutcome, ghost polls: nat)
    ensures PollRun(outcome, polls) == Poll(uploaded, 0, getFile)
  {
    var file := uploaded;
    var waited: nat := 0;
    polls := 0;
    while waited < MaxWaitSeconds
      invariant waited <= MaxWaitSeconds && waited % StepSeconds == 0
      invariant polls == waited / StepSeconds
      invariant Poll(uploaded, 0, getFile).outcome == Poll(file, waited, getFile).outcome
      invariant Poll(uploaded, 0, getFile).polls == polls + Poll(file, waited, getFile).polls
      decreases MaxWaitSeconds - waited
    {
      if file.state == Active {
        break;
      }
      if file.state == Failed {
        outcome := Raised(Raise(ProcessingFailed(file.displayName)));
        return;
      }
      if file.state == Processing {
        var reply := getFile(waited / StepSeconds);
        polls := polls + 1;
        if reply.Err? {
          outcome := Raised(reply.error);
          return;
        }
        file := reply.value;
        waited := waited + StepSeconds;
        continue;
      }
      outcome := Raised(Raise(UnexpectedState(file.state)));
      return;
    }
    if file.state != Active {
      outcome := Raised(Raise(TimedOut(file.state)));
      return;
    }
    outcome := Ready(file);
  }

  // ---------------------------------------------------------------------
  // Properties of the wait
  // ---------------------------------------------------------------------

  /** At most 150 calls to `getFile`. */
  lemma AtMost150Polls(uploaded: FileHandle, getFile: FileService)
    ensures Poll(uploaded, 0, getFile).polls <= 150
  {
  }

  /** A `FAILED` file, whether returned by the upload or by any `getFile`
      call before the budget is used up, raises at once, naming the file. */
  lemma FailedAtOnce(file: FileHandle, waited: nat, getFile: FileService)
    requires file.state == Failed && waited < MaxWaitSeconds
    ensures Poll(file, waited, getFile) == PollRun(Raised(Raise(ProcessingFailed(file.displayName))), 0)
  {
  }

  /** A state other than the three tested ones, at any point before the
      budget is used up, raises at once: it is not waited on. */
  lemma OtherStateAtOnce(file: FileHandle, waited: nat, getFile: FileService)
    requires file.state !in {Active, Processing, Failed} && waited < MaxWaitSeconds
    ensures Poll(file, waited, getFile) == PollRun(Raised(Raise(UnexpectedState(file.state))), 0)
  {
  }

  /** So a `FAILED` reply to call `k < 149`, after `PROCESSING` replies to
      every earlier call, ends the wait after `k + 1` calls with the
      processing-failed error. */
  lemma {:induction false} FailedMidWait(file: FileHandle, waited: nat, getFile: FileService, k: nat, failed: FileHandle)
    requires file.state == Processing
    requires waited % StepSeconds == 0 && waited / StepSeconds <= k < 149
    requires forall m :: waited / StepSeconds <= m < k ==> getFile(m).Ok? && getFile(m).value.state == Processing
    requires getFile(k) == Ok(failed) && failed.state == Failed
    ensures Poll(file, waited, getFile) ==
      PollRun(Raised(Raise(ProcessingFailed(failed.displayName))), k + 1 - waited / StepSeconds)
    decreases MaxWaitSeconds - waited
  {
    if waited / StepSeconds == k {
      FailedAtOnce(failed, waited + StepSeconds, getFile);
    } else {
      FailedMidWait(getFile(waited / StepSeconds).value, waited + StepSeconds, getFile, k, failed);
    }
  }

  /** A provider reporting `PROCESSING` forever makes the loop call
      `getFile` until the counter reaches 300 and then time out. */
  lemma {:induction false} NeverReady(file: FileHandle, waited: nat, getFile: FileService)
    requires file.state == Processing
    requires waited % StepSeconds == 0 && waited <= MaxWaitSeconds
    requires forall k :: getFile(k).Ok? && getFile(k).value.state == Processing
    ensures Poll(file, waited, getFile) ==
      PollRun(Raised(Raise(TimedOut(Processing))), (MaxWaitSeconds - waited) / StepSeconds)
    decreases MaxWaitSeconds - waited
  {
    if waited < MaxWaitSeconds {
      NeverReady(getFile(waited / StepSeconds).value, waited + StepSeconds, getFile);
    }
  }

  lemma AlwaysProcessingTimesOut(uploaded: FileHandle, getFile: FileService)
    requires uploaded.state == Processing
    requires forall k :: getFile(k).Ok? && getFile(k).value.state == Processing
    ensures Poll(uploaded, 0, getFile) == PollRun(Raised(Raise(TimedOut(Processing))), 150)
  {
    NeverReady(uploaded, 0, getFile);
  }

  /** When every reply before the 150th says `PROCESSING`, the 150th reply
      decides: it is accepted if `ACTIVE` and otherwise reported as a
      timeout, even when it says `FAILED`. */
  lemma {:induction false} LastReplyDecides(file: FileHandle, waited: nat, getFile: FileService, last: FileHandle)
    requires file.state == Processing
    requires waited % StepSeconds == 0 && waited < MaxWaitSeconds
    requires forall k :: waited / StepSeconds <= k < 149 ==> getFile(k).Ok? && getFile(k).value.state == Processing
    requires getFile(149) == Ok(last)
    ensures Poll(file, waited, getFile) ==
      PollRun(if last.state == Active then Ready(last) else Raised(Raise(TimedOut(last.state))),
              (MaxWaitSeconds - waited) / StepSeconds)
    decreases MaxWaitSeconds - waited
  {
    if waited + StepSeconds < MaxWaitSeconds {
      LastReplyDecides(getFile(waited / StepSeconds).value, waited + StepSeconds, getFile, last);
    }
  }

  lemma FailedOnLastPollTimesOut(uploaded: FileHandle, getFile: FileService, last: FileHandle)
    requires uploaded.state == Processing
    requires forall k :: 0 <= k < 149 ==> getFile(k).Ok? && getFile(k).value.state == Processing
    requires getFile(149) == Ok(last) && last.state == Failed
    ensures Poll(uploaded, 0, getFile) == PollRun(Raised(Raise(TimedOut(Failed))), 150)
  {
    LastReplyDecides(uploaded, 0, getFile, last);
  }

  /** An upload still `PROCESSING`, a first reply still `PROCESSING` and a
      second reply `ACTIVE`: the loop returns the second reply after two
      calls. */
  lemma ReadyAfterTwoPauses(uploaded: FileHandle, getFile: FileService)
    requires uploaded.state == Processing
    requires getFile(0).Ok? && getFile(0).value.state == Processing
    requires getFile(1).Ok? && getFile(1).value.state == Active
    ensures Poll(uploaded, 0, getFile) == PollRun(Ready(getFile(1).value), 2)
  {
  }

  /** Not a property of the wait but the justification for the literal
      `"300 seconds. "` in `Errors.TimedOut`: it is the decimal text of
      `MaxWaitSeconds`. */
  lemma TimeoutNamesBudget()
    ensures Decimal(MaxWaitSeconds) == "300"
  {
  }
}
