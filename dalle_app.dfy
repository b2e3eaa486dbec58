/**
 * The command-line application's own client (`Dalle` in the root crate):
 * `generate` submits the prompt and polls inline, at most `MAX_ATTEMPTS + 1`
 * times. Unlike the library client it gives up on the first failed poll:
 * every error of a poll ends `generate` with that error.
 */
module DalleApp {
  import opened Json
  import opened Tasks

  /** Rust's `u8`, the type of the attempt counter. */
  newtype u8 = x: int | 0 <= x < 0x100

  const MAX_ATTEMPTS: u8 := 10
  /** Where a succeeded task lists its generations: the top-level array. */
  const GENERATIONS_PATH: seq<string> := ["generations"]

  /** One poll of a task, reading the generations from the top-level `generations` array. */
  function GetTask(reply: HttpReply): (r: TaskOutcome)
    ensures r.Ok? && r.value.Some? ==>
      reply.Parsed? && Status(reply.json) == JStr("succeeded")
      && var gens := Index(reply.json, "generations");
         gens.JArr? && AllPathsPresent(gens.items) && |r.value.value| == |gens.items|
         && forall i :: 0 <= i < |gens.items| ==> r.value.value[i].imageUrl == ImagePath(gens.items[i]).s
    ensures r == Ok(None) <==> reply.Parsed? && Status(reply.json) == JStr("pending")
    ensures reply.Parsed? && Status(reply.json) == JStr("rejected") ==> r == Err(Rejected(reply.json))
    ensures reply.Parsed? && !Status(reply.json).JStr? ==> r == Err(MissingStatus(reply.json))
  {
    assert reply.Parsed? ==> At(Index(reply.json, "generations"), []) == Index(reply.json, "generations");
    Tasks.GetTask(reply, GENERATIONS_PATH)
  }

  /**
   * The inline polling loop of `generate` from the point where `attempts`
   * polls have been made and `sleeps` sleeps taken.
   */
  function Poll(outcomes: seq<TaskOutcome>, attempts: nat, sleeps: nat): PollRun
    requires attempts <= MAX_ATTEMPTS as nat + 1 <= |outcomes|
    decreases |outcomes| - attempts
  {
    if attempts > MAX_ATTEMPTS as nat then PollRun(Err(TimedOut(MAX_ATTEMPTS as nat)), attempts, sleeps)
    else
      match outcomes[attempts]
      case Ok(Some(gens)) => PollRun(Ok(gens), attempts + 1, sleeps)
      case Ok(None) => Poll(outcomes, attempts + 1, sleeps + 1)
      case Err(e) => PollRun(Err(e), attempts + 1, sleeps)
      case Panic => PollRun(Panic, attempts + 1, sleeps)
  }

  /** The loop run from the start. */
  function PollLoop(outcomes: seq<TaskOutcome>): PollRun
    requires MAX_ATTEMPTS as nat + 1 <= |outcomes|
  {
    Poll(outcomes, 0, 0)
  }

  /** What every run of the loop satisfies; see PollLoopOutcome. */
  predicate WellEnded(outcomes: seq<TaskOutcome>, run: PollRun)
    requires MAX_ATTEMPTS as nat + 1 <= |outcomes|
  {
    1 <= run.polls <= MAX_ATTEMPTS as nat + 1
    && (forall k :: 0 <= k < run.polls - 1 ==> outcomes[k] == Ok(None))
    && match run.result
       case Ok(gens) => outcomes[run.polls - 1] == Ok(Some(gens)) && run.sleeps == run.polls - 1
       case Panic => outcomes[run.polls - 1].Panic? && run.sleeps == run.polls - 1
       case Err(e) =>
         (outcomes[run.polls - 1] == Err(e) && run.sleeps == run.polls - 1)
         || (e == TimedOut(MAX_ATTEMPTS as nat) && run.polls == MAX_ATTEMPTS as nat + 1
             && outcomes[MAX_ATTEMPTS] == Ok(None) && run.sleeps == run.polls)
  }

  lemma {:induction false} PollFrom(outcomes: seq<TaskOutcome>, attempts: nat)
    requires attempts <= MAX_ATTEMPTS as nat + 1 <= |outcomes|
    requires forall k :: 0 <= k < attempts ==> outcomes[k] == Ok(None)
    ensures attempts <= Poll(outcomes, attempts, attempts).polls
    ensures WellEnded(outcomes, Poll(outcomes, attempts, attempts))
    decreases |outcomes| - attempts
  {
    if attempts <= MAX_ATTEMPTS as nat && outcomes[attempts] == Ok(None) {
      PollFrom(outcomes, attempts + 1);
    }
  }

  /**
   * What the loop does, for every sequence of poll outcomes: it polls at
   * least once and at most `MAX_ATTEMPTS + 1` = 11 times; every poll before
   * the last was pending and was followed by one sleep; and it ends with the
   * first poll that succeeded, failed or panicked, giving its generations,
   * its error or its panic, or, after 11 pending polls and 11 sleeps, with a
   * timeout whose message names `MAX_ATTEMPTS`.
   */
  lemma PollLoopOutcome(outcomes: seq<TaskOutcome>)
    requires MAX_ATTEMPTS as nat + 1 <= |outcomes|
    ensures PollLoop(outcomes).polls <= 11
    ensures WellEnded(outcomes, PollLoop(outcomes))
  {
    PollFrom(outcomes, 0);
  }

  /**
   * If poll `k` is the first that is not pending, the loop stops there with
   * its result, after `k + 1` polls and `k` sleeps; an error in particular is
   * returned at once, however many attempts are left.
   */
  lemma PollStopsAtFirstNonPending(outcomes: seq<TaskOutcome>, k: nat)
    requires k <= MAX_ATTEMPTS as nat < |outcomes|
    requires forall j :: 0 <= j < k ==> outcomes[j] == Ok(None)
    requires outcomes[k] != Ok(None)
    ensures PollLoop(outcomes).polls == k + 1 && PollLoop(outcomes).sleeps == k
    ensures outcomes[k].Err? ==> PollLoop(outcomes).result == Err(outcomes[k].error)
    ensures outcomes[k].Ok? ==> PollLoop(outcomes).result == Ok(outcomes[k].value.value)
    ensures outcomes[k].Panic? ==> PollLoop(outcomes).result.Panic?
  {
    PollLoopOutcome(outcomes);
    var run := PollLoop(outcomes);
    ghost var last := outcomes[run.polls - 1];
  }

  /** A rejected task ends `generate` after its first poll, with the rejection and no sleep. */
  lemma RejectionIsFatal(replies: seq<HttpReply>)
    requires MAX_ATTEMPTS as nat + 1 <= |replies|
    requires replies[0].Parsed? && Status(replies[0].json) == JStr("rejected")
    ensures PollLoop(Outcomes(replies, GENERATIONS_PATH)) == PollRun(Err(Rejected(replies[0].json)), 1, 0)
  {
    PollStopsAtFirstNonPending(Outcomes(replies, GENERATIONS_PATH), 0);
  }

  /** One round of the loop: a pending poll, then a sleep, and the loop goes on. */
  lemma PollPending(outcomes: seq<TaskOutcome>, attempts: nat, sleeps: nat)
    requires attempts <= MAX_ATTEMPTS as nat < |outcomes|
    requires outcomes[attempts] == Ok(None)
    ensures Poll(outcomes, attempts, sleeps) == Poll(outcomes, attempts + 1, sleeps + 1)
  {
  }

  /** A poll that is not pending ends the loop with its result. */
  lemma PollEnds(outcomes: seq<TaskOutcome>, attempts: nat, sleeps: nat)
    requires attempts <= MAX_ATTEMPTS as nat < |outcomes|
    requires outcomes[attempts] != Ok(None)
    ensures Poll(outcomes, attempts, sleeps).polls == attempts + 1
    ensures Poll(outcomes, attempts, sleeps).sleeps == sleeps
    ensures outcomes[attempts].Ok? ==> Poll(outcomes, attempts, sleeps).result == Ok(outcomes[attempts].value.value)
    ensures outcomes[attempts].Err? ==> Poll(outcomes, attempts, sleeps).result == Err(outcomes[attempts].error)
    ensures outcomes[attempts].Panic? ==> Poll(outcomes, attempts, sleeps).result == Panic
  {
  }

  /**
   * `generate`: submit the prompt, read the task id from the reply, then poll
   * that task, sleeping two seconds after every pending poll. Without a
   * string id it fails before any poll; a failed poll ends it at once.
   */
  method Generate(prompt: string, submitted: HttpReply, replies: seq<HttpReply>)
    returns (r: Outcome<seq<DalleResponse>>, ghost requests: seq<Request>, ghost sleeps: nat)
    requires MAX_ATTEMPTS as nat + 1 <= |replies|
    ensures |requests| >= 1 && requests[0] == SubmitRequest(prompt)
    ensures TaskId(submitted).Err? ==> r == Err(TaskId(submitted).error)
    ensures TaskId(submitted).Ok? ==> r == PollLoop(Outcomes(replies, GENERATIONS_PATH)).result
    ensures TaskId(submitted).Err? ==> |requests| == 1 && sleeps == 0
    ensures TaskId(submitted).Ok? ==>
      PollRun(r, |requests| - 1, sleeps) == PollLoop(Outcomes(replies, GENERATIONS_PATH))
      && forall i :: 1 <= i < |requests| ==> requests[i] == Get(TaskUrl(TaskId(submitted).value))
  {
    ghost var submit := SubmitRequest(prompt);
    requests := [submit];
    sleeps := 0;
    var taskId;
    match TaskId(submitted) {
      case Err(e) =>
        r := Err(e);
        return;
      case Ok(id) =>
        taskId := id;
    }
    ghost var os := Outcomes(replies, GENERATIONS_PATH);
    ghost var run := PollLoop(os);
    ghost var poll := Get(TaskUrl(taskId));
    var attempts: u8 := 0;
    while attempts <= MAX_ATTEMPTS
      invariant attempts <= MAX_ATTEMPTS + 1
      invariant |requests| == attempts as int + 1
      invariant requests[0] == submit
      invariant forall i :: 1 <= i < |requests| ==> requests[i] == poll
      invariant Poll(os, attempts as nat, sleeps) == run
    {
      attempts := attempts + 1;
      requests := requests + [poll];
      var task := GetTask(replies[attempts as int - 1]);
      assert task == os[attempts - 1];
      if task == Ok(None) {
        PollPending(os, attempts as nat - 1, sleeps);
      } else {
        PollEnds(os, attempts as nat - 1, sleeps);
      }
      match task {
        case Err(e) =>
          r := Err(e);
          assert run == PollRun(r, |requests| - 1, sleeps);
          return;
        case Panic =>
          r := Panic;
          assert run == PollRun(r, |requests| - 1, sleeps);
          return;
        case Ok(Some(gens)) =>
          r := Ok(gens);
          assert run == PollRun(r, |requests| - 1, sleeps);
          return;
        case Ok(None) =>
          sleeps := sleeps + 1;
      }
    }
    r := Err(TimedOut(MAX_ATTEMPTS as nat));
    assert run == PollRun(r, |requests| - 1, sleeps);
  }
}
