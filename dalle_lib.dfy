/**
 * The library client (`Dalle` in the `dalle` crate): it submits a prompt,
 * polls the task a configured number of times and reads the credit balance.
 * Its polling loop forgives errors: any failed poll, a rejected task
 * included, only uses up one attempt.
 */
module DalleLib {
  import opened Json
  import opened Tasks

  /** Where a succeeded task lists its generations. */
  const GENERATIONS_PATH: seq<string> := ["generations", "data"]
  /** Where the credit summary keeps the balance the client reports. */
  const CREDITS_PATH: seq<string> := ["breakdown", "paid_dalle_15_115"]

  /** One poll of a task, reading the generations under `generations.data`. */
  function GetTask(reply: HttpReply): (r: TaskOutcome)
    ensures r.Ok? && r.value.Some? ==>
      reply.Parsed? && Status(reply.json) == JStr("succeeded")
      && var data := At(reply.json, GENERATIONS_PATH);
         data.JArr? && AllPathsPresent(data.items) && |r.value.value| == |data.items|
         && forall i :: 0 <= i < |data.items| ==> r.value.value[i].imageUrl == ImagePath(data.items[i]).s
    ensures r == Ok(None) <==> reply.Parsed? && Status(reply.json) == JStr("pending")
    ensures reply.Parsed? && Status(reply.json) == JStr("rejected") ==> r == Err(Rejected(reply.json))
    ensures reply.Parsed? && !Status(reply.json).JStr? ==> r == Err(MissingStatus(reply.json))
  {
    Tasks.GetTask(reply, GENERATIONS_PATH)
  }

  /** A poll outcome after which the loop goes round again: still pending, or any error. */
  predicate Absorbed(o: TaskOutcome)
  {
    o == Ok(None) || o.Err?
  }

  /** How many of `outcomes` report a pending task: each of them is followed by one sleep. */
  function Pendings(outcomes: seq<TaskOutcome>): nat
  {
    if outcomes == [] then 0
    else Pendings(outcomes[..|outcomes| - 1]) + (if outcomes[|outcomes| - 1] == Ok(None) then 1 else 0)
  }

  /**
   * The polling loop from the point where `attempts` polls have been made
   * and `sleeps` sleeps taken; the next poll gives `outcomes[attempts]`.
   */
  function Wait(numberOfPolls: nat, outcomes: seq<TaskOutcome>, attempts: nat, sleeps: nat): PollRun
    requires attempts <= numberOfPolls + 1 <= |outcomes|
    decreases numberOfPolls + 1 - attempts
  {
    if attempts > numberOfPolls then PollRun(Err(TimedOut(numberOfPolls)), attempts, sleeps)
    else
      match outcomes[attempts]
      case Ok(Some(gens)) => PollRun(Ok(gens), attempts + 1, sleeps)
      case Ok(None) => Wait(numberOfPolls, outcomes, attempts + 1, sleeps + 1)
      case Err(_) => Wait(numberOfPolls, outcomes, attempts + 1, sleeps)
      case Panic => PollRun(Panic, attempts + 1, sleeps)
  }

  /** The loop run from the start, as `wait_for_generation_completion` runs it. */
  function WaitRun(numberOfPolls: nat, outcomes: seq<TaskOutcome>): PollRun
    requires numberOfPolls + 1 <= |outcomes|
  {
    Wait(numberOfPolls, outcomes, 0, 0)
  }

  /** What every run of the loop satisfies; see WaitOutcome. */
  predicate WellEnded(numberOfPolls: nat, outcomes: seq<TaskOutcome>, run: PollRun)
    requires numberOfPolls + 1 <= |outcomes|
  {
    1 <= run.polls <= numberOfPolls + 1
    && (forall k :: 0 <= k < run.polls - 1 ==> Absorbed(outcomes[k]))
    && run.sleeps == Pendings(outcomes[..run.polls])
    && match run.result
       case Ok(gens) => outcomes[run.polls - 1] == Ok(Some(gens))
       case Panic => outcomes[run.polls - 1].Panic?
       case Err(e) => e == TimedOut(numberOfPolls) && run.polls == numberOfPolls + 1
                      && Absorbed(outcomes[numberOfPolls])
  }

  lemma {:induction false} WaitFrom(numberOfPolls: nat, outcomes: seq<TaskOutcome>, attempts: nat, sleeps: nat)
    requires attempts <= numberOfPolls + 1 <= |outcomes|
    requires forall k :: 0 <= k < attempts ==> Absorbed(outcomes[k])
    requires sleeps == Pendings(outcomes[..attempts])
    ensures attempts <= Wait(numberOfPolls, outcomes, attempts, sleeps).polls
    ensures WellEnded(numberOfPolls, outcomes, Wait(numberOfPolls, outcomes, attempts, sleeps))
    decreases numberOfPolls + 1 - attempts
  {
    if attempts <= numberOfPolls {
      assert outcomes[..attempts + 1][..attempts] == outcomes[..attempts];
      if outcomes[attempts] == Ok(None) {
        WaitFrom(numberOfPolls, outcomes, attempts + 1, sleeps + 1);
      } else if outcomes[attempts].Err? {
        WaitFrom(numberOfPolls, outcomes, attempts + 1, sleeps);
      }
    }
  }

  /**
   * What the loop does, for every sequence of poll outcomes: it polls at
   * least once and at most `numberOfPolls + 1` times; every poll before the
   * last was pending or failed; it sleeps once per pending outcome it read;
   * and it ends with the generations of the first succeeded poll, with the
   * panic of the first poll that panicked, or, after exactly
   * `numberOfPolls + 1` polls, with a timeout whose message names
   * `numberOfPolls`.
   */
  lemma WaitOutcome(numberOfPolls: nat, outcomes: seq<TaskOutcome>)
    requires numberOfPolls + 1 <= |outcomes|
    ensures WellEnded(numberOfPolls, outcomes, WaitRun(numberOfPolls, outcomes))
  {
    assert outcomes[..0] == [];
    WaitFrom(numberOfPolls, outcomes, 0, 0);
  }

  /**
   * If poll `k` is the first that neither fails nor stays pending, the loop
   * stops there: it returns that poll's generations (or panics with it)
   * after exactly `k + 1` polls, whatever the later outcomes would be.
   */
  lemma WaitStopsAtFirstTerminal(numberOfPolls: nat, outcomes: seq<TaskOutcome>, k: nat)
    requires k <= numberOfPolls < |outcomes|
    requires forall j :: 0 <= j < k ==> Absorbed(outcomes[j])
    requires !Absorbed(outcomes[k])
    ensures WaitRun(numberOfPolls, outcomes).polls == k + 1
    ensures outcomes[k].Ok? ==> WaitRun(numberOfPolls, outcomes).result == Ok(outcomes[k].value.value)
    ensures outcomes[k].Panic? ==> WaitRun(numberOfPolls, outcomes).result.Panic?
  {
    WaitOutcome(numberOfPolls, outcomes);
    var run := WaitRun(numberOfPolls, outcomes);
    ghost var last := Absorbed(outcomes[run.polls - 1]);
  }

  /** Polls that all fail time the loop out after every attempt, without a single sleep. */
  lemma AllErrorsTimeOut(numberOfPolls: nat, outcomes: seq<TaskOutcome>)
    requires numberOfPolls < |outcomes|
    requires forall k :: 0 <= k <= numberOfPolls ==> outcomes[k].Err?
    ensures WaitRun(numberOfPolls, outcomes) == PollRun(Err(TimedOut(numberOfPolls)), numberOfPolls + 1, 0)
  {
    WaitOutcome(numberOfPolls, outcomes);
    var run := WaitRun(numberOfPolls, outcomes);
    ghost var last := outcomes[run.polls - 1];
    NoPendings(outcomes[..numberOfPolls + 1]);
  }

  lemma {:induction false} NoPendings(outcomes: seq<TaskOutcome>)
    requires forall k :: 0 <= k < |outcomes| ==> outcomes[k].Err?
    ensures Pendings(outcomes) == 0
  {
    if outcomes != [] {
      NoPendings(outcomes[..|outcomes| - 1]);
    }
  }

  /**
   * A rejected task is polled again: when the next poll succeeds, the loop
   * returns its generations after two polls and no sleep.
   */
  lemma RejectionIsRetried(numberOfPolls: nat, replies: seq<HttpReply>, gens: seq<DalleResponse>)
    requires 1 <= numberOfPolls < |replies|
    requires replies[0].Parsed? && Status(replies[0].json) == JStr("rejected")
    requires GetTask(replies[1]) == Ok(Some(gens))
    ensures WaitRun(numberOfPolls, Outcomes(replies, GENERATIONS_PATH)) == PollRun(Ok(gens), 2, 0)
  {
    var os := Outcomes(replies, GENERATIONS_PATH);
    WaitStopsAtFirstTerminal(numberOfPolls, os, 1);
    WaitOutcome(numberOfPolls, os);
    assert os[0] == Err(Rejected(replies[0].json));
    assert os[..2][..1] == os[..1];
    assert os[..1][..0] == [];
    assert Pendings(os[..1]) == 0;
    assert Pendings(os[..2]) == 0;
  }

  /** A reply saying the task is pending. */
  const PENDING_REPLY := Parsed(JObj(map["status" := JStr("pending")]))

  /** A generation whose image lives at `url`. */
  function Generation(url: string): Json
  {
    JObj(map["generation" := JObj(map["image_path" := JStr(url)])])
  }

  /** A reply saying the task succeeded with images at `urls`. */
  function SucceededReply(urls: seq<string>): HttpReply
  {
    Parsed(JObj(map["status" := JStr("succeeded"),
                    "generations" := JObj(map["data" := JArr(seq(|urls|, i requires 0 <= i < |urls| => Generation(urls[i])))])]))
  }

  /** A succeeded reply gives one response per image, in order. */
  lemma SucceededReplyClassified(urls: seq<string>)
    ensures GetTask(SucceededReply(urls)) == Ok(Some(seq(|urls|, i requires 0 <= i < |urls| => DalleResponse(urls[i]))))
  {
    var reply := SucceededReply(urls);
    var items := seq(|urls|, i requires 0 <= i < |urls| => Generation(urls[i]));
    assert Status(reply.json) == JStr("succeeded");
    assert GENERATIONS_PATH[1..] == ["data"] && ["data"][1..] == [];
    assert At(reply.json, GENERATIONS_PATH) == JArr(items);
    forall i | 0 <= i < |urls| ensures ImagePath(items[i]) == JStr(urls[i]) {
      assert ["generation", "image_path"][1..] == ["image_path"] && ["image_path"][1..] == [];
    }
    var r := GetTask(reply);
    assert r.Ok? && r.value.Some?;
    assert r.value.value == seq(|urls|, i requires 0 <= i < |urls| => DalleResponse(urls[i]));
  }

  /**
   * Two pending polls then a success with four images: with a budget of at
   * least two extra polls, the loop returns exactly those four images after
   * three polls and two sleeps.
   */
  lemma PendingTwiceThenSucceeded(numberOfPolls: nat, replies: seq<HttpReply>, urls: seq<string>)
    requires 2 <= numberOfPolls < |replies|
    requires |urls| == 4
    requires replies[0] == PENDING_REPLY && replies[1] == PENDING_REPLY && replies[2] == SucceededReply(urls)
    ensures WaitRun(numberOfPolls, Outcomes(replies, GENERATIONS_PATH))
            == PollRun(Ok(seq(4, i requires 0 <= i < 4 => DalleResponse(urls[i]))), 3, 2)
  {
    var os := Outcomes(replies, GENERATIONS_PATH);
    SucceededReplyClassified(urls);
    assert os[0] == Ok(None) && os[1] == Ok(None);
    assert os[2] == Ok(Some(seq(4, i requires 0 <= i < 4 => DalleResponse(urls[i]))));
    WaitStopsAtFirstTerminal(numberOfPolls, os, 2);
    WaitOutcome(numberOfPolls, os);
    assert os[..3][..2] == os[..2] && os[..2][..1] == os[..1] && os[..1][..0] == [];
    assert Pendings(os[..1]) == 1;
    assert Pendings(os[..2]) == 2;
  }

  /**
   * `wait_for_generation_completion`: poll task `taskId` until it succeeds
   * or the attempts run out. Each poll is a GET of the task's address; a
   * pending task is followed by a two-second sleep, a failed poll by none.
   */
  method WaitForGenerationCompletion(numberOfPolls: nat, taskId: string, replies: seq<HttpReply>)
    returns (r: Outcome<seq<DalleResponse>>, ghost requests: seq<Request>, ghost sleeps: nat)
    requires numberOfPolls + 1 <= |replies|
    ensures r == WaitRun(numberOfPolls, Outcomes(replies, GENERATIONS_PATH)).result
    ensures |requests| == WaitRun(numberOfPolls, Outcomes(replies, GENERATIONS_PATH)).polls
    ensures sleeps == WaitRun(numberOfPolls, Outcomes(replies, GENERATIONS_PATH)).sleeps
    ensures forall i :: 0 <= i < |requests| ==> requests[i] == Get(TaskUrl(taskId))
  {
    var attempts := 0;
    requests, sleeps := [], 0;
    while attempts <= numberOfPolls
      invariant attempts <= numberOfPolls + 1
      invariant |requests| == attempts
      invariant forall i :: 0 <= i < |requests| ==> requests[i] == Get(TaskUrl(taskId))
      invariant Wait(numberOfPolls, Outcomes(replies, GENERATIONS_PATH), attempts, sleeps) == WaitRun(numberOfPolls, Outcomes(replies, GENERATIONS_PATH))
    {
      attempts := attempts + 1;
      requests := requests + [Get(TaskUrl(taskId))];
      var task := GetTask(replies[attempts - 1]);
      match task {
        case Ok(Some(gens)) =>
          r := Ok(gens);
          return;
        case Ok(None) =>
          sleeps := sleeps + 1;
        case Err(_) =>
        case Panic =>
          r := Panic;
          return;
      }
    }
    r := Err(TimedOut(numberOfPolls));
  }

  /**
   * `generate`: submit the prompt, read the task id from the reply, then poll
   * that task. Without a string id it fails before any poll.
   */
  method Generate(numberOfPolls: nat, prompt: string, submitted: HttpReply, replies: seq<HttpReply>)
    returns (r: Outcome<seq<DalleResponse>>, ghost requests: seq<Request>, ghost sleeps: nat)
    requires numberOfPolls + 1 <= |replies|
    ensures |requests| >= 1 && requests[0] == SubmitRequest(prompt)
    ensures TaskId(submitted).Err? ==> r == Err(TaskId(submitted).error)
    ensures TaskId(submitted).Ok? ==> r == WaitRun(numberOfPolls, Outcomes(replies, GENERATIONS_PATH)).result
    ensures TaskId(submitted).Err? ==> |requests| == 1 && sleeps == 0
    ensures TaskId(submitted).Ok? ==>
      PollRun(r, |requests| - 1, sleeps) == WaitRun(numberOfPolls, Outcomes(replies, GENERATIONS_PATH))
      && forall i :: 1 <= i < |requests| ==> requests[i] == Get(TaskUrl(TaskId(submitted).value))
  {
    requests := [SubmitRequest(prompt)];
    sleeps := 0;
    match TaskId(submitted)
    case Err(e) =>
      r := Err(e);
    case Ok(taskId) =>
      ghost var polls;
      r, polls, sleeps := WaitForGenerationCompletion(numberOfPolls, taskId, replies);
      requests := requests + polls;
  }

  /** `get_remaining_credits`: the integer at `breakdown.paid_dalle_15_115` of the credit summary. */
  function GetRemainingCredits(reply: HttpReply): (r: Outcome<int>)
    ensures r.Ok? <==> reply.Parsed? && At(reply.json, CREDITS_PATH).JNum?
                       && I64_MIN <= At(reply.json, CREDITS_PATH).n <= I64_MAX
    ensures r.Ok? ==> r.value == At(reply.json, CREDITS_PATH).n
    ensures reply.TransportError? ==> r == Err(Transport(reply.reason))
    ensures reply.Parsed? && !r.Ok? ==> r == Err(MissingCredits(reply.json))
  {
    match reply
    case TransportError(reason) => Err(Transport(reason))
    case Parsed(json) =>
      match AsI64(At(json, CREDITS_PATH))
      case Some(credits) => Ok(credits)
      case None => Err(MissingCredits(json))
  }
}
