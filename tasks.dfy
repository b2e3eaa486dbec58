/**
 * What the two DALL-E clients share: the errors they report, the replies the
 * network gives them, the body of the task submission and the classification
 * of a task's status. The two clients read the generations of a finished task
 * at different places in the response, so the classification takes that
 * place as a parameter.
 */
module Tasks {
  import opened Json

  const BASE_URL := "https://labs.openai.com/api/labs"
  const TASKS_URL := BASE_URL + "/tasks"

  /** The errors the clients raise, each carrying what its message prints. */
  datatype Error =
    | Transport(reason: string)          // a request could not be sent or its body not decoded
    | MissingTaskId(response: Json)      // the submission's reply has no string `id`
    | MissingStatus(response: Json)      // the task's reply has no string `status`
    | Rejected(response: Json)           // the task was rejected; the whole reply is kept
    | InvalidStatus(status: string)      // a status the client does not know
    | MissingGenerations(response: Json) // a succeeded task whose generations are not an array
    | TimedOut(attempts: nat)            // the attempts ran out; the message names `attempts`
    | MissingCredits(response: Json)     // the credit summary has no integer balance
    | DownloadFailed(reason: string)     // an image could not be fetched

  /**
   * A fallible call: `Ok` and `Err` are Rust's `Result`; `Panic` is an
   * `unwrap` on `None`, which unwinds past every `match` on the `Result`.
   */
  datatype Outcome<T> = Ok(value: T) | Err(error: Error) | Panic

  /** What one HTTP round trip gives the client: a parsed JSON body or a transport failure. */
  datatype HttpReply = Parsed(json: Json) | TransportError(reason: string)

  /** A request the client sends. */
  datatype Request = Post(url: string, body: string) | Get(url: string)

  /** One generated image, by the locator of its file. */
  datatype DalleResponse = DalleResponse(imageUrl: string)

  /** What one poll of a task gives: the generations, `None` while pending, or a failure. */
  type TaskOutcome = Outcome<Option<seq<DalleResponse>>>

  /** A run of a polling loop: its result, how many times it polled and how many times it slept. */
  datatype PollRun = PollRun(result: Outcome<seq<DalleResponse>>, polls: nat, sleeps: nat)

  /** The submission body, up to the caption's opening quote. */
  const BODY_HEAD := "\n            {\n                \"task_type\": \"text2im\",\n                \"prompt\": {\n                    \"caption\": \""
  /** The submission body after the caption: a batch of four images. */
  const BODY_TAIL := "\",\n                    \"batch_size\": 4\n                }\n            }\n        "

  /**
   * The body of the task submission. The prompt is pasted between the
   * caption's quotes as it is, with no JSON escaping.
   */
  function RequestBody(prompt: string): string
  {
    BODY_HEAD + prompt + BODY_TAIL
  }

  /**
   * The body is the fixed head, then the prompt character for character as
   * the caption, then the fixed tail.
   */
  lemma RequestBodyCaption(prompt: string)
    ensures var body := RequestBody(prompt);
      |body| == |BODY_HEAD| + |prompt| + |BODY_TAIL|
      && body[..|BODY_HEAD|] == BODY_HEAD
      && body[|BODY_HEAD|..|BODY_HEAD| + |prompt|] == prompt
      && body[|BODY_HEAD| + |prompt|..] == BODY_TAIL
  {
  }

  /** Different prompts give different bodies: the prompt can be read back from the body. */
  lemma RequestBodyInjective(p: string, q: string)
    requires RequestBody(p) == RequestBody(q)
    ensures p == q
  {
    RequestBodyCaption(p);
    RequestBodyCaption(q);
  }

  /** The submission of a prompt: a POST of its body to the tasks address. */
  function SubmitRequest(prompt: string): Request
  {
    Post(TASKS_URL, RequestBody(prompt))
  }

  /** The address of one task. */
  function TaskUrl(taskId: string): string
  {
    TASKS_URL + "/" + taskId
  }

  /** The task id in the submission's reply: its `id` member, which must be a string. */
  function TaskId(reply: HttpReply): (r: Outcome<string>)
    ensures r.Ok? <==> reply.Parsed? && Index(reply.json, "id").JStr?
    ensures r.Ok? ==> r.value == Index(reply.json, "id").s
    ensures reply.TransportError? ==> r == Err(Transport(reply.reason))
    ensures reply.Parsed? && !r.Ok? ==> r == Err(MissingTaskId(reply.json))
  {
    match reply
    case TransportError(reason) => Err(Transport(reason))
    case Parsed(json) =>
      match AsStr(Index(json, "id"))
      case Some(id) => Ok(id)
      case None => Err(MissingTaskId(json))
  }

  /** The `status` member of a task's reply. */
  function Status(res: Json): Json
  {
    Index(res, "status")
  }

  /** The image locator of one generation: `generation.image_path`. */
  function ImagePath(gen: Json): Json
  {
    At(gen, ["generation", "image_path"])
  }

  /** Every generation carries a string image path. */
  predicate AllPathsPresent(gens: seq<Json>)
  {
    forall i :: 0 <= i < |gens| ==> ImagePath(gens[i]).JStr?
  }

  /**
   * One response per generation, in order, each with that generation's image
   * path; a generation without a string path panics (the `unwrap`).
   */
  function ImageUrls(gens: seq<Json>): (r: Outcome<seq<DalleResponse>>)
    ensures r.Ok? <==> AllPathsPresent(gens)
    ensures !r.Ok? ==> r.Panic?
    ensures r.Ok? ==> |r.value| == |gens|
    ensures r.Ok? ==> forall i :: 0 <= i < |gens| ==> r.value[i].imageUrl == ImagePath(gens[i]).s
  {
    if gens == [] then Ok([])
    else
      match AsStr(ImagePath(gens[0]))
      case None => Panic
      case Some(url) =>
        var rest := ImageUrls(gens[1..]);
        if rest.Ok? then Ok([DalleResponse(url)] + rest.value) else Panic
  }

  /** The generations of a succeeded task, read from the array at `path`. */
  function CollectGenerations(res: Json, path: seq<string>): (r: Outcome<seq<DalleResponse>>)
    ensures !At(res, path).JArr? ==> r == Err(MissingGenerations(res))
    ensures At(res, path).JArr? ==> r == ImageUrls(At(res, path).items)
  {
    match AsArray(At(res, path))
    case None => Err(MissingGenerations(res))
    case Some(gens) => ImageUrls(gens)
  }

  /**
   * One poll of a task: a transport failure, or the classification of the
   * reply by its `status`. `Ok(Some(gens))` is a finished task, `Ok(None)`
   * one still pending; every other status is an error.
   */
  function GetTask(reply: HttpReply, path: seq<string>): (r: TaskOutcome)
    ensures reply.TransportError? ==> r == Err(Transport(reply.reason))
    ensures reply.Parsed? ==> !Status(reply.json).JStr? ==> r == Err(MissingStatus(reply.json))
    ensures r.Ok? && r.value.Some? <==>
      reply.Parsed? && Status(reply.json) == JStr("succeeded")
      && At(reply.json, path).JArr? && AllPathsPresent(At(reply.json, path).items)
    ensures r.Ok? && r.value.Some? ==>
      var gens := At(reply.json, path).items;
      |r.value.value| == |gens|
      && forall i :: 0 <= i < |gens| ==> r.value.value[i].imageUrl == ImagePath(gens[i]).s
    ensures r == Ok(None) <==> reply.Parsed? && Status(reply.json) == JStr("pending")
    ensures r.Panic? <==>
      reply.Parsed? && Status(reply.json) == JStr("succeeded")
      && At(reply.json, path).JArr? && !AllPathsPresent(At(reply.json, path).items)
    ensures reply.Parsed? && Status(reply.json) == JStr("succeeded") ==>
      !At(reply.json, path).JArr? ==> r == Err(MissingGenerations(reply.json))
    ensures reply.Parsed? && Status(reply.json) == JStr("rejected") ==> r == Err(Rejected(reply.json))
    ensures reply.Parsed? && Status(reply.json).JStr? ==>
      Status(reply.json).s !in {"succeeded", "rejected", "pending"} ==>
      r == Err(InvalidStatus(Status(reply.json).s))
  {
    match reply
    case TransportError(reason) => Err(Transport(reason))
    case Parsed(res) =>
      match AsStr(Status(res))
      case None => Err(MissingStatus(res))
      case Some(status) =>
        if status == "succeeded" then
          match CollectGenerations(res, path)
          case Ok(gens) => Ok(Some(gens))
          case Err(e) => Err(e)
          case Panic => Panic
        else if status == "rejected" then Err(Rejected(res))
        else if status == "pending" then Ok(None)
        else Err(InvalidStatus(status))
  }

  /** What the polls of a task give, one per reply the network gives them. */
  function Outcomes(replies: seq<HttpReply>, path: seq<string>): (os: seq<TaskOutcome>)
    ensures |os| == |replies|
    ensures forall i :: 0 <= i < |replies| ==> os[i] == GetTask(replies[i], path)
  {
    seq(|replies|, i requires 0 <= i < |replies| => GetTask(replies[i], path))
  }
}
