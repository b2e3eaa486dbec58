# DALL-E task client and Discord download filter, in Dafny

This project models the logic of a small bot that generates images with
DALL-E 2. A client submits a prompt as a `text2im` task with a batch of four
images. It then polls the task until its `status` is `succeeded`, and returns
one `DalleResponse` per generated image. The Discord command downloads each
image best-effort and attaches the files that arrived to its reply.

There are two clients, and the model keeps both:

- the library client, `dalle/src/dalle.rs` (module `DalleLib`). Its poll
  budget is configured (`number_of_polls`). Every failed poll only uses up
  one attempt, and that includes a rejected task. It also reads the credit
  balance.
- the application's client, `src/dalle.rs` (module `DalleApp`). It makes at
  most `MAX_ATTEMPTS + 1` = 11 polls. Any failed poll ends `generate` at once.

What they share is in module `Tasks`: the error kinds, the submission body,
the task id, and the classification of a poll by its `status`. The one
difference between the two crates here is where a succeeded task lists its
generations: `generations.data` in the library, the top-level `generations`
in the application. It is a parameter of `Tasks.GetTask`. Module `Json` is
the parsed JSON value with serde_json's accessors. Indexing a missing key or
a non-object gives `null`.

The network is an oracle. Each HTTP round trip is the next element of an
input sequence of `HttpReply` values: a parsed body, or a transport failure.
Poll `k` reads `replies[k]`. An image fetch is a `FetchReply`. The ids that
name downloaded files are an input sequence too. Sleeps, polls and the
requests sent are ghost outputs of the methods. Each polling loop is a method
proved equal to a tail-recursive specification function (`DalleLib.Wait`,
`DalleApp.Poll`). The lemmas beside each function describe every run of the
loop.

An `unwrap` of a missing `image_path` panics. It is modelled as the
`Outcome.Panic` result, not as an error. That is why the library's loop,
which absorbs every `Err`, does not absorb it.

The submission body pastes the prompt between the caption's quotes with no
JSON escaping, so the prompt can be read back from the body
(`Tasks.RequestBodyInjective`). A prompt that holds a `"` therefore changes
the shape of the JSON sent.

Facts about the code that the model keeps:

- The library client retries a rejected task and a transport failure: each
  only uses up an attempt. The application client stops on any failed poll.
- An empty `generations` array is accepted and gives no images.
- The poll interval is a fixed two seconds. `src/dalle.rs` also hard-codes
  its attempt budget.
- The download step returns `Ok(files)` and reports each failed download in
  the channel. In the model those reports are the `said` output.

## Model

| member | source | states |
|---|---|---|
| Tasks.RequestBodyInjective | src/dalle.rs:40-51 | the prompt can be read back from the body: different prompts give different bodies |
| Tasks.TaskId | dalle/src/dalle.rs:94-105 | the id is found exactly when the reply parsed and its `id` is a string, and it is that string; a transport failure or a missing or non-string `id` gives the matching error |
| Tasks.ImageUrls | dalle/src/dalle.rs:139-146 | one response per generation, in order, each carrying that generation's `generation.image_path`; if any path is not a string the result is a panic |
| Tasks.CollectGenerations | dalle/src/dalle.rs:135-148 | if the generations are not an array it is an error naming the response, otherwise it is the image paths of the array |
| Tasks.GetTask | dalle/src/dalle.rs:110-133 | `Ok(Some)` exactly when the status is "succeeded" and every generation has a path; `Ok(None)` exactly when it is "pending"; a rejection carries the whole reply; a missing or non-string status, an unknown status, missing generations and transport failures each give their error |
| DalleLib.GetTask | dalle/src/dalle.rs:110-148 | the library client's poll reads `generations.data`: on success one response per element in order, "pending" is exactly `None`, "rejected" and a missing status are errors |
| DalleLib.WaitOutcome | dalle/src/dalle.rs:157-176 | every run polls at least once and at most `number_of_polls + 1` times; each poll before the last was pending or failed; it sleeps once per pending poll; it ends with the first success, the first panic, or after exactly `number_of_polls + 1` polls with a timeout naming `number_of_polls` |
| DalleLib.WaitStopsAtFirstTerminal | dalle/src/dalle.rs:159-173 | if poll k is the first that neither fails nor stays pending, the loop returns its generations (or its panic) after exactly k + 1 polls |
| DalleLib.AllErrorsTimeOut | dalle/src/dalle.rs:169-176 | when every poll fails the loop makes all `number_of_polls + 1` polls, never sleeps, and times out |
| DalleLib.RejectionIsRetried | dalle/src/dalle.rs:126-172 | a rejected task is polled again, and a success on the next poll is returned after two polls and no sleep |
| DalleLib.SucceededReplyClassified | dalle/src/dalle.rs:120-147 | a succeeded reply whose `generations.data` lists images gives one response per image, in order, with that image's path |
| DalleLib.PendingTwiceThenSucceeded | dalle/src/dalle.rs:159-168 | two pending polls and then a success with four images give exactly those four images after three polls and two sleeps |
| DalleLib.WaitForGenerationCompletion | dalle/src/dalle.rs:150-177 | the loop's result, poll count and sleep count are those of `WaitRun`; every request is a GET of the task's own address |
| DalleLib.Generate | dalle/src/dalle.rs:78-108 | one POST of the request body comes first; without a task id the result is that error with no poll; otherwise the polls are GETs of that id's address and the result is the loop's |
| DalleLib.GetRemainingCredits | dalle/src/dalle.rs:37-56 | the balance is `breakdown.paid_dalle_15_115` exactly when that is an integer that fits in an i64; otherwise it is an error naming the response, or the transport error |
| DalleApp.GetTask | src/dalle.rs:73-92 | the application client's poll reads the top-level `generations`: on success one response per element in order, "pending" is exactly `None`, "rejected" and a missing status are errors |
| DalleApp.PollLoopOutcome | src/dalle.rs:57-70 | every run polls at least once and at most 11 times; every poll before the last was pending and was followed by one sleep; it ends with the first success, error or panic, or with a timeout naming `MAX_ATTEMPTS` after 11 pending polls and 11 sleeps |
| DalleApp.PollStopsAtFirstNonPending | src/dalle.rs:59-67 | if poll k is the first that is not pending, the loop ends with its result after k + 1 polls and k sleeps; an error is returned at once whatever budget is left |
| DalleApp.RejectionIsFatal | src/dalle.rs:61-86 | a rejection on the first poll ends the loop with that rejection after one poll and no sleep |
| DalleApp.Generate | src/dalle.rs:35-71 | one POST of the request body comes first; without a task id the result is that error with no poll; otherwise the polls are GETs of that id's address and the result, poll count and sleep count are those of `PollLoop` |
| DalleCommands.DownloadImage | discord_bot/src/dalle_commands.rs:76-88 | a file exists exactly when the fetch delivered bytes; its content is those bytes and its name is the id followed by ".webp"; a failed request or a failed body read gives its error |
| DalleCommands.SuccessesAreOrderedSubsequence | discord_bot/src/dalle_commands.rs:61-72 | the kept files are the successful downloads at increasing positions, and every successful download is kept |
| DalleCommands.SuccessesAndFailuresPartition | discord_bot/src/dalle_commands.rs:61-72 | kept files plus reported errors number exactly the downloads, so the result is never longer than the input |
| DalleCommands.FailuresAreOrderedSubsequence | discord_bot/src/dalle_commands.rs:66-70 | exactly one error is reported per failed download, in the order of the downloads |
| DalleCommands.OneFailure | discord_bot/src/dalle_commands.rs:61-73 | when exactly one download fails, all the others are kept and only its error is reported |
| DalleCommands.DownloadedFiles | discord_bot/src/dalle_commands.rs:79-87 | each kept file holds the bytes fetched for its own position and is named by that position's id followed by ".webp" |
| DalleCommands.DownloadImagesToFs | discord_bot/src/dalle_commands.rs:54-74 | always `Ok`, holding the successful downloads in order; the errors said are the failures in order; every image's address is fetched once, in order, with no retry |
| DalleCommands.Attachments | discord_bot/src/dalle_commands.rs:29-35 | one attachment per file, in order, carrying that file's bytes and file name |
| DalleCommands.DalleGenerate | discord_bot/src/dalle_commands.rs:12-47 | a failed `generate` ends the command before any download; otherwise the attachments are those of the successful downloads and the errors said are the failures |

## Left out

- HTTP transport is not modelled: building the client, its headers and the bearer token, sending, and decoding bodies. Every round trip is an oracle reply.
- `Dalle::new` is not modelled. It only builds the HTTP client, and its failures (an invalid token header, or the HTTP client failing to build) belong to the transport.
- serde_json parsing is not modelled: replies are already parsed. JSON numbers are integers only. A float balance is therefore not distinguished from a missing one.
- Sleeps are counted, not timed. There is no async scheduling, concurrency or cancellation.
- Error messages are the `Error` constructors and the values they print, not formatted strings. This includes the channel's "Error while downloading file" text.
- DalleLib.WaitForGenerationCompletion: the attempt counter is an unbounded integer. A `usize` overflow when `number_of_polls` is the largest `usize` is not modelled.
- Oracle requirement: the poll methods require as many replies as the largest number of polls they can make. The image download requires one id and one fetch reply per image.
- Discord plumbing is not modelled: `say`, `defer`, the message edits, `send`, their `?` errors, and the `unwrap` on saying a download error.
- The `get_credits` bot command is not part of this model.
- Logging is not modelled.
- The `DalleClient` trait has no behaviour. The feature-gated fake client does not compile. The mains and the build script are configuration and console I/O. None of these is modelled.
