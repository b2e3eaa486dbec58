/**
 * The chat-bot command `dalle_generate`: generate images for a prompt,
 * download each of them best-effort, and attach the downloaded files to the
 * reply. A failed download is reported in the channel and left out; the
 * others are still downloaded and kept in their order.
 */
module DalleCommands {
  import opened Tasks

  /** `content` is the bytes of the image, `filename` the name it is uploaded under. */
  datatype DalleImageFile = DalleImageFile(content: seq<bv8>, filename: string)

  /** What fetching one image gives: its bytes, or a failure of the request or of reading its body. */
  datatype FetchReply = Fetched(bytes: seq<bv8>) | RequestFailed(reason: string) | BodyFailed(reason: string)

  /** One attachment of the reply message: bytes and a file name. */
  datatype Attachment = Attachment(data: seq<bv8>, filename: string)

  const IMAGE_EXTENSION := ".webp"

  /**
   * `download_image`: the file is named by a fresh id, `uuid`, and ".webp";
   * its content is what the fetch of the image's address gave.
   */
  function DownloadImage(img: DalleResponse, uuid: string, reply: FetchReply): (r: Outcome<DalleImageFile>)
    ensures r.Ok? <==> reply.Fetched?
    ensures r.Ok? ==> r.value.content == reply.bytes && r.value.filename == uuid + IMAGE_EXTENSION
    ensures reply.RequestFailed? ==> r == Err(DownloadFailed(reply.reason))
    ensures reply.BodyFailed? ==> r == Err(Transport(reply.reason))
  {
    var filename := uuid + IMAGE_EXTENSION;
    match reply
    case RequestFailed(reason) => Err(DownloadFailed(reason))
    case BodyFailed(reason) => Err(Transport(reason))
    case Fetched(content) => Ok(DalleImageFile(content, filename))
  }

  /** The download of every image, in order: image `i` is named by `uuids[i]` and fetched as `replies[i]`. */
  function Downloads(imgs: seq<DalleResponse>, uuids: seq<string>, replies: seq<FetchReply>): (ds: seq<Outcome<DalleImageFile>>)
    requires |uuids| == |imgs| == |replies|
    ensures |ds| == |imgs|
    ensures forall i :: 0 <= i < |imgs| ==> ds[i] == DownloadImage(imgs[i], uuids[i], replies[i])
  {
    seq(|imgs|, i requires 0 <= i < |imgs| => DownloadImage(imgs[i], uuids[i], replies[i]))
  }

  /** The files of the downloads that succeeded, in order. */
  function Successes(ds: seq<Outcome<DalleImageFile>>): seq<DalleImageFile>
  {
    if ds == [] then []
    else Successes(ds[..|ds| - 1]) + (if ds[|ds| - 1].Ok? then [ds[|ds| - 1].value] else [])
  }

  /** The errors of the downloads that failed, in order. */
  function Failures(ds: seq<Outcome<DalleImageFile>>): seq<Error>
  {
    if ds == [] then []
    else Failures(ds[..|ds| - 1]) + (if ds[|ds| - 1].Err? then [ds[|ds| - 1].error] else [])
  }

  /** The positions of the downloads that succeeded, in increasing order. */
  function SuccessIndices(ds: seq<Outcome<DalleImageFile>>): seq<nat>
  {
    if ds == [] then []
    else SuccessIndices(ds[..|ds| - 1]) + (if ds[|ds| - 1].Ok? then [|ds| - 1] else [])
  }

  /**
   * The kept files are exactly the successful downloads, as a subsequence of
   * the downloads in their order: the `j`-th kept file is the download at
   * the `j`-th successful position, the positions increase, and every
   * successful position is among them.
   */
  lemma {:induction false} SuccessesAreOrderedSubsequence(ds: seq<Outcome<DalleImageFile>>)
    ensures var idx := SuccessIndices(ds);
      |idx| == |Successes(ds)|
      && (forall j :: 0 <= j < |idx| ==> idx[j] < |ds| && ds[idx[j]] == Ok(Successes(ds)[j]))
      && (forall j, l :: 0 <= j < l < |idx| ==> idx[j] < idx[l])
      && (forall i :: 0 <= i < |ds| && ds[i].Ok? ==> i in idx)
  {
    if ds != [] {
      var init := ds[..|ds| - 1];
      SuccessesAreOrderedSubsequence(init);
      assert forall i :: 0 <= i < |init| ==> ds[i] == init[i];
    }
  }

  /** Every download that does not panic either is kept or is reported: none is lost, none is counted twice. */
  lemma {:induction false} SuccessesAndFailuresPartition(ds: seq<Outcome<DalleImageFile>>)
    requires forall i :: 0 <= i < |ds| ==> !ds[i].Panic?
    ensures |Successes(ds)| + |Failures(ds)| == |ds|
  {
    if ds != [] {
      SuccessesAndFailuresPartition(ds[..|ds| - 1]);
    }
  }

  /** The positions of the downloads that failed, in increasing order. */
  function FailureIndices(ds: seq<Outcome<DalleImageFile>>): seq<nat>
  {
    if ds == [] then []
    else FailureIndices(ds[..|ds| - 1]) + (if ds[|ds| - 1].Err? then [|ds| - 1] else [])
  }

  /**
   * The errors reported are exactly those of the failed downloads, one per
   * failure, in the order of the downloads.
   */
  lemma {:induction false} FailuresAreOrderedSubsequence(ds: seq<Outcome<DalleImageFile>>)
    ensures var idx := FailureIndices(ds);
      |idx| == |Failures(ds)|
      && (forall j :: 0 <= j < |idx| ==> idx[j] < |ds| && ds[idx[j]] == Err(Failures(ds)[j]))
      && (forall j, l :: 0 <= j < l < |idx| ==> idx[j] < idx[l])
      && (forall i :: 0 <= i < |ds| && ds[i].Err? ==> i in idx)
  {
    if ds != [] {
      var init := ds[..|ds| - 1];
      FailuresAreOrderedSubsequence(init);
      assert forall i :: 0 <= i < |init| ==> ds[i] == init[i];
    }
  }

  /**
   * When exactly the download at `f` fails, all the others are kept and one
   * error, that of `f`, is reported.
   */
  lemma {:induction false} OneFailure(ds: seq<Outcome<DalleImageFile>>, f: nat)
    requires f < |ds| && ds[f].Err?
    requires forall i :: 0 <= i < |ds| && i != f ==> ds[i].Ok?
    ensures |Successes(ds)| == |ds| - 1
    ensures Failures(ds) == [ds[f].error]
  {
    var init := ds[..|ds| - 1];
    if f == |ds| - 1 {
      AllSucceeded(init);
    } else {
      OneFailure(init, f);
    }
  }

  lemma {:induction false} AllSucceeded(ds: seq<Outcome<DalleImageFile>>)
    requires forall i :: 0 <= i < |ds| ==> ds[i].Ok?
    ensures |Successes(ds)| == |ds| && Failures(ds) == []
  {
    if ds != [] {
      AllSucceeded(ds[..|ds| - 1]);
    }
  }

  /**
   * Every kept file is named by the id of its own position and ".webp", and
   * holds the bytes fetched for that position.
   */
  lemma DownloadedFiles(imgs: seq<DalleResponse>, uuids: seq<string>, replies: seq<FetchReply>)
    requires |uuids| == |imgs| == |replies|
    ensures var ds := Downloads(imgs, uuids, replies);
      var files := Successes(ds);
      var idx := SuccessIndices(ds);
      |idx| == |files|
      && forall j :: 0 <= j < |files| ==>
           idx[j] < |imgs| && replies[idx[j]].Fetched?
           && files[j] == DalleImageFile(replies[idx[j]].bytes, uuids[idx[j]] + IMAGE_EXTENSION)
  {
    SuccessesAreOrderedSubsequence(Downloads(imgs, uuids, replies));
  }

  /**
   * `download_images_to_fs`: download the images one after the other, keep
   * each file that arrived and say each error in the channel. It always
   * succeeds. The addresses fetched are those of the images, each once and
   * in order.
   */
  method DownloadImagesToFs(imgs: seq<DalleResponse>, uuids: seq<string>, replies: seq<FetchReply>)
    returns (r: Outcome<seq<DalleImageFile>>, said: seq<Error>, ghost fetched: seq<string>)
    requires |uuids| == |imgs| == |replies|
    ensures r == Ok(Successes(Downloads(imgs, uuids, replies)))
    ensures said == Failures(Downloads(imgs, uuids, replies))
    ensures |fetched| == |imgs| && forall i :: 0 <= i < |imgs| ==> fetched[i] == imgs[i].imageUrl
  {
    ghost var ds := Downloads(imgs, uuids, replies);
    var results: seq<DalleImageFile> := [];
    said, fetched := [], [];
    for i := 0 to |imgs|
      invariant results == Successes(ds[..i])
      invariant said == Failures(ds[..i])
      invariant fetched == seq(i, k requires 0 <= k < i => imgs[k].imageUrl)
    {
      assert ds[..i + 1][..i] == ds[..i];
      fetched := fetched + [imgs[i].imageUrl];
      match DownloadImage(imgs[i], uuids[i], replies[i]) {
        case Ok(file) =>
          results := results + [file];
        case Err(e) =>
          said := said + [e];
      }
    }
    assert ds[..|imgs|] == ds;
    r := Ok(results);
  }

  /** The attachments of the reply: one per file, in order, with the file's bytes and name. */
  function Attachments(files: seq<DalleImageFile>): (atts: seq<Attachment>)
    ensures |atts| == |files|
    ensures forall i :: 0 <= i < |files| ==>
      atts[i].data == files[i].content && atts[i].filename == files[i].filename
  {
    if files == [] then []
    else [Attachment(files[0].content, files[0].filename)] + Attachments(files[1..])
  }

  /**
   * `dalle_generate`, without its messages: the images `generate` produced
   * (or its failure) are downloaded and turned into attachments. A failed
   * `generate` ends the command before any download.
   */
  method DalleGenerate(generated: Outcome<seq<DalleResponse>>, uuids: seq<string>, replies: seq<FetchReply>)
    returns (r: Outcome<seq<Attachment>>, said: seq<Error>, ghost fetched: seq<string>)
    requires generated.Ok? ==> |uuids| == |generated.value| == |replies|
    ensures generated.Err? ==> r == Err(generated.error) && said == []
    ensures generated.Panic? ==> r.Panic? && said == []
    ensures generated.Ok? ==>
      var ds := Downloads(generated.value, uuids, replies);
      r == Ok(Attachments(Successes(ds))) && said == Failures(ds)
    ensures !generated.Ok? ==> fetched == []
    ensures generated.Ok? ==> |fetched| == |generated.value|
  {
    said, fetched := [], [];
    match generated {
      case Err(e) =>
        r := Err(e);
      case Panic =>
        r := Panic;
      case Ok(imgs) =>
        var downloaded;
        downloaded, said, fetched := DownloadImagesToFs(imgs, uuids, replies);
        r := Ok(Attachments(downloaded.value));
    }
  }
}
