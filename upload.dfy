/**
 * The wait after an upload. The loop's condition reads the state of the handle the upload
 * returned, which its body never reassigns: the handle each `GetAsync` returns is stored in
 * a variable nobody reads. So a handle that is not PROCESSING is never polled, and a
 * PROCESSING one is polled until a `GetAsync` throws, or forever.
 *
 * The service's replies to successive `GetAsync` calls are given as a finite sequence;
 * "forever" shows as a loop that has used up every reply and still wants another.
 */
module Upload {
  import opened Types
  import opened GenAI
  import opened ChatModels
  import opened Normalizer

  datatype PollStatus =
    | Proceeded                   // the loop condition was false on entry
    | FetchThrew(message: string) // a `GetAsync` threw; the exception leaves the loop
    | StillProcessing             // every reply was consumed and the loop has not exited

  /** The `GetAsync` requests of `n` polls, all for the uploaded file's name. */
  function GetCalls(name: Option<string>, n: nat): (r: seq<ServiceCall>)
    ensures |r| == n
    ensures forall k :: 0 <= k < n ==> r[k] == GetFile(name)
  {
    seq(n, _ => GetFile(name))
  }

  /**
   * The index of the first reply that is an exception, if any: the poll at which a
   * PROCESSING wait ends.
   */
  function FirstThrow(replies: seq<Outcome<FileHandle>>): (r: Option<nat>)
    ensures r.None? <==> forall j :: 0 <= j < |replies| ==> replies[j].Returned?
    ensures r.Some? ==>
      && r.value < |replies| && replies[r.value].Threw?
      && forall j :: 0 <= j < r.value ==> replies[j].Returned?
  {
    if |replies| == 0 then None
    else if replies[0].Threw? then Some(0)
    else
      var rest := FirstThrow(replies[1..]);
      assert forall j :: 1 <= j < |replies| ==> replies[j] == replies[1..][j - 1];
      if rest.None? then None else Some(rest.value + 1)
  }

  method AwaitProcessing(upload: FileHandle, replies: seq<Outcome<FileHandle>>)
    returns (status: PollStatus, polls: nat)
    ensures status == Proceeded <==> upload.state != Some(PROCESSING)
    ensures status == Proceeded ==> polls == 0
    ensures status.FetchThrew? ==>
      && 1 <= polls <= |replies|
      && replies[polls - 1] == Threw(status.message)
      && forall j :: 0 <= j < polls - 1 ==> replies[j].Returned?
    ensures status == StillProcessing ==>
      polls == |replies| && forall j :: 0 <= j < |replies| ==> replies[j].Returned?
    // on a PROCESSING upload the wait ends exactly at the first poll that throws
    ensures upload.state == Some(PROCESSING) ==>
      if FirstThrow(replies).Some? then
        status == FetchThrew(replies[FirstThrow(replies).value].message) && polls == FirstThrow(replies).value + 1
      else
        status == StillProcessing && polls == |replies|
  {
    var currentFileState := upload;
    polls := 0;
    while upload.state == Some(PROCESSING)
      invariant polls <= |replies|
      invariant polls > 0 ==> upload.state == Some(PROCESSING)
      invariant forall j :: 0 <= j < polls ==> replies[j].Returned?
      decreases |replies| - polls
    {
      if polls == |replies| {
        return StillProcessing, polls;
      }
      match replies[polls]
      case Threw(e) =>
        return FetchThrew(e), polls + 1;
      case Returned(h) =>
        currentFileState := h;
      polls := polls + 1;
    }
    status := Proceeded;
  }

  /**
   * Replies that report the file ACTIVE do not end the wait: a PROCESSING upload whose
   * every poll succeeds consumes all the replies it is given.
   */
  method ActiveRepliesDoNotEndWait(upload: FileHandle, replies: seq<Outcome<FileHandle>>)
    returns (status: PollStatus, polls: nat)
    requires upload.state == Some(PROCESSING)
    requires forall j :: 0 <= j < |replies| ==> replies[j].Returned? && replies[j].value.state == Some(ACTIVE)
    ensures status == StillProcessing && polls == |replies|
  {
    status, polls := AwaitProcessing(upload, replies);
  }

  /**
   * What a multimodal invoke with a non-empty path returns, given the service's replies and
   * the configuration it builds once the wait is over: the sentinel of the upload's
   * exception, of the first poll's exception, or of the configuration's, the normalised
   * reply, or nothing at all while the upload stays PROCESSING.
   */
  function MultimodalResult(upload: Outcome<FileHandle>, pollReplies: seq<Outcome<FileHandle>>,
                            cfg: Outcome<GenerateContentConfig>, reply: Outcome<GenerateContentResponse>)
    : (c: Completion<ChatResponse>)
    ensures c == NeverReturns <==>
      upload.Returned? && upload.value.state == Some(PROCESSING) && FirstThrow(pollReplies).None?
    ensures c.Returns? && upload.Returned? && upload.value.state != Some(PROCESSING) && cfg.Returned? ==>
      c.value == Complete(reply)
  {
    if upload.Threw? then Returns(Sentinel(upload.message))
    else if upload.value.state == Some(PROCESSING) then
      match FirstThrow(pollReplies)
      case None => NeverReturns
      case Some(k) => Returns(Sentinel(pollReplies[k].message))
    else if cfg.Threw? then Returns(Sentinel(cfg.message))
    else Returns(Complete(reply))
  }
}
