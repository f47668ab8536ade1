/** The invoice uploader component, src/components/ImageUploader.tsx: the
    dropped files, the per-file results of an upload run, and the tallies
    shown under the results. Component state is a class whose fields the
    handlers reassign; each `fetch` of an upload run is an input reply. */
module ImageUploader {
  import opened Common

  /** A dropped file. The preview URL is an opaque browser handle and the
      file's bytes go straight to the upload request, so only the name is
      kept. */
  datatype FileEntry = FileEntry(name: string)

  /** `UploadResult`: a success carries the server's `data`, a failure its
      error text. */
  datatype UploadResult = Succeeded(data: string) | Failed(error: string)

  /** What one `fetch` + `response.json()` of the loop gives: the parsed
      `success`, `data` and `error` properties, or an exception. */
  datatype Reply = Answered(success: bool, data: string, error: Option<string>) | Threw

  const SelectFilesMessage := "Please select files to upload"
  const ProcessingFailed := "Processing failed"
  const BatchFailedMessage := "Failed to process files"

  /** The result recorded for an answered reply. */
  function ResultFor(r: Reply): (u: UploadResult)
    requires r.Answered?
    ensures r.success ==> u == Succeeded(r.data)
    ensures !r.success && StrTruthy(r.error) ==> u == Failed(r.error.value)
    ensures !r.success && !StrTruthy(r.error) ==> u == Failed(ProcessingFailed)
  {
    if r.success then Succeeded(r.data) else Failed(StrOr(r.error, ProcessingFailed))
  }

  /** The toast shown for one file. */
  function ToastFor(f: FileEntry, r: Reply): Toast
    requires r.Answered?
  {
    if r.success then ToastSuccess(f.name + " processed successfully!")
    else ToastError(f.name + " failed to process")
  }

  predicate AllAnswered(rs: seq<Reply>) {
    forall i :: 0 <= i < |rs| ==> rs[i].Answered?
  }

  /** The results of a run in which every reply arrived: one per reply, in
      order. */
  function ResultsFor(rs: seq<Reply>): (us: seq<UploadResult>)
    requires AllAnswered(rs)
    ensures |us| == |rs|
    ensures forall i :: 0 <= i < |rs| ==> us[i] == ResultFor(rs[i])
  {
    if rs == [] then [] else ResultsFor(rs[..|rs| - 1]) + [ResultFor(rs[|rs| - 1])]
  }

  function ToastsFor(fs: seq<FileEntry>, rs: seq<Reply>): (ts: seq<Toast>)
    requires |fs| == |rs| && AllAnswered(rs)
    ensures |ts| == |fs|
  {
    if rs == [] then [] else ToastsFor(fs[..|fs| - 1], rs[..|rs| - 1]) + [ToastFor(fs[|fs| - 1], rs[|rs| - 1])]
  }

  /** The `catch` branch's results: one failure per file. */
  function AllFailed(n: nat): (us: seq<UploadResult>)
    ensures |us| == n
    ensures forall i :: 0 <= i < n ==> us[i] == Failed(ProcessingFailed)
  {
    seq(n, _ => Failed(ProcessingFailed))
  }

  /** The position of the first reply that threw, or the number of replies
      when none did. */
  function ThrowIndex(rs: seq<Reply>): (k: nat)
    ensures k <= |rs|
    ensures AllAnswered(rs[..k])
    ensures k < |rs| ==> rs[k].Threw?
  {
    if rs == [] then 0
    else if rs[0].Threw? then 0
    else
      var k := ThrowIndex(rs[1..]);
      assert forall i :: 0 <= i < k ==> rs[..k + 1][i + 1] == rs[1..][..k][i];
      k + 1
  }

  /** The first reply that threw is at `i` when every earlier one arrived. */
  lemma ThrowIndexIsFirstThrow(rs: seq<Reply>, i: nat)
    requires i <= |rs| && AllAnswered(rs[..i])
    requires i < |rs| ==> rs[i].Threw?
    ensures ThrowIndex(rs) == i
  {
  }

  /** `removeFile`'s `filter((_, i) => i !== index)`: the sequence without
      position `index`, or unchanged when there is no such position. */
  function RemoveAt<T>(s: seq<T>, index: int): seq<T> {
    if 0 <= index < |s| then s[..index] + s[index + 1..] else s
  }

  /** Removing a position keeps every other element, in order. */
  lemma RemoveAtKeepsOthers<T>(s: seq<T>, index: int)
    ensures 0 <= index < |s| ==> |RemoveAt(s, index)| == |s| - 1
    ensures 0 <= index < |s| ==> forall k :: 0 <= k < index ==> RemoveAt(s, index)[k] == s[k]
    ensures 0 <= index < |s| ==> forall k :: index <= k < |s| - 1 ==> RemoveAt(s, index)[k] == s[k + 1]
    ensures !(0 <= index < |s|) ==> RemoveAt(s, index) == s
  {
  }

  /** The events that reach the component: a drop, a remove button, the
      upload button, the reply to the pending request of a run, and a
      clearing timeout. */
  datatype Event =
    | Drop(accepted: seq<FileEntry>)
    | Remove(index: int)
    | Click
    | Arrive(reply: Reply)
    | Timeout

  class Uploader {
    var files: seq<FileEntry>
    var uploading: bool
    var results: seq<UploadResult>
    /** Every toast shown so far, oldest first. */
    var notices: seq<Toast>
    /** The number of two-second clearing timeouts scheduled and not yet
        fired. */
    var pendingClears: nat
    /** The `files` captured by the running `uploadFiles` call, which its
        loop walks. */
    var run: seq<FileEntry>
    /** That call's local `uploadResults`. */
    var runResults: seq<UploadResult>

    /** The file list and the result list describe the same files: either
        one of them is empty or they have the same length. */
    ghost predicate Aligned()
      reads this
    {
      files == [] || results == [] || |results| == |files|
    }

    /** The invariant that keeps the lists aligned when the controls are
        disabled during a run: while a run is pending the results are empty,
        and the files are the captured list or were cleared by a timeout. */
    ghost predicate Valid()
      reads this
    {
      && Aligned()
      && (uploading ==> results == [] && |runResults| < |run| && (files == run || files == []))
    }

    constructor ()
      ensures files == [] && !uploading && results == [] && notices == [] && pendingClears == 0
      ensures run == [] && runResults == []
      ensures Valid()
    {
      files := [];
      uploading := false;
      results := [];
      notices := [];
      pendingClears := 0;
      run := [];
      runResults := [];
    }

    /** `onDrop`: the accepted files replace the list and the results are
        cleared. Which files the drop zone accepts (type and size) is decided
        by the drop-zone library. The drop zone stays live during a run. */
    method OnDrop(accepted: seq<FileEntry>)
      modifies this
      ensures files == accepted && results == []
      ensures uploading == old(uploading) && notices == old(notices) && pendingClears == old(pendingClears)
      ensures run == old(run) && runResults == old(runResults)
      ensures Aligned()
    {
      files := accepted;
      results := [];
    }

    /** `removeFile`: drops position `index` from both lists. The remove
        buttons stay live during a run. */
    method RemoveFile(index: int)
      modifies this
      ensures files == RemoveAt(old(files), index)
      ensures results == RemoveAt(old(results), index)
      ensures uploading == old(uploading) && notices == old(notices) && pendingClears == old(pendingClears)
      ensures run == old(run) && runResults == old(runResults)
      ensures old(Aligned()) ==> Aligned()
    {
      files := RemoveAt(files, index);
      results := RemoveAt(results, index);
    }

    /** `uploadFiles` up to its first `await`. The upload button is rendered
        only while no run is pending, so a run never starts inside another. */
    method BeginUpload()
      requires !uploading
      modifies this
      ensures files == old(files) && pendingClears == old(pendingClears)
      ensures old(files) == [] ==>
                && results == old(results) && !uploading
                && run == old(run) && runResults == old(runResults)
                && notices == old(notices) + [ToastError(SelectFilesMessage)]
      ensures old(files) != [] ==>
                && uploading && results == [] && run == old(files) && runResults == []
                && notices == old(notices)
      ensures old(Valid()) ==> Valid()
    {
      if files == [] {
        notices := notices + [ToastError(SelectFilesMessage)];
        return;
      }
      uploading := true;
      results := [];
      run := files;
      runResults := [];
    }

    /** The pending request of a run settles with `r`. An answer records the
        result and toast of the captured file it belongs to; after the last
        captured file the results are set from the run's list and the
        clearing timeout is scheduled. A throw runs the `catch` branch,
        which sets one failure per captured file. Either way the new
        results describe `run`, whatever `files` has become meanwhile. */
    method ReceiveReply(r: Reply)
      requires uploading && |runResults| < |run|
      modifies this
      ensures files == old(files) && run == old(run)
      ensures r.Answered? ==>
                && runResults == old(runResults) + [ResultFor(r)]
                && notices == old(notices) + [ToastFor(run[|old(runResults)|], r)]
      ensures r.Answered? && |runResults| < |run| ==>
                uploading && results == old(results) && pendingClears == old(pendingClears)
      ensures r.Answered? && |runResults| == |run| ==>
                !uploading && results == runResults && pendingClears == old(pendingClears) + 1
      ensures r.Threw? ==>
                && !uploading && runResults == old(runResults)
                && results == AllFailed(|run|)
                && notices == old(notices) + [ToastError(BatchFailedMessage)]
                && pendingClears == old(pendingClears)
      ensures old(Valid()) ==> Valid()
    {
      if r.Threw? {
        notices := notices + [ToastError(BatchFailedMessage)];
        results := AllFailed(|run|);
        uploading := false;
        return;
      }
      notices := notices + [ToastFor(run[|runResults|], r)];
      runResults := runResults + [ResultFor(r)];
      if |runResults| == |run| {
        results := runResults;
        pendingClears := pendingClears + 1;
        uploading := false;
      }
    }

    /** A whole `uploadFiles` call during which no other event arrives:
        `replies[i]` is what the request for `files[i]` gives. */
    method UploadFiles(replies: seq<Reply>)
      requires !uploading && |replies| == |files|
      modifies this
      ensures files == old(files)
      ensures old(files) == [] ==>
                && results == old(results) && !uploading
                && pendingClears == old(pendingClears)
                && notices == old(notices) + [ToastError(SelectFilesMessage)]
      ensures old(files) != [] ==> !uploading && |results| == |files|
      ensures old(files) != [] && ThrowIndex(replies) == |files| ==>
                && results == ResultsFor(replies)
                && notices == old(notices) + ToastsFor(files, replies)
                && pendingClears == old(pendingClears) + 1
      ensures old(files) != [] && ThrowIndex(replies) < |files| ==>
                var k := ThrowIndex(replies);
                && results == AllFailed(|files|)
                && notices == old(notices) + ToastsFor(files[..k], replies[..k]) + [ToastError(BatchFailedMessage)]
                && pendingClears == old(pendingClears)
      ensures old(files) != [] ==> Aligned()
      ensures old(Valid()) ==> Valid()
    {
      BeginUpload();
      if files == [] {
        return;
      }
      var i := 0;
      while i < |files| && replies[i].Answered?
        invariant 0 <= i <= |files|
        invariant files == old(files) && run == files
        invariant AllAnswered(replies[..i])
        invariant runResults == ResultsFor(replies[..i])
        invariant notices == old(notices) + ToastsFor(files[..i], replies[..i])
        invariant i < |files| ==> uploading && results == [] && pendingClears == old(pendingClears)
        invariant i == |files| ==> !uploading && results == runResults && pendingClears == old(pendingClears) + 1
        invariant old(Valid()) ==> Valid()
      {
        assert replies[..i + 1][..i] == replies[..i];
        assert files[..i + 1][..i] == files[..i];
        ReceiveReply(replies[i]);
        i := i + 1;
      }
      if i < |files| {
        ReceiveReply(replies[i]);
      } else {
        assert replies[..i] == replies && files[..i] == files;
      }
      ThrowIndexIsFirstThrow(replies, i);
    }

    /** A clearing timeout fires: the files are cleared, the results stay
        on screen. A later drop does not cancel it. */
    method TimerFires()
      requires pendingClears > 0
      modifies this
      ensures files == [] && pendingClears == old(pendingClears) - 1
      ensures results == old(results) && uploading == old(uploading) && notices == old(notices)
      ensures run == old(run) && runResults == old(runResults)
      ensures old(Valid()) ==> Valid()
    {
      files := [];
      pendingClears := pendingClears - 1;
    }

    /** `onDrop` with the drop zone disabled while a run is pending. */
    method GuardedOnDrop(accepted: seq<FileEntry>)
      modifies this
      ensures !old(uploading) ==> files == accepted && results == []
      ensures old(uploading) ==> files == old(files) && results == old(results)
      ensures uploading == old(uploading) && notices == old(notices) && pendingClears == old(pendingClears)
      ensures run == old(run) && runResults == old(runResults)
      ensures old(Valid()) ==> Valid()
    {
      if !uploading {
        OnDrop(accepted);
      }
    }

    /** `removeFile` with the remove buttons disabled while a run is
        pending. */
    method GuardedRemoveFile(index: int)
      modifies this
      ensures !old(uploading) ==> files == RemoveAt(old(files), index) && results == RemoveAt(old(results), index)
      ensures old(uploading) ==> files == old(files) && results == old(results)
      ensures uploading == old(uploading) && notices == old(notices) && pendingClears == old(pendingClears)
      ensures run == old(run) && runResults == old(runResults)
      ensures old(Valid()) ==> Valid()
    {
      if !uploading {
        RemoveFile(index);
      }
    }

    /** Any interleaving of events, with the drop zone and the remove
        buttons disabled while a run is pending, keeps the file and result
        lists aligned. An event that cannot arrive in the current state (a
        click while a run is pending, a reply with no pending run, a timeout
        none is scheduled for) is skipped. */
    method ReplayGuarded(events: seq<Event>)
      requires Valid()
      modifies this
      ensures Valid() && Aligned()
    {
      var i := 0;
      while i < |events|
        invariant 0 <= i <= |events|
        invariant Valid()
      {
        match events[i] {
          case Drop(accepted) => GuardedOnDrop(accepted);
          case Remove(index) => GuardedRemoveFile(index);
          case Click =>
            if !uploading {
              BeginUpload();
            }
          case Arrive(reply) =>
            if uploading {
              ReceiveReply(reply);
            }
          case Timeout =>
            if pendingClears > 0 {
              TimerFires();
            }
        }
        i := i + 1;
      }
    }
  }

  /** As written, removing a file while its run is pending leaves two
      results for one file: files `[a, b]`, b removed during a's request. */
  method RemoveDuringRunAsWritten() returns (u: Uploader)
    ensures |u.files| == 1 && |u.results| == 2 && !u.Aligned()
  {
    u := new Uploader();
    u.OnDrop([FileEntry("a.png"), FileEntry("b.png")]);
    u.BeginUpload();
    u.RemoveFile(1);
    u.ReceiveReply(Answered(true, "a", None));
    u.ReceiveReply(Answered(false, "", None));
  }

  /** As written, a drop while a run is pending puts the old run's outcome
      on the new file's row: c dropped during a's request shows a's
      success. */
  method DropDuringRunAsWritten() returns (u: Uploader)
    ensures u.files == [FileEntry("c.png")] && |u.results| == 2 && u.results[0] == Succeeded("a")
    ensures !u.Aligned()
  {
    u := new Uploader();
    u.OnDrop([FileEntry("a.png"), FileEntry("b.png")]);
    u.BeginUpload();
    u.OnDrop([FileEntry("c.png")]);
    u.ReceiveReply(Answered(true, "a", None));
    u.ReceiveReply(Answered(false, "", None));
  }

  predicate IsSuccess(u: UploadResult) { u.Succeeded? }
  predicate IsFailure(u: UploadResult) { u.Failed? }

  /** The summary card: the successful and the failed counts add up to the
      total shown. */
  lemma TallyAddsUp(results: seq<UploadResult>)
    ensures |Filter(results, IsSuccess)| + |Filter(results, IsFailure)| == |results|
  {
    FilterComplement(results, IsSuccess, IsFailure);
  }

  /** After a run in which every reply arrived, the successful count is the
      number of replies that reported success. */
  lemma {:induction false} SuccessCountIsSuccessReplies(rs: seq<Reply>)
    requires AllAnswered(rs)
    ensures |Filter(ResultsFor(rs), IsSuccess)| == |Filter(rs, (r: Reply) => r.Answered? && r.success)|
  {
    if rs != [] {
      var init := rs[..|rs| - 1];
      assert AllAnswered(init) by {
        assert forall i :: 0 <= i < |init| ==> init[i] == rs[i];
      }
      SuccessCountIsSuccessReplies(init);
      var us := ResultsFor(rs);
      assert us[..|us| - 1] == ResultsFor(init);
      assert us[|us| - 1] == ResultFor(rs[|rs| - 1]);
    }
  }

  /** After a run that threw, every result is a failure. */
  lemma ThrownRunHasNoSuccess(n: nat)
    ensures |Filter(AllFailed(n), IsSuccess)| == 0
    ensures |Filter(AllFailed(n), IsFailure)| == n
  {
    var us := AllFailed(n);
    FilterKeepsAll(us, IsFailure);
    TallyAddsUp(us);
  }
}
