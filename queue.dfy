/**
 * The server's offline retry queue: samples whose cloud post failed are appended to
 * `unsynced_data.json`, and a periodic sync pass re-posts them, keeping only those that fail again.
 */
module OfflineQueue {
  import opened Common

  /** The record the server posts to the cloud mirror for each accepted sample. */
  datatype CloudPayload = CloudPayload(
    mucNuocA: real, mucNuocB: real, luuLuong: real, isRaining: bool,
    trangThai: string, thongBao: string,
    timeUntilADanger: real,
    predictedTrangThai: string)

  /** One queued sample with the clock reading taken when it was queued. */
  datatype Entry = Entry(payload: CloudPayload, ts: int)

  /** The entries of `pending` whose re-post failed (`posted[i]` is false), in queue order. */
  function Failed(pending: seq<Entry>, posted: seq<bool>): (r: seq<Entry>)
    requires |posted| == |pending|
    ensures |r| <= |pending|
    decreases |pending|
  {
    if pending == [] then []
    else
      var n := |pending| - 1;
      Failed(pending[..n], posted[..n]) + (if posted[n] then [] else [pending[n]])
  }

  /** The positions whose post failed, in increasing order: an independent description of `Failed`. */
  function Rejected(posted: seq<bool>): (idx: seq<nat>)
    ensures forall k :: 0 <= k < |idx| ==> idx[k] < |posted| && !posted[idx[k]]
    ensures forall k, l :: 0 <= k < l < |idx| ==> idx[k] < idx[l]
    ensures forall i :: 0 <= i < |posted| && !posted[i] ==> i in idx
    decreases |posted|
  {
    if posted == [] then []
    else
      var n := |posted| - 1;
      var before := Rejected(posted[..n]);
      if posted[n] then before else before + [n]
  }

  /** After a sync pass the queue holds exactly the entries whose post failed, in their original order. */
  lemma {:induction false} FailedAreTheRejected(pending: seq<Entry>, posted: seq<bool>)
    requires |posted| == |pending|
    ensures |Failed(pending, posted)| == |Rejected(posted)|
    ensures forall k :: 0 <= k < |Rejected(posted)| ==>
      Failed(pending, posted)[k] == pending[Rejected(posted)[k]]
    decreases |pending|
  {
    if pending != [] {
      var n := |pending| - 1;
      FailedAreTheRejected(pending[..n], posted[..n]);
    }
  }

  /** The queue empties exactly when every re-post succeeded. */
  lemma {:induction false} NoneFailedIffAllPosted(pending: seq<Entry>, posted: seq<bool>)
    requires |posted| == |pending|
    ensures Failed(pending, posted) == [] <==> forall i :: 0 <= i < |posted| ==> posted[i]
    decreases |pending|
  {
    if pending != [] {
      var n := |pending| - 1;
      NoneFailedIffAllPosted(pending[..n], posted[..n]);
      if Failed(pending, posted) == [] {
        forall i | 0 <= i < |posted| ensures posted[i] {
          if i < n { assert posted[..n][i] == posted[i]; }
        }
      }
    }
  }

  /** `unsynced_data.json`: `None` while the file does not exist. */
  class UnsyncedFile {
    var file: Option<seq<Entry>>

    constructor()
      ensures file == None
    {
      file := None;
    }

    /** `saveUnsyncedData`: the payload is appended at the end, the file created if missing. */
    method SaveUnsyncedData(payload: CloudPayload, now: int)
      modifies this
      ensures file == Some(old(file).GetOr([]) + [Entry(payload, now)])
    {
      var existing := [];
      if file.Some? {
        existing := file.value;
      }
      existing := existing + [Entry(payload, now)];
      file := Some(existing);
    }

    /**
     * `syncPendingData`: with a sync target and a non-empty file, every entry is re-posted
     * (`posted[i]` says whether entry i went through); the file is deleted when none failed and
     * otherwise rewritten with the failed entries. Without a target, a file or entries, nothing changes.
     */
    method SyncPendingData(configured: bool, posted: seq<bool>)
      requires file.Some? ==> |posted| == |file.value|
      modifies this
      ensures !configured || old(file).None? || old(file) == Some([]) ==> file == old(file)
      ensures configured && old(file).Some? && old(file).value != [] ==>
        file == (if Failed(old(file).value, posted) == [] then None
                 else Some(Failed(old(file).value, posted)))
    {
      if !configured || file.None? {
        return;
      }
      var pending := file.value;
      if |pending| == 0 {
        return;
      }
      var failed: seq<Entry> := [];
      var i := 0;
      while i < |pending|
        invariant 0 <= i <= |pending|
        invariant failed == Failed(pending[..i], posted[..i])
      {
        if !posted[i] {
          failed := failed + [pending[i]];
        }
        assert pending[..i + 1][..i] == pending[..i];
        assert posted[..i + 1][..i] == posted[..i];
        i := i + 1;
      }
      assert pending[..i] == pending && posted[..i] == posted;
      if |failed| == 0 {
        file := None;
      } else {
        file := Some(failed);
      }
    }
  }
}
