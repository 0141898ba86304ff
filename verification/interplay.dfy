/** How cancellation and the zombie sweep fit together. */
module Interplay {

  import opened Transfers
  import opened Tasks
  import opened Zombie
  import opened Cancel

  /** The task kind a lane's cancel call enumerates. */
  function CancelKind(p: Pass): (kind: TaskKind)
    ensures kind != DataTask
  {
    if p.IsUpload() then UploadTask else DownloadTask
  }

  /** For a record the sweep picks up, the tasks its cancel picks within the
      record's own account are exactly the sweep's witnesses of the lane's task
      kind.  The background passes also count tasks of the other kinds as
      witnesses; those the cancel leaves running. */
  lemma CancelTaskAgreesWithSweep(env: Env, clear: Metadata -> Metadata, s: State, m: Metadata, t: LiveTask)
    requires PassOf(m).Some? && m.account in env.accounts
    ensures (t in CancelTask(env, clear, s, m).cancelled && t.account == m.account)
            <==> (&& t in env.live
                  && Witnesses(PassOf(m).value, TaskSessionFor(PassOf(m).value, m).value, m, t)
                  && t.kind == CancelKind(PassOf(m).value))
  {
    CancelTaskPicks(env, clear, s, m, t);
  }

  /** After a single cancel of a record on a lane, the sweep no longer picks
      that record up: it is deleted or its session is cleared.  Off the
      foreground lanes this needs at least one account session. */
  lemma CancelTaskLeavesNoZombie(env: Env, clear: Metadata -> Metadata, s: State, m: Metadata)
    requires ClearsSession(clear)
    requires m.session.InLane?
    requires m.session == InLane(Download) || m.session == InLane(Upload) || env.accounts != {}
    ensures var r := CancelTask(env, clear, s, m).state.store;
            m.ocId !in r || PassOf(r[m.ocId]).None?
  {
    if m.session.lane.IsDownload() {
      CancelTaskDownloadLane(env, clear, s, m);
    } else {
      CancelTaskUploadSession(env, clear, s, m);
    }
  }

  /** Every record a sweep pass picks up is pending for its lane's bulk cancel. */
  lemma SweptIsPending(m: Metadata)
    requires PassOf(m).Some?
    ensures InBulkDownload(Download, m) || InBulkDownload(DownloadBackground, m)
            || InBulkUpload({Upload}, m) || InBulkUpload(BackgroundUploadLanes, m)
  {
  }

  /** After `cancelAllDownloadUploadTask` with at least one account session, a
      zombie sweep finds nothing to do. */
  lemma SweepAfterCancelAll(env: Env, clear: Metadata -> Metadata, store: Store, payloads: set<string>)
    requires ClearsSession(clear)
    requires env.accounts != {}
    ensures var c := State(CancelAllDownloadUploadTask(env, clear, store).store, payloads);
            Sweep(env, c) == c
  {
    var c := State(CancelAllDownloadUploadTask(env, clear, store).store, payloads);
    CancelAllLeavesNothingPending(env, clear, store);
    forall k | k in c.store
      ensures PassOf(c.store[k]).None?
    {
      if PassOf(c.store[k]).Some? {
        SweptIsPending(c.store[k]);
      }
    }
    SweepQuiet(env, c);
  }

}
