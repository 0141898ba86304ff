/** Concrete runs of the reconciler on one-record stores. */
module Scenarios {

  import opened Transfers
  import opened Tasks
  import opened Zombie
  import opened Cancel

  function Record(ocId: string, account: string, session: Session, status: Status, taskId: int): Metadata {
    Metadata(ocId, "", account, "https://cloud.example/files", session, status, taskId, "timeout", "")
  }

  /** A background upload of a signed-in account whose task is gone, with its
      payload on disk, is rescheduled; without the payload it is deleted. */
  lemma BackgroundUploadZombie()
    ensures var m := Record("A1", "alice", InLane(UploadBackground), Uploading, 7);
            var env := Env({"alice"}, {});
            && Sweep(env, State(map["A1" := m], {"A1"})).store
               == map["A1" := m.(sessionError := "", status := WaitUpload)]
            && Sweep(env, State(map["A1" := m], {})).store == map[]
  {
    var m := Record("A1", "alice", InLane(UploadBackground), Uploading, 7);
    var env := Env({"alice"}, {});
    assert IsZombie(env, m);
    SweepUploadZombie(env, State(map["A1" := m], {"A1"}), "A1");
    SweepFrame(env, State(map["A1" := m], {"A1"}));
    SweepUploadZombie(env, State(map["A1" := m], {}), "A1");
    SweepFrame(env, State(map["A1" := m], {}));
  }

  /** The same record with its task still running is left alone. */
  lemma BackgroundUploadAlive()
    ensures var m := Record("A1", "alice", InLane(UploadBackground), Uploading, 7);
            var env := Env({"alice"}, {LiveTask("alice", SessionUploadBackground, UploadTask, 7)});
            Sweep(env, State(map["A1" := m], {"A1"})) == State(map["A1" := m], {"A1"})
  {
    var m := Record("A1", "alice", InLane(UploadBackground), Uploading, 7);
    var t := LiveTask("alice", SessionUploadBackground, UploadTask, 7);
    var env := Env({"alice"}, {t});
    var s := State(map["A1" := m], {"A1"});
    assert Witnesses(UploadingBackground, SessionUploadBackground, m, t);
    assert Alive(env, m);
    SweepKeepsOthers(env, s, "A1");
    SweepFrame(env, s);
  }

  /** A record whose account has signed out is deleted with its payload. */
  lemma SignedOutAccount()
    ensures var m := Record("C3", "carol", InLane(Download), Downloading, 2);
            Sweep(Env({"alice"}, {}), State(map["C3" := m], {"C3"})) == State(map[], {})
  {
    var m := Record("C3", "carol", InLane(Download), Downloading, 2);
    var env := Env({"alice"}, {});
    var s := State(map["C3" := m], {"C3"});
    SweepOrphan(env, s, "C3");
    SweepFrame(env, s);
  }

  /** Cancelling a foreground download cancels its task, keeps the record with
      its session cleared, and posts one download-cancel notification. */
  lemma CancelForegroundDownload(clear: Metadata -> Metadata)
    requires ClearsSession(clear)
    ensures var m := Record("B2", "bob", InLane(Download), Downloading, 3);
            var t := LiveTask("bob", SessionData, DownloadTask, 3);
            var r := CancelTask(Env({"bob"}, {t}), clear, State(map["B2" := m], {"B2"}), m);
            && r.cancelled == {t}
            && "B2" in r.state.store && r.state.store["B2"].session == NoSession
            && r.state.payloads == {}
            && r.events == [DownloadCancelFile("B2", "", InLane(Download), "https://cloud.example/files", "bob")]
  {
    var m := Record("B2", "bob", InLane(Download), Downloading, 3);
    var t := LiveTask("bob", SessionData, DownloadTask, 3);
    var env := Env({"bob"}, {t});
    var s := State(map["B2" := m], {"B2"});
    CancelTaskDownloadLane(env, clear, s, m);
    var r := CancelTask(env, clear, s, m);
    forall u | u in r.cancelled
      ensures u == t
    {
      CancelTaskPicks(env, clear, s, m, u);
    }
    CancelTaskPicks(env, clear, s, m, t);
  }

}
