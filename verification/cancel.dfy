/** Cancellation: `cancelTask`, the four per-lane cancel calls (single-record
    and bulk `metadata == nil` forms) and the `cancelAll*` compositions.  Each
    call yields the store it leaves and the set of live tasks it asks to cancel. */
module Cancel {

  import opened Wrappers
  import opened Transfers
  import opened Tasks

  /** What `clearMetadataSession` is taken to do to a row: it keeps the row's
      primary key, empties its session, and clearing twice is clearing once.
      Its definition is not part of this model. */
  ghost predicate ClearsSession(clear: Metadata -> Metadata) {
    forall m :: clear(m).ocId == m.ocId && clear(m).session == NoSession && clear(clear(m)) == clear(m)
  }

  datatype Cancellation = Cancellation(store: Store, cancelled: set<LiveTask>)

  /** The bulk download filter: a record of `lane` waiting, running or failed. */
  predicate InBulkDownload(lane: Lane, m: Metadata) {
    m.session == InLane(lane) && m.status.IsDownloadPending()
  }

  /** The bulk upload filter: a record on one of `lanes` waiting, running or failed. */
  predicate InBulkUpload(lanes: set<Lane>, m: Metadata) {
    m.session.InLane? && m.session.lane in lanes && m.status.IsUploadPending()
  }

  const BackgroundUploadLanes: set<Lane> := {UploadBackground, UploadBackgroundWWan, UploadBackgroundExt}

  /** `clearMetadataSession(metadata:)`: the stored row with that primary key is cleared. */
  function ClearOne(clear: Metadata -> Metadata, store: Store, ocId: string): Store {
    if ocId in store then store[ocId := clear(store[ocId])] else store
  }

  /** `clearMetadataSession(metadatas:)` over the bulk download filter of `lane`. */
  function ClearLane(clear: Metadata -> Metadata, store: Store, lane: Lane): Store {
    map k | k in store :: if InBulkDownload(lane, store[k]) then clear(store[k]) else store[k]
  }

  /** `deleteMetadata(results:)` over the bulk upload filter of `lanes`. */
  function DeleteBulk(store: Store, lanes: set<Lane>): Store {
    map k | k in store && !InBulkUpload(lanes, store[k]) :: store[k]
  }

  /** A store update run once per account session: the background cancels
      perform their record update inside the task they start for each
      NextcloudKit session. */
  function Repeat(n: nat, f: Store -> Store, store: Store): Store
    decreases n
  {
    if n == 0 then store else Repeat(n - 1, f, f(store))
  }

  /** Download tasks of `us` the cancel calls pick: every one with no record,
      else those whose identifier is the record's (of any account). */
  function DownloadTasksPicked(env: Env, us: UrlSession, target: Option<Metadata>): set<LiveTask> {
    set t | t in env.live && t.account in env.accounts && t.urlSession == us && t.kind == DownloadTask
              && (target.None? || t.taskIdentifier == target.value.sessionTaskIdentifier)
  }

  /** `cancelDownloadTasks`: foreground download tasks; the record is cleared,
      or with no record every pending foreground download is. */
  function CancelDownloadTasks(env: Env, clear: Metadata -> Metadata, store: Store, target: Option<Metadata>): (r: Cancellation)
    ensures r.store.Keys == store.Keys
    ensures target.Some? ==> forall k :: k in store && k != target.value.ocId ==> r.store[k] == store[k]
    ensures target.None? ==> forall k :: k in store && !InBulkDownload(Download, store[k]) ==> r.store[k] == store[k]
    ensures forall t :: t in r.cancelled ==>
              t in env.live && t.account in env.accounts && t.urlSession == SessionData && t.kind == DownloadTask
    ensures target.Some? ==> forall t :: t in r.cancelled ==> t.taskIdentifier == target.value.sessionTaskIdentifier
  {
    Cancellation(
      if target.Some? then ClearOne(clear, store, target.value.ocId) else ClearLane(clear, store, Download),
      DownloadTasksPicked(env, SessionData, target))
  }

  /** `cancelDownloadBackgroundTask`: the same on the background download session,
      with the record update run once per account session. */
  function CancelDownloadBackgroundTask(env: Env, clear: Metadata -> Metadata, store: Store, target: Option<Metadata>): (r: Cancellation)
    ensures env.accounts == {} ==> r.store == store && r.cancelled == {}
    ensures forall t :: t in r.cancelled ==>
              t in env.live && t.account in env.accounts && t.urlSession == SessionDownloadBackground
              && t.kind == DownloadTask
    ensures target.Some? ==> forall t :: t in r.cancelled ==> t.taskIdentifier == target.value.sessionTaskIdentifier
  {
    Cancellation(
      Repeat(|env.accounts|,
             x => if target.Some? then ClearOne(clear, x, target.value.ocId) else ClearLane(clear, x, DownloadBackground),
             store),
      DownloadTasksPicked(env, SessionDownloadBackground, target))
  }

  /** `cancelUploadTasks`: foreground upload tasks of the record's account with
      its identifier (every one with no record); the record is deleted, or
      with no record every pending foreground upload is. */
  function CancelUploadTasks(env: Env, store: Store, target: Option<Metadata>): (r: Cancellation)
    ensures r.store.Keys <= store.Keys
    ensures forall k :: k in r.store ==> r.store[k] == store[k]
    ensures target.Some? ==> r.store.Keys == store.Keys - {target.value.ocId}
    ensures target.None? ==> forall k :: k in store && !InBulkUpload({Upload}, store[k]) ==> k in r.store
    ensures forall t :: t in r.cancelled ==>
              t in env.live && t.account in env.accounts && t.urlSession == SessionData && t.kind == UploadTask
    ensures target.Some? ==> forall t :: t in r.cancelled ==>
              t.account == target.value.account && t.taskIdentifier == target.value.sessionTaskIdentifier
  {
    Cancellation(
      if target.Some? then Delete(store, target.value.ocId) else DeleteBulk(store, {Upload}),
      set t | t in env.live && t.account in env.accounts && t.urlSession == SessionData && t.kind == UploadTask
                && (target.None? || (target.value.account == t.account
                                    && target.value.sessionTaskIdentifier == t.taskIdentifier)))
  }

  /** Whether `us` is one of the three background upload sessions. */
  predicate IsBackgroundUploadSession(us: UrlSession) {
    us.SessionUploadBackground? || us.SessionUploadBackgroundWWan? || us.SessionUploadBackgroundExt?
  }

  /** `cancelUploadBackgroundTask`: upload tasks of the three background upload
      sessions, matched also on the record's lane; the record is deleted, or
      with no record every pending background upload is, once per account session. */
  function CancelUploadBackgroundTask(env: Env, store: Store, target: Option<Metadata>): (r: Cancellation)
    ensures env.accounts == {} ==> r.store == store && r.cancelled == {}
    ensures forall t :: t in r.cancelled ==>
              t in env.live && t.account in env.accounts && IsBackgroundUploadSession(t.urlSession)
              && t.kind == UploadTask
    ensures target.Some? ==> forall t :: t in r.cancelled ==>
              && t.account == target.value.account
              && t.taskIdentifier == target.value.sessionTaskIdentifier
              && target.value.session.InLane? && target.value.session.lane.IsBackgroundUpload()
              && BackgroundUploadSession(target.value.session.lane) == t.urlSession
  {
    Cancellation(
      Repeat(|env.accounts|,
             x => if target.Some? then Delete(x, target.value.ocId) else DeleteBulk(x, BackgroundUploadLanes),
             store),
      set t | t in env.live && t.account in env.accounts && IsBackgroundUploadSession(t.urlSession)
                && t.kind == UploadTask
                && (target.None? || (target.value.account == t.account
                                    && target.value.session == InLane(LaneOfUploadSession(t.urlSession))
                                    && target.value.sessionTaskIdentifier == t.taskIdentifier)))
  }

  /** Runs `second` on the store `first` leaves, and collects both task sets. */
  function Then(first: Cancellation, second: Store -> Cancellation): Cancellation {
    var b := second(first.store);
    Cancellation(b.store, first.cancelled + b.cancelled)
  }

  /** `cancelAllDownloadTask`. */
  function CancelAllDownloadTask(env: Env, clear: Metadata -> Metadata, store: Store): (r: Cancellation)
    ensures forall t :: t in r.cancelled <==>
              && t in env.live && t.account in env.accounts && t.kind == DownloadTask
              && (t.urlSession == SessionData || t.urlSession == SessionDownloadBackground)
    ensures env.accounts == {} ==> r.store == ClearLane(clear, store, Download)
  {
    Then(CancelDownloadTasks(env, clear, store, None),
         x => CancelDownloadBackgroundTask(env, clear, x, None))
  }

  /** `cancelAllUploadTask`. */
  function CancelAllUploadTask(env: Env, store: Store): (r: Cancellation)
    ensures forall t :: t in r.cancelled <==>
              && t in env.live && t.account in env.accounts && t.kind == UploadTask
              && (t.urlSession == SessionData || IsBackgroundUploadSession(t.urlSession))
    ensures r.store.Keys <= store.Keys
    ensures env.accounts == {} ==> r.store == DeleteBulk(store, {Upload})
  {
    UploadBackgroundStore(env, CancelUploadTasks(env, store, None).store, None);
    Then(CancelUploadTasks(env, store, None), x => CancelUploadBackgroundTask(env, x, None))
  }

  /** `cancelAllDownloadUploadTask`. */
  function CancelAllDownloadUploadTask(env: Env, clear: Metadata -> Metadata, store: Store): (r: Cancellation)
    ensures forall t :: t in r.cancelled ==>
              t in env.live && t.account in env.accounts && t.kind != DataTask
              && (t.urlSession != SessionData ==> (t.kind == DownloadTask <==> t.urlSession == SessionDownloadBackground))
    ensures forall t :: (t in env.live && t.account in env.accounts && t.urlSession == SessionData
                         && t.kind != DataTask) ==> t in r.cancelled
  {
    Then(CancelAllDownloadTask(env, clear, store), x => CancelAllUploadTask(env, x))
  }

  /** `cancelAllDataTask`: every data task of every account session. */
  function CancelAllDataTask(env: Env): (r: set<LiveTask>)
    ensures forall t :: t in r ==> t in env.live && t.account in env.accounts && t.kind == DataTask
    ensures forall t :: t in r ==> t.urlSession == SessionData
  {
    set t | t in env.live && t.account in env.accounts && t.urlSession == SessionData && t.kind == DataTask
  }

  /** `cancelAllTask`, without the operation queue it also empties. */
  function CancelAllTask(env: Env, clear: Metadata -> Metadata, store: Store): (r: Cancellation)
    ensures forall t :: t in r.cancelled ==> t in env.live && t.account in env.accounts
    ensures forall t :: t in env.live && t.account in env.accounts && t.urlSession == SessionData ==> t in r.cancelled
    ensures r.store == CancelAllDownloadUploadTask(env, clear, store).store
  {
    var c := CancelAllDownloadUploadTask(env, clear, store);
    Cancellation(c.store, CancelAllDataTask(env) + c.cancelled)
  }

  /** What `cancelTask` leaves: the state, the tasks it asks to cancel, and
      the notifications it posts, in order. */
  datatype CancelResult = CancelResult(state: State, cancelled: set<LiveTask>, events: seq<Event>)

  /** `cancelTask(metadata:)`: removes the payload, then dispatches on the
      record's session string. */
  function CancelTask(env: Env, clear: Metadata -> Metadata, s: State, m: Metadata): (r: CancelResult)
    ensures m.ocId !in r.state.payloads
    ensures forall id :: id != m.ocId ==> (id in r.state.payloads <==> id in s.payloads)
  {
    var payloads := s.payloads - {m.ocId};
    if m.session == NoSession then
      CancelResult(State(Delete(s.store, m.ocId), payloads), {}, [ReloadDataSource])
    else
      var down :=
        if !m.session.MentionsDownload() then Cancellation(s.store, {})
        else if m.session == InLane(Download) then CancelDownloadTasks(env, clear, s.store, Some(m))
        else if m.session == InLane(DownloadBackground) then CancelDownloadBackgroundTask(env, clear, s.store, Some(m))
        else Cancellation(s.store, {});
      var downEvents :=
        if m.session.MentionsDownload()
        then [DownloadCancelFile(m.ocId, m.ocIdTransfer, m.session, m.serverUrl, m.account)]
        else [];
      var up :=
        if !m.session.MentionsUpload() then Cancellation(down.store, {})
        else if m.session == InLane(Upload) then CancelUploadTasks(env, down.store, Some(m))
        else CancelUploadBackgroundTask(env, down.store, Some(m));
      var upEvents :=
        if m.session.MentionsUpload()
        then [UploadCancelFile(m.ocId, m.ocIdTransfer, m.session, m.serverUrl, m.account)]
        else [];
      CancelResult(State(up.store, payloads), down.cancelled + up.cancelled, downEvents + upEvents)
  }

  // ---------------------------------------------------------------------
  // Repetition per account session

  /** Running an idempotent update once per account session, with at least
      one session, is running it once. */
  lemma {:induction false} RepeatIdempotent(n: nat, f: Store -> Store, store: Store)
    requires n >= 1
    requires forall x :: f(f(x)) == f(x)
    ensures Repeat(n, f, store) == f(store)
    decreases n
  {
    if n > 1 {
      RepeatIdempotent(n - 1, f, f(store));
      assert f(f(store)) == f(store);
    }
  }

  /** The update `cancelDownloadBackgroundTask` makes to the store: none
      without an account session, else the single-record or bulk clear once. */
  lemma DownloadBackgroundStore(env: Env, clear: Metadata -> Metadata, store: Store, target: Option<Metadata>)
    requires ClearsSession(clear)
    ensures CancelDownloadBackgroundTask(env, clear, store, target).store
            == if env.accounts == {} then store
               else if target.Some? then ClearOne(clear, store, target.value.ocId)
               else ClearLane(clear, store, DownloadBackground)
  {
    var f := x => if target.Some? then ClearOne(clear, x, target.value.ocId) else ClearLane(clear, x, DownloadBackground);
    if env.accounts != {} {
      forall x
        ensures f(f(x)) == f(x)
      {
        if target.Some? {
          ClearOneIdempotent(clear, x, target.value.ocId);
        } else {
          ClearLaneIdempotent(clear, x, DownloadBackground);
        }
      }
      RepeatIdempotent(|env.accounts|, f, store);
    }
  }

  /** The update `cancelUploadBackgroundTask` makes to the store: none
      without an account session, else the single or bulk delete once. */
  lemma UploadBackgroundStore(env: Env, store: Store, target: Option<Metadata>)
    ensures CancelUploadBackgroundTask(env, store, target).store
            == if env.accounts == {} then store
               else if target.Some? then Delete(store, target.value.ocId)
               else DeleteBulk(store, BackgroundUploadLanes)
  {
    var f := x => if target.Some? then Delete(x, target.value.ocId) else DeleteBulk(x, BackgroundUploadLanes);
    if env.accounts != {} {
      forall x
        ensures f(f(x)) == f(x)
      {
        if target.Some? {
          assert Delete(Delete(x, target.value.ocId), target.value.ocId) == Delete(x, target.value.ocId);
        } else {
          assert DeleteBulk(DeleteBulk(x, BackgroundUploadLanes), BackgroundUploadLanes) == DeleteBulk(x, BackgroundUploadLanes);
        }
      }
      RepeatIdempotent(|env.accounts|, f, store);
    }
  }

  lemma ClearOneIdempotent(clear: Metadata -> Metadata, store: Store, ocId: string)
    requires ClearsSession(clear)
    ensures ClearOne(clear, ClearOne(clear, store, ocId), ocId) == ClearOne(clear, store, ocId)
  {
    if ocId in store {
      assert clear(clear(store[ocId])) == clear(store[ocId]);
    }
  }

  lemma ClearLaneIdempotent(clear: Metadata -> Metadata, store: Store, lane: Lane)
    requires ClearsSession(clear)
    ensures ClearLane(clear, ClearLane(clear, store, lane), lane) == ClearLane(clear, store, lane)
  {
    var once := ClearLane(clear, store, lane);
    forall k | k in once
      ensures !InBulkDownload(lane, once[k])
    {
      if InBulkDownload(lane, store[k]) {
        assert once[k].session == NoSession;
      }
    }
    assert ClearLane(clear, once, lane) == once;
  }

  // ---------------------------------------------------------------------
  // Single cancel

  /** No session: the record is deleted, nothing is cancelled, and only a
      reload notification is posted. */
  lemma CancelTaskNoSession(env: Env, clear: Metadata -> Metadata, s: State, m: Metadata)
    requires m.session == NoSession
    ensures m.ocId !in CancelTask(env, clear, s, m).state.store
    ensures CancelTask(env, clear, s, m).state.store.Keys == s.store.Keys - {m.ocId}
    ensures forall k :: k in CancelTask(env, clear, s, m).state.store ==>
              CancelTask(env, clear, s, m).state.store[k] == s.store[k]
    ensures CancelTask(env, clear, s, m).cancelled == {}
    ensures CancelTask(env, clear, s, m).events == [ReloadDataSource]
  {
  }

  /** Download lane: the record is kept and cleared in place, every other
      record is untouched, and a download-cancel notification is posted.  On
      the background lane this needs at least one account session. */
  lemma CancelTaskDownloadLane(env: Env, clear: Metadata -> Metadata, s: State, m: Metadata)
    requires ClearsSession(clear)
    requires m.session == InLane(Download) || (m.session == InLane(DownloadBackground) && env.accounts != {})
    ensures CancelTask(env, clear, s, m).state.store.Keys == s.store.Keys
    ensures m.ocId in s.store ==>
              CancelTask(env, clear, s, m).state.store[m.ocId] == clear(s.store[m.ocId])
              && CancelTask(env, clear, s, m).state.store[m.ocId].session == NoSession
    ensures forall k :: k in s.store && k != m.ocId ==> CancelTask(env, clear, s, m).state.store[k] == s.store[k]
    ensures CancelTask(env, clear, s, m).events
            == [DownloadCancelFile(m.ocId, m.ocIdTransfer, m.session, m.serverUrl, m.account)]
  {
    DownloadBackgroundStore(env, clear, s.store, Some(m));
  }

  /** Upload session (an upload lane, or any other session naming "upload"):
      the record is deleted by its primary key and nothing else changes.
      Off the foreground lane this needs at least one account session. */
  lemma CancelTaskUploadSession(env: Env, clear: Metadata -> Metadata, s: State, m: Metadata)
    requires m.session.MentionsUpload()
    requires m.session == InLane(Upload) || env.accounts != {}
    ensures m.ocId !in CancelTask(env, clear, s, m).state.store
    ensures CancelTask(env, clear, s, m).state.store.Keys == s.store.Keys - {m.ocId}
    ensures forall k :: k in CancelTask(env, clear, s, m).state.store ==>
              CancelTask(env, clear, s, m).state.store[k] == s.store[k]
    ensures CancelTask(env, clear, s, m).events
            == (if m.session.MentionsDownload()
                then [DownloadCancelFile(m.ocId, m.ocIdTransfer, m.session, m.serverUrl, m.account)]
                else [])
               + [UploadCancelFile(m.ocId, m.ocIdTransfer, m.session, m.serverUrl, m.account)]
  {
    UploadBackgroundStore(env, s.store, Some(m));
  }

  /** A session naming neither lane: nothing is cancelled.  Without "upload"
      in it the store is not touched either, though a string naming
      "download" still posts the download-cancel notification. */
  lemma CancelTaskUnlisted(env: Env, clear: Metadata -> Metadata, s: State, m: Metadata)
    requires m.session.Unlisted?
    ensures CancelTask(env, clear, s, m).cancelled == {}
    ensures !m.session.hasUpload ==> CancelTask(env, clear, s, m).state.store == s.store
    ensures !m.session.hasUpload ==>
              CancelTask(env, clear, s, m).events
              == if m.session.hasDownload
                 then [DownloadCancelFile(m.ocId, m.ocIdTransfer, m.session, m.serverUrl, m.account)]
                 else []
  {
  }

  /** With no account session, cancelling a background download record, or a
      record whose session names "upload" but is not the foreground upload
      lane, changes no record and cancels nothing: both happen inside
      per-session tasks. */
  lemma CancelTaskWithoutAccounts(env: Env, clear: Metadata -> Metadata, s: State, m: Metadata)
    requires ClearsSession(clear)
    requires env.accounts == {}
    requires m.session == InLane(DownloadBackground) || (m.session.MentionsUpload() && m.session != InLane(Upload))
    ensures CancelTask(env, clear, s, m).state.store == s.store
    ensures CancelTask(env, clear, s, m).cancelled == {}
  {
    DownloadBackgroundStore(env, clear, s.store, Some(m));
    UploadBackgroundStore(env, s.store, Some(m));
  }

  /** The background download cancel keeps every row under its own key:
      clearing keeps a row's primary key. */
  lemma DownloadBackgroundKeyed(env: Env, clear: Metadata -> Metadata, store: Store, target: Option<Metadata>)
    requires ClearsSession(clear)
    requires WellKeyed(store)
    ensures WellKeyed(CancelDownloadBackgroundTask(env, clear, store, target).store)
  {
    DownloadBackgroundStore(env, clear, store, target);
  }

  /** The background upload cancel keeps every row under its own key. */
  lemma UploadBackgroundKeyed(env: Env, store: Store, target: Option<Metadata>)
    requires WellKeyed(store)
    ensures WellKeyed(CancelUploadBackgroundTask(env, store, target).store)
  {
    UploadBackgroundStore(env, store, target);
  }

  /** A single cancel leaves every row under its own key, so the sweep's
      lemmas apply to the store it leaves. */
  lemma CancelTaskKeepsKeyed(env: Env, clear: Metadata -> Metadata, s: State, m: Metadata)
    requires ClearsSession(clear)
    requires WellKeyed(s.store)
    ensures WellKeyed(CancelTask(env, clear, s, m).state.store)
  {
    DownloadBackgroundKeyed(env, clear, s.store, Some(m));
    forall x | WellKeyed(x)
      ensures WellKeyed(CancelUploadBackgroundTask(env, x, Some(m)).store)
    {
      UploadBackgroundKeyed(env, x, Some(m));
    }
  }

  /** Which live tasks a single cancel picks: those of the lane's URL session
      and task kind carrying the record's identifier; upload lanes also
      require the record's account, while download lanes take the identifier
      in every account session. */
  lemma CancelTaskPicks(env: Env, clear: Metadata -> Metadata, s: State, m: Metadata, t: LiveTask)
    requires m.session.InLane?
    ensures t in CancelTask(env, clear, s, m).cancelled <==>
              && t in env.live
              && t.account in env.accounts
              && t.taskIdentifier == m.sessionTaskIdentifier
              && match m.session.lane
                 case Download => t.urlSession == SessionData && t.kind == DownloadTask
                 case DownloadBackground => t.urlSession == SessionDownloadBackground && t.kind == DownloadTask
                 case Upload => t.urlSession == SessionData && t.kind == UploadTask && t.account == m.account
                 case _ =>
                   && t.urlSession == BackgroundUploadSession(m.session.lane)
                   && t.kind == UploadTask && t.account == m.account
  {
  }

  // ---------------------------------------------------------------------
  // Bulk cancel

  /** No record of `lane` is waiting, running or failed. */
  ghost predicate NoDownloadPending(store: Store, lane: Lane) {
    forall k :: k in store ==> !InBulkDownload(lane, store[k])
  }

  /** No record of `lanes` is waiting, running or failed. */
  ghost predicate NoUploadPending(store: Store, lanes: set<Lane>) {
    forall k :: k in store ==> !InBulkUpload(lanes, store[k])
  }

  /** Bulk foreground download cancel: every foreground download task is
      cancelled, exactly the pending foreground downloads are cleared, no
      record appears or disappears, and none stays pending on that lane. */
  lemma BulkCancelDownloadTasks(env: Env, clear: Metadata -> Metadata, store: Store)
    requires ClearsSession(clear)
    ensures var c := CancelDownloadTasks(env, clear, store, None);
            && c.store.Keys == store.Keys
            && (forall k :: k in store && InBulkDownload(Download, store[k]) ==> c.store[k] == clear(store[k]))
            && (forall k :: k in store && !InBulkDownload(Download, store[k]) ==> c.store[k] == store[k])
            && NoDownloadPending(c.store, Download)
            && (forall t :: t in c.cancelled <==>
                  t in env.live && t.account in env.accounts && t.urlSession == SessionData && t.kind == DownloadTask)
  {
    ClearLaneClears(clear, store, Download);
  }

  /** Bulk background download cancel, given at least one account session. */
  lemma BulkCancelDownloadBackgroundTask(env: Env, clear: Metadata -> Metadata, store: Store)
    requires ClearsSession(clear)
    requires env.accounts != {}
    ensures var c := CancelDownloadBackgroundTask(env, clear, store, None);
            && c.store.Keys == store.Keys
            && (forall k :: k in store && InBulkDownload(DownloadBackground, store[k]) ==> c.store[k] == clear(store[k]))
            && (forall k :: k in store && !InBulkDownload(DownloadBackground, store[k]) ==> c.store[k] == store[k])
            && NoDownloadPending(c.store, DownloadBackground)
            && (forall t :: t in c.cancelled <==>
                  t in env.live && t.account in env.accounts && t.urlSession == SessionDownloadBackground
                  && t.kind == DownloadTask)
  {
    DownloadBackgroundStore(env, clear, store, None);
    ClearLaneClears(clear, store, DownloadBackground);
  }

  /** Bulk foreground upload cancel: every foreground upload task is cancelled
      and exactly the pending foreground uploads are deleted. */
  lemma BulkCancelUploadTasks(env: Env, store: Store)
    ensures var c := CancelUploadTasks(env, store, None);
            && (forall k :: k in c.store <==> k in store && !InBulkUpload({Upload}, store[k]))
            && (forall k :: k in c.store ==> c.store[k] == store[k])
            && (forall t :: t in c.cancelled <==>
                  t in env.live && t.account in env.accounts && t.urlSession == SessionData && t.kind == UploadTask)
  {
  }

  /** Bulk background upload cancel, given at least one account session:
      exactly the pending records of the three background upload lanes are
      deleted, and every upload task of those sessions is cancelled. */
  lemma BulkCancelUploadBackgroundTask(env: Env, store: Store)
    requires env.accounts != {}
    ensures var c := CancelUploadBackgroundTask(env, store, None);
            && (forall k :: k in c.store <==> k in store && !InBulkUpload(BackgroundUploadLanes, store[k]))
            && (forall k :: k in c.store ==> c.store[k] == store[k])
            && (forall t :: t in c.cancelled <==>
                  t in env.live && t.account in env.accounts && IsBackgroundUploadSession(t.urlSession)
                  && t.kind == UploadTask)
  {
    UploadBackgroundStore(env, store, None);
  }

  /** After a bulk clear of `lane` nothing on it is pending, and whatever was
      already quiet on other lanes stays quiet. */
  lemma ClearLaneClears(clear: Metadata -> Metadata, store: Store, lane: Lane)
    requires ClearsSession(clear)
    ensures NoDownloadPending(ClearLane(clear, store, lane), lane)
    ensures forall l :: NoDownloadPending(store, l) ==> NoDownloadPending(ClearLane(clear, store, lane), l)
    ensures forall ls :: NoUploadPending(store, ls) ==> NoUploadPending(ClearLane(clear, store, lane), ls)
  {
    var c := ClearLane(clear, store, lane);
    forall k | k in c
      ensures c[k] == store[k] || c[k].session == NoSession
    {
    }
  }

  /** A clear or delete over a lane with nothing pending changes nothing. */
  lemma QuietLaneUnchanged(clear: Metadata -> Metadata, store: Store, lane: Lane, lanes: set<Lane>)
    ensures NoDownloadPending(store, lane) ==> ClearLane(clear, store, lane) == store
    ensures NoUploadPending(store, lanes) ==> DeleteBulk(store, lanes) == store
  {
  }

  /** `cancelAllDownloadUploadTask` run twice leaves the store it leaves once. */
  lemma CancelAllIdempotent(env: Env, clear: Metadata -> Metadata, store: Store)
    requires ClearsSession(clear)
    ensures var once := CancelAllDownloadUploadTask(env, clear, store).store;
            CancelAllDownloadUploadTask(env, clear, once).store == once
  {
    var s1 := ClearLane(clear, store, Download);
    ClearLaneClears(clear, store, Download);
    var s2 := CancelDownloadBackgroundTask(env, clear, s1, None).store;
    DownloadBackgroundStore(env, clear, s1, None);
    ClearLaneClears(clear, s1, DownloadBackground);
    assert NoDownloadPending(s2, Download);
    var s3 := DeleteBulk(s2, {Upload});
    assert NoUploadPending(s3, {Upload});
    var s4 := CancelUploadBackgroundTask(env, s3, None).store;
    UploadBackgroundStore(env, s3, None);
    assert s4 == CancelAllDownloadUploadTask(env, clear, store).store;
    assert NoDownloadPending(s4, Download) && NoUploadPending(s4, {Upload});
    assert env.accounts != {} ==> NoDownloadPending(s4, DownloadBackground) && NoUploadPending(s4, BackgroundUploadLanes);

    QuietLaneUnchanged(clear, s4, Download, {Upload});
    DownloadBackgroundStore(env, clear, s4, None);
    QuietLaneUnchanged(clear, s4, DownloadBackground, BackgroundUploadLanes);
    UploadBackgroundStore(env, s4, None);
  }

  /** Cancelling all downloads and uploads leaves every row under its own key. */
  lemma CancelAllKeepsKeyed(env: Env, clear: Metadata -> Metadata, store: Store)
    requires ClearsSession(clear)
    requires WellKeyed(store)
    ensures WellKeyed(CancelAllDownloadUploadTask(env, clear, store).store)
  {
    var s1 := CancelDownloadTasks(env, clear, store, None).store;
    DownloadBackgroundKeyed(env, clear, s1, None);
    var s2 := CancelDownloadBackgroundTask(env, clear, s1, None).store;
    UploadBackgroundKeyed(env, CancelUploadTasks(env, s2, None).store, None);
  }

  /** With at least one account session, `cancelAllDownloadUploadTask` leaves
      no record pending on any lane. */
  lemma CancelAllLeavesNothingPending(env: Env, clear: Metadata -> Metadata, store: Store)
    requires ClearsSession(clear)
    requires env.accounts != {}
    ensures var c := CancelAllDownloadUploadTask(env, clear, store).store;
            && NoDownloadPending(c, Download) && NoDownloadPending(c, DownloadBackground)
            && NoUploadPending(c, {Upload}) && NoUploadPending(c, BackgroundUploadLanes)
  {
    var s1 := ClearLane(clear, store, Download);
    ClearLaneClears(clear, store, Download);
    var s2 := ClearLane(clear, s1, DownloadBackground);
    DownloadBackgroundStore(env, clear, s1, None);
    ClearLaneClears(clear, s1, DownloadBackground);
    var s3 := DeleteBulk(s2, {Upload});
    UploadBackgroundStore(env, s3, None);
  }


  /** `cancelAllTask` asks every account session to cancel all of its
      foreground tasks, and in the background sessions the tasks of the kind
      each lane runs: downloads in the download session, uploads in the three
      upload sessions.  No other task is touched. */
  lemma CancelAllTaskPicks(env: Env, clear: Metadata -> Metadata, store: Store, t: LiveTask)
    ensures t in CancelAllTask(env, clear, store).cancelled <==>
              && t in env.live
              && t.account in env.accounts
              && (|| t.urlSession == SessionData
                  || (t.urlSession == SessionDownloadBackground && t.kind == DownloadTask)
                  || (IsBackgroundUploadSession(t.urlSession) && t.kind == UploadTask))
  {
  }

}
