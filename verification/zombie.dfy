/** The zombie sweep (`verifyZombie`): four passes over records that claim an
    active transfer, each record deleted, reset or left alone depending on
    whether its account still has a session and whether a live task carries
    its `sessionTaskIdentifier`. */
module Zombie {

  import opened Wrappers
  import opened Transfers
  import opened Tasks

  /** The four passes, in the order the sweep runs them. */
  datatype Pass =
    | UploadingForeground
    | UploadingBackground
    | DownloadingForeground
    | DownloadingBackground
  {
    predicate IsUpload() { UploadingForeground? || UploadingBackground? }
  }

  const AllPasses: set<Pass> :=
    {UploadingForeground, UploadingBackground, DownloadingForeground, DownloadingBackground}

  /** The store query a pass starts from: its lane(s) and its active status. */
  predicate Selects(p: Pass, m: Metadata) {
    match p
    case UploadingForeground => m.session == InLane(Upload) && m.status == Uploading
    case UploadingBackground =>
      m.session.InLane? && m.session.lane.IsBackgroundUpload() && m.status == Uploading
    case DownloadingForeground => m.session == InLane(Download) && m.status == Downloading
    case DownloadingBackground => m.session == InLane(DownloadBackground) && m.status == Downloading
  }

  /** The pass that picks a record up, if any: the four queries are disjoint. */
  function PassOf(m: Metadata): (r: Option<Pass>)
    ensures forall p :: Selects(p, m) <==> r == Some(p)
  {
    if m.status == Uploading && m.session == InLane(Upload) then Some(UploadingForeground)
    else if m.status == Uploading && m.session.InLane? && m.session.lane.IsBackgroundUpload() then Some(UploadingBackground)
    else if m.status == Downloading && m.session == InLane(Download) then Some(DownloadingForeground)
    else if m.status == Downloading && m.session == InLane(DownloadBackground) then Some(DownloadingBackground)
    else None
  }

  /** The URL session a pass enumerates for a record of a known account.
      `None` is the nil session of the background upload pass, which its own
      query never lets through. */
  function TaskSessionFor(p: Pass, m: Metadata): (r: Option<UrlSession>)
    ensures Selects(p, m) ==> r.Some?
    ensures p == UploadingBackground && Selects(p, m) ==> r == Some(BackgroundUploadSession(m.session.lane))
    ensures r.Some? && p.IsUpload() ==> r.value != SessionDownloadBackground
    ensures r.Some? && !p.IsUpload() ==>
              (r.value == SessionData <==> p == DownloadingForeground)
  {
    match p
    case UploadingForeground => Some(SessionData)
    case UploadingBackground =>
      if m.session.InLane? && m.session.lane.IsBackgroundUpload()
      then Some(BackgroundUploadSession(m.session.lane))
      else None
    case DownloadingForeground => Some(SessionData)
    case DownloadingBackground => Some(SessionDownloadBackground)
  }

  /** The task lists a pass scans: the foreground upload pass reads only
      upload tasks, the foreground download pass only download tasks, and the
      background passes every task of the session. */
  predicate Scans(p: Pass, kind: TaskKind) {
    match p
    case UploadingForeground => kind == UploadTask
    case DownloadingForeground => kind == DownloadTask
    case _ => true
  }

  /** A task that keeps record `m` alive in pass `p`. */
  predicate Witnesses(p: Pass, us: UrlSession, m: Metadata, t: LiveTask) {
    && t.account == m.account
    && t.urlSession == us
    && Scans(p, t.kind)
    && t.taskIdentifier == m.sessionTaskIdentifier
  }

  predicate HasLiveTask(live: set<LiveTask>, p: Pass, us: UrlSession, m: Metadata) {
    exists t :: t in live && Witnesses(p, us, m, t)
  }

  /** The `foundTask` loop: scans every task of the session for the record's identifier. */
  method FindTask(live: set<LiveTask>, p: Pass, us: UrlSession, m: Metadata) returns (found: bool)
    ensures found <==> HasLiveTask(live, p, us, m)
  {
    found := false;
    var rest := live;
    while rest != {}
      invariant rest <= live
      invariant found <==> exists t :: t in live && t !in rest && Witnesses(p, us, m, t)
      decreases rest
    {
      var t :| t in rest;
      if Witnesses(p, us, m, t) {
        found := true;
      }
      rest := rest - {t};
    }
  }

  /** A record the sweep picks up whose account has no session. */
  predicate Orphaned(env: Env, m: Metadata) {
    PassOf(m).Some? && m.account !in env.accounts
  }

  /** A record the sweep picks up, of a known account, that some live task
      still witnesses. */
  predicate Alive(env: Env, m: Metadata) {
    && PassOf(m).Some?
    && m.account in env.accounts
    && TaskSessionFor(PassOf(m).value, m).Some?
    && HasLiveTask(env.live, PassOf(m).value, TaskSessionFor(PassOf(m).value, m).value, m)
  }

  /** A record the sweep picks up, of a known account, with no live task. */
  predicate IsZombie(env: Env, m: Metadata) {
    PassOf(m).Some? && m.account in env.accounts && !Alive(env, m)
  }

  /** What the sweep does with one record. */
  datatype Verdict = Keep | Reset(record: Metadata) | Remove(dropPayload: bool)

  /** The repair of a zombie: an upload with its payload goes back to
      `waitUpload` and keeps its session, one without is deleted; a download
      always returns to `normal` with its session fields emptied. */
  function Repair(p: Pass, m: Metadata, hasPayload: bool): (v: Verdict)
    ensures v.Reset? ==> v.record.ocId == m.ocId && PassOf(v.record) == None
    ensures p.IsUpload() ==> (v.Reset? <==> hasPayload) && !v.Keep?
    ensures p.IsUpload() && v.Reset? ==> v.record.session == m.session && v.record.status == WaitUpload
    ensures !p.IsUpload() ==> v.Reset? && v.record.session == NoSession && v.record.status == Normal
  {
    if p.IsUpload() then
      if hasPayload then Reset(m.(sessionError := "", status := WaitUpload))
      else Remove(false)
    else Reset(m.(session := NoSession, sessionError := "", selector := "", status := Normal))
  }

  /** The decision the pass `p` takes for record `m`. */
  function Judge(env: Env, payloads: set<string>, p: Pass, m: Metadata): (v: Verdict)
    ensures m.account !in env.accounts ==> v == Remove(true)
    ensures v.Reset? ==> v.record.ocId == m.ocId && PassOf(v.record) == None
    ensures v.Keep? ==> m.account in env.accounts
  {
    if m.account !in env.accounts then Remove(true)
    else match TaskSessionFor(p, m)
      case None => Remove(true)
      case Some(us) =>
        if HasLiveTask(env.live, p, us, m) then Keep else Repair(p, m, m.ocId in payloads)
  }

  /** Writes one verdict to the state: a reset is `setMetadataSession` on the
      row, a removal is `deleteMetadata` and, for orphans, `removeFile`. */
  function Enact(s: State, ocId: string, v: Verdict): State {
    match v
    case Keep => s
    case Reset(n) => State(s.store[ocId := n], s.payloads)
    case Remove(drop) => State(Delete(s.store, ocId), if drop then s.payloads - {ocId} else s.payloads)
  }

  /** Whether the sweep restricted to passes `ps` and keys `ks` handles record `k`. */
  predicate Visits(ps: set<Pass>, ks: set<string>, k: string, m: Metadata) {
    k in ks && PassOf(m).Some? && PassOf(m).value in ps
  }

  /** The record that stands under `k` afterwards, `None` if it is deleted. */
  function Outcome(env: Env, payloads: set<string>, ps: set<Pass>, ks: set<string>, k: string, m: Metadata): Option<Metadata> {
    if !Visits(ps, ks, k, m) then Some(m) else Settle(m, Judge(env, payloads, PassOf(m).value, m))
  }

  /** The record a verdict leaves in place of `m`, `None` if it deletes it. */
  function Settle(m: Metadata, v: Verdict): Option<Metadata> {
    match v
    case Keep => Some(m)
    case Reset(n) => Some(n)
    case Remove(_) => None
  }

  /** Whether handling record `k` removes its payload file. */
  predicate DropsPayload(env: Env, payloads: set<string>, ps: set<Pass>, ks: set<string>, k: string, m: Metadata) {
    Visits(ps, ks, k, m) && Judge(env, payloads, PassOf(m).value, m) == Remove(true)
  }

  /** Every record handled at once, each judged against the state before the
      sweep.  This is the declarative reading of the sweep's loops. */
  function Reconcile(env: Env, s: State, ps: set<Pass>, ks: set<string>): State {
    State(
      map k | k in s.store && Outcome(env, s.payloads, ps, ks, k, s.store[k]).Some?
        :: Outcome(env, s.payloads, ps, ks, k, s.store[k]).value,
      s.payloads - set k | k in s.store && DropsPayload(env, s.payloads, ps, ks, k, s.store[k]))
  }

  /** One pass over the whole store. */
  function ApplyPass(env: Env, p: Pass, s: State): State {
    Reconcile(env, s, {p}, s.store.Keys)
  }

  /** `verifyZombie`: the four passes in source order. */
  function Sweep(env: Env, s: State): (r: State)
    ensures r.store.Keys <= s.store.Keys
    ensures r.payloads <= s.payloads
  {
    ApplyPass(env, DownloadingBackground,
      ApplyPass(env, DownloadingForeground,
        ApplyPass(env, UploadingBackground,
          ApplyPass(env, UploadingForeground, s))))
  }

  // ---------------------------------------------------------------------
  // From loops to the declarative sweep

  /** A verdict depends on the payload set only through the record's own id. */
  lemma JudgeReadsOwnPayload(env: Env, p1: set<string>, p2: set<string>, p: Pass, m: Metadata)
    requires m.ocId in p1 <==> m.ocId in p2
    ensures Judge(env, p1, p, m) == Judge(env, p2, p, m)
  {
  }

  /** Reconciling no pass changes nothing. */
  lemma ReconcileNone(env: Env, s: State, ks: set<string>)
    ensures Reconcile(env, s, {}, ks) == s
  {
    var r := Reconcile(env, s, {}, ks);
    assert r.store == s.store;
    assert r.payloads == s.payloads;
  }

  /** Running one more pass after passes `ps` is the same as reconciling all of
      them against the original state: no pass sees a record an earlier pass
      has written, and no pass reads a payload an earlier pass has removed. */
  lemma {:induction false} PassComposes(env: Env, s: State, ps: set<Pass>, p: Pass)
    requires WellKeyed(s.store)
    requires p !in ps
    ensures ApplyPass(env, p, Reconcile(env, s, ps, s.store.Keys)) == Reconcile(env, s, ps + {p}, s.store.Keys)
  {
    var a := Reconcile(env, s, ps, s.store.Keys);
    var b := ApplyPass(env, p, a);
    var c := Reconcile(env, s, ps + {p}, s.store.Keys);
    forall k | k in s.store
      ensures k in b.store <==> k in c.store
      ensures k in b.store ==> b.store[k] == c.store[k]
      ensures k in b.payloads <==> k in c.payloads
    {
      var m := s.store[k];
      if Visits(ps, s.store.Keys, k, m) {
        assert !Visits({p}, a.store.Keys, k, m);
        if k in a.store {
          assert !Visits({p}, a.store.Keys, k, a.store[k]);
        }
      } else {
        assert k in a.store && a.store[k] == m;
        assert k in a.payloads <==> k in s.payloads;
        JudgeReadsOwnPayload(env, a.payloads, s.payloads, p, m);
      }
    }
    assert b.store == c.store;
    assert b.payloads == c.payloads;
  }

  /** The four passes run one after another equal all four reconciled at once. */
  lemma SweepIsReconcile(env: Env, s: State)
    requires WellKeyed(s.store)
    ensures Sweep(env, s) == Reconcile(env, s, AllPasses, s.store.Keys)
  {
    var ks := s.store.Keys;
    var p1: set<Pass> := {UploadingForeground};
    var p2: set<Pass> := p1 + {UploadingBackground};
    var p3: set<Pass> := p2 + {DownloadingForeground};
    var p4: set<Pass> := p3 + {DownloadingBackground};
    ReconcileNone(env, s, ks);
    PassComposes(env, s, {}, UploadingForeground);
    assert {} + {UploadingForeground} == p1;
    var s1 := ApplyPass(env, UploadingForeground, s);
    assert s1 == Reconcile(env, s, p1, ks);
    PassComposes(env, s, p1, UploadingBackground);
    var s2 := ApplyPass(env, UploadingBackground, s1);
    assert s2 == Reconcile(env, s, p2, ks);
    PassComposes(env, s, p2, DownloadingForeground);
    var s3 := ApplyPass(env, DownloadingForeground, s2);
    assert s3 == Reconcile(env, s, p3, ks);
    PassComposes(env, s, p3, DownloadingBackground);
    assert p4 == AllPasses;
  }


  /** Handling one more selected record of a pass is one `Enact` of its verdict. */
  lemma ReconcileStep(env: Env, s: State, p: Pass, done: set<string>, k: string)
    requires WellKeyed(s.store)
    requires k in s.store && k !in done && Selects(p, s.store[k])
    ensures Reconcile(env, s, {p}, done + {k})
            == Enact(Reconcile(env, s, {p}, done), k, Judge(env, s.payloads, p, s.store[k]))
  {
    StepStore(env, s, p, done, k);
    StepPayloads(env, s, p, done, k);
  }

  lemma StepStore(env: Env, s: State, p: Pass, done: set<string>, k: string)
    requires k in s.store && k !in done && Selects(p, s.store[k])
    ensures Reconcile(env, s, {p}, done + {k}).store
            == Enact(Reconcile(env, s, {p}, done), k, Judge(env, s.payloads, p, s.store[k])).store
  {
    var a := Reconcile(env, s, {p}, done);
    var b := Reconcile(env, s, {p}, done + {k}).store;
    var v := Judge(env, s.payloads, p, s.store[k]);
    var c := Enact(a, k, v).store;
    EnactAt(a, k, v);
    forall j | j in s.store
      ensures j in b <==> j in c
      ensures j in b ==> b[j] == c[j]
    {
      ReconcileAt(env, s, {p}, done, j);
      ReconcileAt(env, s, {p}, done + {k}, j);
      if j == k {
        assert Outcome(env, s.payloads, {p}, done + {k}, k, s.store[k]) == Settle(s.store[k], v);
      } else {
        assert Outcome(env, s.payloads, {p}, done + {k}, j, s.store[j])
            == Outcome(env, s.payloads, {p}, done, j, s.store[j]);
      }
    }
    SameMaps(b, c, s.store.Keys);
  }

  /** Two stores over the same keys that agree key by key are equal. */
  lemma SameMaps(b: Store, c: Store, keys: set<string>)
    requires b.Keys <= keys && c.Keys <= keys
    requires forall j :: j in keys ==> (j in b <==> j in c)
    requires forall j :: j in keys && j in b ==> b[j] == c[j]
    ensures b == c
  {
  }

  /** What a reconciliation leaves under one key of the store. */
  lemma ReconcileAt(env: Env, s: State, ps: set<Pass>, ks: set<string>, j: string)
    requires j in s.store
    ensures j in Reconcile(env, s, ps, ks).store <==> Outcome(env, s.payloads, ps, ks, j, s.store[j]).Some?
    ensures j in Reconcile(env, s, ps, ks).store ==>
              Reconcile(env, s, ps, ks).store[j] == Outcome(env, s.payloads, ps, ks, j, s.store[j]).value
  {
  }

  /** `Enact` changes only the row under `k`, as its verdict says. */
  lemma EnactAt(st: State, k: string, v: Verdict)
    requires k in st.store
    ensures k in Enact(st, k, v).store <==> !v.Remove?
    ensures v.Keep? ==> Enact(st, k, v).store[k] == st.store[k]
    ensures v.Reset? ==> Enact(st, k, v).store[k] == v.record
    ensures forall j :: j != k ==> (j in Enact(st, k, v).store <==> j in st.store)
    ensures forall j :: j != k && j in st.store ==> Enact(st, k, v).store[j] == st.store[j]
  {
  }

  lemma StepPayloads(env: Env, s: State, p: Pass, done: set<string>, k: string)
    requires k in s.store && k !in done && Selects(p, s.store[k])
    ensures Reconcile(env, s, {p}, done + {k}).payloads
            == Enact(Reconcile(env, s, {p}, done), k, Judge(env, s.payloads, p, s.store[k])).payloads
  {
    var a := Reconcile(env, s, {p}, done).payloads;
    var b := Reconcile(env, s, {p}, done + {k}).payloads;
    var v := Judge(env, s.payloads, p, s.store[k]);
    StepOthers(env, s, p, done, k);
    var drops := DropsPayload(env, s.payloads, {p}, done + {k}, k, s.store[k]);
    assert drops == (v == Remove(true));
    if drops {
      assert b == a - {k};
    } else {
      assert b == a;
    }
  }

  /** Handling record `k` leaves what happens to every other record unchanged. */
  lemma StepOthers(env: Env, s: State, p: Pass, done: set<string>, k: string)
    ensures forall j :: j != k && j in s.store ==>
              Outcome(env, s.payloads, {p}, done + {k}, j, s.store[j]) == Outcome(env, s.payloads, {p}, done, j, s.store[j])
    ensures forall j :: j != k && j in s.store ==>
              DropsPayload(env, s.payloads, {p}, done + {k}, j, s.store[j]) == DropsPayload(env, s.payloads, {p}, done, j, s.store[j])
  {
  }

  /** A pass that handles exactly the records its query returns handles the whole store. */
  lemma ReconcileSelected(env: Env, s: State, p: Pass, selected: set<string>)
    requires selected == set k | k in s.store && Selects(p, s.store[k])
    ensures Reconcile(env, s, {p}, selected) == ApplyPass(env, p, s)
  {
    var a := Reconcile(env, s, {p}, selected);
    var b := ApplyPass(env, p, s);
    assert a.store == b.store;
    assert a.payloads == b.payloads;
  }

  /** One pass as the source runs it: fetch the records the pass's query
      returns, then handle them one at a time. */
  method SweepPass(env: Env, p: Pass, s: State) returns (r: State)
    requires WellKeyed(s.store)
    ensures r == ApplyPass(env, p, s)
  {
    var metadatas := set k | k in s.store && Selects(p, s.store[k]);
    var todo := metadatas;
    var done: set<string> := {};
    r := s;
    while todo != {}
      invariant todo <= metadatas && done == metadatas - todo
      invariant r == Reconcile(env, s, {p}, done)
      decreases todo
    {
      var k :| k in todo;
      var m := s.store[k];
      var verdict: Verdict;
      if m.account !in env.accounts {
        verdict := Remove(true);
      } else {
        var us := TaskSessionFor(p, m);
        if us.None? {
          verdict := Remove(true);
        } else {
          var found := FindTask(env.live, p, us.value, m);
          verdict := if found then Keep else Repair(p, m, m.ocId in r.payloads);
        }
      }
      assert m.ocId in r.payloads <==> m.ocId in s.payloads;
      JudgeReadsOwnPayload(env, r.payloads, s.payloads, p, m);
      ReconcileStep(env, s, p, done, k);
      r := Enact(r, m.ocId, verdict);
      done := done + {k};
      todo := todo - {k};
    }
    ReconcileSelected(env, s, p, metadatas);
  }

  /** A pass keeps every row under its own key. */
  lemma ApplyPassWellKeyed(env: Env, p: Pass, s: State)
    requires WellKeyed(s.store)
    ensures WellKeyed(ApplyPass(env, p, s).store)
  {
  }

  /** `verifyZombie`: the four passes run in order. */
  method VerifyZombie(env: Env, s: State) returns (r: State)
    requires WellKeyed(s.store)
    ensures r == Sweep(env, s)
    ensures WellKeyed(r.store)
  {
    r := SweepPass(env, UploadingForeground, s);
    ApplyPassWellKeyed(env, UploadingForeground, s);
    var r1 := r;
    r := SweepPass(env, UploadingBackground, r);
    ApplyPassWellKeyed(env, UploadingBackground, r1);
    var r2 := r;
    r := SweepPass(env, DownloadingForeground, r);
    ApplyPassWellKeyed(env, DownloadingForeground, r2);
    var r3 := r;
    r := SweepPass(env, DownloadingBackground, r);
    ApplyPassWellKeyed(env, DownloadingBackground, r3);
  }


  // ---------------------------------------------------------------------
  // What the sweep does to each record

  /** Upload zombie: a record in `uploading` on the foreground or a background
      upload lane, whose account has a session but no live task carries its
      identifier, goes back to `waitUpload` with its error cleared and its
      session untouched if its payload exists, and is deleted otherwise. */
  lemma SweepUploadZombie(env: Env, s: State, k: string)
    requires WellKeyed(s.store) && k in s.store
    requires IsZombie(env, s.store[k]) && PassOf(s.store[k]).value.IsUpload()
    ensures k in s.payloads ==>
              k in Sweep(env, s).store
              && Sweep(env, s).store[k] == s.store[k].(sessionError := "", status := WaitUpload)
    ensures k !in s.payloads ==> k !in Sweep(env, s).store
    ensures k in Sweep(env, s).payloads <==> k in s.payloads
  {
    SweepIsReconcile(env, s);
  }

  /** Download zombie: a record in `downloading` on either download lane with
      no live task returns to `normal` with session, error and selector
      emptied, whether or not its payload exists. */
  lemma SweepDownloadZombie(env: Env, s: State, k: string)
    requires WellKeyed(s.store) && k in s.store
    requires IsZombie(env, s.store[k]) && !PassOf(s.store[k]).value.IsUpload()
    ensures k in Sweep(env, s).store
    ensures Sweep(env, s).store[k]
            == s.store[k].(session := NoSession, sessionError := "", selector := "", status := Normal)
    ensures k in Sweep(env, s).payloads <==> k in s.payloads
  {
    SweepIsReconcile(env, s);
  }

  /** Orphaned account: a record any pass picks up whose account has no
      session is deleted and its payload removed, whatever its task state. */
  lemma SweepOrphan(env: Env, s: State, k: string)
    requires WellKeyed(s.store) && k in s.store
    requires Orphaned(env, s.store[k])
    ensures k !in Sweep(env, s).store
    ensures k !in Sweep(env, s).payloads
  {
    SweepIsReconcile(env, s);
  }

  /** Nothing else changes: a record no pass picks up, or one a live task
      still witnesses, stays exactly as it was, payload included. */
  lemma SweepKeepsOthers(env: Env, s: State, k: string)
    requires WellKeyed(s.store) && k in s.store
    requires PassOf(s.store[k]).None? || Alive(env, s.store[k])
    ensures k in Sweep(env, s).store && Sweep(env, s).store[k] == s.store[k]
    ensures k in Sweep(env, s).payloads <==> k in s.payloads
  {
    SweepIsReconcile(env, s);
  }

  /** The sweep never creates a record, keeps every row under its key, and
      removes exactly the payloads of orphaned records. */
  lemma SweepFrame(env: Env, s: State)
    requires WellKeyed(s.store)
    ensures Sweep(env, s).store.Keys <= s.store.Keys
    ensures WellKeyed(Sweep(env, s).store)
    ensures forall id :: id in Sweep(env, s).payloads <==>
              id in s.payloads && !(id in s.store && Orphaned(env, s.store[id]))
  {
    SweepIsReconcile(env, s);
  }

  /** After a sweep no record is an orphan or a zombie: every record a pass
      would pick up again is witnessed by a live task of a known account. */
  lemma SweepLeavesNoZombie(env: Env, s: State)
    requires WellKeyed(s.store)
    ensures forall k :: k in Sweep(env, s).store && PassOf(Sweep(env, s).store[k]).Some? ==>
              Alive(env, Sweep(env, s).store[k])
  {
    SweepIsReconcile(env, s);
  }

  /** Idempotence: a second sweep against the same accounts, tasks and
      payload files changes nothing. */
  lemma SweepIdempotent(env: Env, s: State)
    requires WellKeyed(s.store)
    ensures Sweep(env, Sweep(env, s)) == Sweep(env, s)
  {
    var r := Sweep(env, s);
    SweepFrame(env, s);
    SweepLeavesNoZombie(env, s);
    SweepIsReconcile(env, r);
    var r2 := Reconcile(env, r, AllPasses, r.store.Keys);
    forall k | k in r.store
      ensures Outcome(env, r.payloads, AllPasses, r.store.Keys, k, r.store[k]) == Some(r.store[k])
      ensures !DropsPayload(env, r.payloads, AllPasses, r.store.Keys, k, r.store[k])
    {
    }
    assert r2.store == r.store;
    assert r2.payloads == r.payloads;
  }


  /** A store in which no record claims an active transfer on a lane. */
  ghost predicate Quiet(store: Store) {
    forall k :: k in store ==> PassOf(store[k]).None?
  }

  /** On a quiet store the sweep changes nothing. */
  lemma SweepQuiet(env: Env, s: State)
    requires Quiet(s.store)
    ensures Sweep(env, s) == s
  {
    forall p: Pass, x: State | Quiet(x.store)
      ensures ApplyPass(env, p, x) == x
    {
      var r := ApplyPass(env, p, x);
      assert r.store == x.store;
      assert r.payloads == x.payloads;
    }
  }

}
