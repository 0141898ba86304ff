/** The live URL-session tasks the reconciler enumerates, as a snapshot. */
module Tasks {

  import opened Transfers

  /** The URL sessions of one account's NextcloudKit session.  Both foreground
      lanes run on the shared `sessionData` session. */
  datatype UrlSession =
    | SessionData
    | SessionDownloadBackground
    | SessionUploadBackground
    | SessionUploadBackgroundWWan
    | SessionUploadBackgroundExt

  /** The three task lists a URL session reports: data, upload and download. */
  datatype TaskKind = DataTask | UploadTask | DownloadTask

  datatype LiveTask = LiveTask(account: string, urlSession: UrlSession, kind: TaskKind, taskIdentifier: int)

  /** Everything the reconciler observes but does not own: the accounts that
      have a NextcloudKit session and every task alive in those sessions. */
  datatype Env = Env(accounts: set<string>, live: set<LiveTask>)

  /** The URL session a background upload lane uses. */
  function BackgroundUploadSession(lane: Lane): (us: UrlSession)
    requires lane.IsBackgroundUpload()
    ensures us != SessionData && us != SessionDownloadBackground
  {
    match lane
    case UploadBackground => SessionUploadBackground
    case UploadBackgroundWWan => SessionUploadBackgroundWWan
    case UploadBackgroundExt => SessionUploadBackgroundExt
  }

  /** The lane whose identifier a background upload URL session carries. */
  function LaneOfUploadSession(us: UrlSession): (lane: Lane)
    requires us.SessionUploadBackground? || us.SessionUploadBackgroundWWan? || us.SessionUploadBackgroundExt?
    ensures lane.IsBackgroundUpload() && BackgroundUploadSession(lane) == us
    ensures forall l: Lane :: l.IsBackgroundUpload() && BackgroundUploadSession(l) == us ==> l == lane
  {
    match us
    case SessionUploadBackground => UploadBackground
    case SessionUploadBackgroundWWan => UploadBackgroundWWan
    case SessionUploadBackgroundExt => UploadBackgroundExt
  }

}
