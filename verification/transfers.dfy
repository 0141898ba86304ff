/** Transfer records (the `tableMetadata` rows the reconciler reads and
    writes), the session lanes they name, and the events cancellation posts. */
module Transfers {

  /** The six session identifiers a transfer can run on.  `Upload` stands for
      both `sessionUpload` and NextcloudKit's `identifierSessionUpload`, which
      the code compares against interchangeably. */
  datatype Lane =
    | Download
    | DownloadBackground
    | Upload
    | UploadBackground
    | UploadBackgroundWWan
    | UploadBackgroundExt
  {
    predicate IsDownload() { Download? || DownloadBackground? }

    predicate IsUpload() { !IsDownload() }

    /** The three background upload lanes that share one status filter. */
    predicate IsBackgroundUpload() {
      UploadBackground? || UploadBackgroundWWan? || UploadBackgroundExt?
    }
  }

  /** The `session` string of a record.  `NoSession` is the empty string, and
      `InLane` one of the six lane identifiers.  `Unlisted` is any other non-empty
      string. For those, only the two substring tests the code makes are kept:
      whether it contains "download" and whether it contains "upload". */
  datatype Session =
    | NoSession
    | InLane(lane: Lane)
    | Unlisted(hasDownload: bool, hasUpload: bool)
  {
    /** `session.contains("download")`: a download lane name contains it, an
        upload lane name does not. */
    predicate MentionsDownload() {
      match this
      case NoSession => false
      case InLane(l) => l.IsDownload()
      case Unlisted(d, _) => d
    }

    /** `session.contains("upload")`. */
    predicate MentionsUpload() {
      match this
      case NoSession => false
      case InLane(l) => l.IsUpload()
      case Unlisted(_, u) => u
    }
  }

  /** Transfer status codes; `OtherStatus` covers every code the reconciler
      never filters on. */
  datatype Status =
    | Normal
    | WaitDownload
    | Downloading
    | DownloadError
    | WaitUpload
    | Uploading
    | UploadError
    | OtherStatus
  {
    /** The status set of the bulk download cancel filter. */
    predicate IsDownloadPending() { WaitDownload? || Downloading? || DownloadError? }

    /** The status set of the bulk upload cancel filter. */
    predicate IsUploadPending() { WaitUpload? || Uploading? || UploadError? }
  }

  /** One transfer record, with the fields the reconciler reads or writes. */
  datatype Metadata = Metadata(
    ocId: string,
    ocIdTransfer: string,
    account: string,
    serverUrl: string,
    session: Session,
    status: Status,
    sessionTaskIdentifier: int,
    sessionError: string,
    selector: string)

  /** The record store, keyed by the primary key `ocId`. */
  type Store = map<string, Metadata>

  /** Every row sits under its own primary key. */
  ghost predicate WellKeyed(store: Store) {
    forall k :: k in store ==> store[k].ocId == k
  }

  /** What the reconciler may change: the records and the set of ids whose
      local payload file exists. */
  datatype State = State(store: Store, payloads: set<string>)

  /** Notifications posted by `cancelTask`; the record's identifying fields are
      carried as the posted user info. */
  datatype Event =
    | ReloadDataSource
    | DownloadCancelFile(ocId: string, ocIdTransfer: string, session: Session, serverUrl: string, account: string)
    | UploadCancelFile(ocId: string, ocIdTransfer: string, session: Session, serverUrl: string, account: string)

  /** The store with one record removed and nothing else changed
      (`deleteMetadata(predicate: "ocId == …")`). */
  function Delete(store: Store, ocId: string): (r: Store)
    ensures ocId !in r
    ensures r.Keys == store.Keys - {ocId}
    ensures forall k :: k in r ==> r[k] == store[k]
  {
    store - {ocId}
  }

}
