/** The states of managed torrents and of the requests on them. */
module TorrentStates {
  datatype TorrentState =
    | Pending | Adding | Downloading | Paused | RetryWait | Error | Ready | PurgePending | Purging | Purged

  datatype RequestState = Requested | Active | Ready | Cancelled | Expired

  predicate IsActive(s: RequestState) { s == Requested || s == Active || s == RequestState.Ready }
}
