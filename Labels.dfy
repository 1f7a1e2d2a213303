/** The (category, state) label attached to every torrent, and how it is derived. */
module Labels {
  import opened Results

  /** The lifecycle states a torrent can report, as the client library enumerates them. */
  datatype TorrentState =
    | Error | MissingFiles | Uploading | PausedUP | QueuedUP | StalledUP | CheckingUP | ForcedUP
    | Allocating | Downloading | MetaDL | PausedDL | QueuedDL | StalledDL | CheckingDL | ForcedDL
    | CheckingResumeData | Moving | Unknown

  /** One entry of the remote torrent list; both fields may be absent. */
  datatype Torrent = Torrent(category: Option<string>, state: Option<TorrentState>)

  /** The label set of the per-(category, state) gauge family. */
  datatype Label = Label(category: string, state: string)

  /** The category label used for a torrent that has no category. */
  const NoneCategory: string := "<None>"

  /** The `Debug` rendering of a state: the variant's own name. */
  function StateName(s: TorrentState): string
  {
    match s
    case Error => "Error"
    case MissingFiles => "MissingFiles"
    case Uploading => "Uploading"
    case PausedUP => "PausedUP"
    case QueuedUP => "QueuedUP"
    case StalledUP => "StalledUP"
    case CheckingUP => "CheckingUP"
    case ForcedUP => "ForcedUP"
    case Allocating => "Allocating"
    case Downloading => "Downloading"
    case MetaDL => "MetaDL"
    case PausedDL => "PausedDL"
    case QueuedDL => "QueuedDL"
    case StalledDL => "StalledDL"
    case CheckingDL => "CheckingDL"
    case ForcedDL => "ForcedDL"
    case CheckingResumeData => "CheckingResumeData"
    case Moving => "Moving"
    case Unknown => "Unknown"
  }

  /** Reads a state label back; the partner of StateName. */
  function ParseState(name: string): Option<TorrentState>
  {
    if name == "Error" then Some(Error)
    else if name == "MissingFiles" then Some(MissingFiles)
    else if name == "Uploading" then Some(Uploading)
    else if name == "PausedUP" then Some(PausedUP)
    else if name == "QueuedUP" then Some(QueuedUP)
    else if name == "StalledUP" then Some(StalledUP)
    else if name == "CheckingUP" then Some(CheckingUP)
    else if name == "ForcedUP" then Some(ForcedUP)
    else if name == "Allocating" then Some(Allocating)
    else if name == "Downloading" then Some(Downloading)
    else if name == "MetaDL" then Some(MetaDL)
    else if name == "PausedDL" then Some(PausedDL)
    else if name == "QueuedDL" then Some(QueuedDL)
    else if name == "StalledDL" then Some(StalledDL)
    else if name == "CheckingDL" then Some(CheckingDL)
    else if name == "ForcedDL" then Some(ForcedDL)
    else if name == "CheckingResumeData" then Some(CheckingResumeData)
    else if name == "Moving" then Some(Moving)
    else if name == "Unknown" then Some(Unknown)
    else None
  }

  /** Every state label reads back as the state it was made from, so no two states share a label. */
  lemma StateNameRoundTrip(s: TorrentState)
    ensures ParseState(StateName(s)) == Some(s)
  {
  }

  /** The state a torrent is counted under: its own, or Unknown when it reports none. */
  function EffectiveState(t: Torrent): TorrentState
  {
    t.state.GetOr(Unknown)
  }

  /** The label a torrent is counted under. Total: every torrent has one. */
  function ExtractLabels(t: Torrent): (l: Label)
    ensures t.category.None? ==> l.category == NoneCategory
    ensures t.category.Some? ==> l.category == t.category.value
    ensures t.state.None? ==> ParseState(l.state) == Some(Unknown)
    ensures t.state.Some? ==> ParseState(l.state) == t.state
  {
    var category := t.category.GetOr(NoneCategory);
    var state := EffectiveState(t);
    StateNameRoundTrip(state);
    Label(category, StateName(state))
  }

  /** Two torrents share a label exactly when their defaulted categories and states agree. */
  lemma SameLabelIff(a: Torrent, b: Torrent)
    ensures ExtractLabels(a) == ExtractLabels(b) <==>
              a.category.GetOr(NoneCategory) == b.category.GetOr(NoneCategory)
              && EffectiveState(a) == EffectiveState(b)
  {
  }

  /** A torrent without a state is counted exactly as one that reports Unknown. */
  lemma MissingStateIsUnknown(c: Option<string>)
    ensures ExtractLabels(Torrent(c, None)) == ExtractLabels(Torrent(c, Some(Unknown)))
    ensures ExtractLabels(Torrent(c, None)).state == "Unknown"
  {
  }

  /** A torrent whose category is literally "<None>" shares its label with one that has no category. */
  lemma NoneCategoryIsShared(s: Option<TorrentState>)
    ensures ExtractLabels(Torrent(Some(NoneCategory), s)) == ExtractLabels(Torrent(None, s))
  {
  }
}
