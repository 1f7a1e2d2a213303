/** The exporter's metric state and the update cycle that refreshes it from the torrent client. */
module Metrics {
  import opened Results
  import opened Labels
  import opened Aggregation
  import opened Counters

  /** The client's link state, as the client library enumerates it. */
  datatype ConnectionStatus = Connected | Firewalled | Disconnected

  /** The already-fetched "transfer info" response: link state, DHT node count and cumulative totals. */
  datatype TransferInfo = TransferInfo(
    connectionStatus: ConnectionStatus,
    dhtNodes: nat,
    dlInfoData: nat,
    upInfoData: nat)

  /** The status gauge's value for a link state. */
  function StatusValue(c: ConnectionStatus): (v: int)
    ensures v == 1 <==> c == Connected
    ensures v == 0 <==> c != Connected
  {
    if c == Connected then 1 else 0
  }

  /** `try_join` of the two halves, with its `Ok(_)` mapped to `()`: it passes only when both pass. */
  function TryJoin(status: Outcome, torrents: Outcome): (r: Outcome)
    ensures r.Pass? <==> status.Pass? && torrents.Pass?
    ensures r.Fail? ==> r == status || r == torrents
    ensures status.Pass? && torrents.Fail? ==> r == torrents
    ensures status.Fail? && torrents.Pass? ==> r == status
  {
    if status.Fail? then status else torrents
  }

  /** The five metrics the exporter exposes, as they stand between scrapes. */
  class QBitMetrics {
    var status: int
    var dhtNodes: int
    var downloaded: nat
    var uploaded: nat
    var torrentCategory: map<Label, int>

    /** Every series the family holds counts at least one torrent: no zero series is left behind. */
    ghost predicate Valid()
      reads this
    {
      forall l :: l in torrentCategory ==> torrentCategory[l] >= 1
    }

    /** Every metric starts at its default: zero gauges, zero counters, an empty family. */
    constructor ()
      ensures status == 0 && dhtNodes == 0
      ensures downloaded == 0 && uploaded == 0
      ensures torrentCategory == map[]
      ensures Valid()
    {
      status, dhtNodes := 0, 0;
      downloaded, uploaded := 0, 0;
      torrentCategory := map[];
    }

    /** The status half: overwrite both gauges and raise each counter by `remote - local`. */
    method ReportStatusMetrics(fetched: Result<TransferInfo>) returns (r: Outcome)
      requires Valid()
      requires fetched.Ok? ==> downloaded <= fetched.value.dlInfoData && uploaded <= fetched.value.upInfoData
      modifies this`status, this`dhtNodes, this`downloaded, this`uploaded
      ensures Valid()
      ensures r.Pass? <==> fetched.Ok?
      ensures fetched.Err? ==> r == Fail(fetched.error)
      ensures fetched.Err? ==> status == old(status) && dhtNodes == old(dhtNodes)
      ensures fetched.Err? ==> downloaded == old(downloaded) && uploaded == old(uploaded)
      ensures fetched.Ok? ==> status == StatusValue(fetched.value.connectionStatus)
      ensures fetched.Ok? ==> dhtNodes == fetched.value.dhtNodes
      ensures fetched.Ok? ==> downloaded == fetched.value.dlInfoData && uploaded == fetched.value.upInfoData
      ensures downloaded >= old(downloaded) && uploaded >= old(uploaded)
      ensures torrentCategory == old(torrentCategory)
    {
      if fetched.Err? {
        return Fail(fetched.error);
      }
      var info := fetched.value;
      if info.connectionStatus == Connected {
        status := 1;
      } else {
        status := 0;
      }
      dhtNodes := info.dhtNodes;
      var downloadInc := Increment(downloaded, info.dlInfoData);
      downloaded := downloaded + downloadInc;
      var uploadInc := Increment(uploaded, info.upInfoData);
      uploaded := uploaded + uploadInc;
      r := Pass;
    }

    /** The torrent half: count the list by label, then replace the family's contents with those counts. */
    method ReportTorrentMetrics(fetched: Result<seq<Torrent>>) returns (r: Outcome)
      requires Valid()
      modifies this`torrentCategory
      ensures Valid()
      ensures r.Pass? <==> fetched.Ok?
      ensures fetched.Err? ==> r == Fail(fetched.error) && torrentCategory == old(torrentCategory)
      ensures fetched.Ok? ==> torrentCategory == Tally(fetched.value)
      ensures fetched.Ok? ==> torrentCategory.Keys == LabelSet(fetched.value)
      ensures fetched.Ok? ==> forall l :: l in torrentCategory ==> torrentCategory[l] == CountOf(fetched.value, l)
      ensures fetched.Ok? ==> SumValues(torrentCategory) == |fetched.value|
      ensures status == old(status) && dhtNodes == old(dhtNodes)
      ensures downloaded == old(downloaded) && uploaded == old(uploaded)
    {
      if fetched.Err? {
        return Fail(fetched.error);
      }
      var stats := CountLabels(fetched.value);
      TallySum(fetched.value);
      SetFamily(stats);
      r := Pass;
    }

    /** Clear the family, then create and set one series per entry of `stats`. */
    method SetFamily(stats: map<Label, int>)
      modifies this`torrentCategory
      ensures torrentCategory == stats
    {
      torrentCategory := map[];
      var pending := stats.Keys;
      while pending != {}
        invariant pending <= stats.Keys
        invariant torrentCategory.Keys == stats.Keys - pending
        invariant forall l :: l in torrentCategory ==> torrentCategory[l] == stats[l]
        decreases pending
      {
        var labels :| labels in pending;
        torrentCategory := torrentCategory[labels := stats[labels]];
        pending := pending - {labels};
      }
    }

    /** One scrape: run both halves and report success only if both succeeded. */
    method UpdateMetrics(statusFetch: Result<TransferInfo>, torrentFetch: Result<seq<Torrent>>) returns (r: Outcome)
      requires Valid()
      requires statusFetch.Ok? ==>
                 downloaded <= statusFetch.value.dlInfoData && uploaded <= statusFetch.value.upInfoData
      modifies this
      ensures Valid()
      ensures r.Pass? <==> statusFetch.Ok? && torrentFetch.Ok?
      ensures statusFetch.Err? ==> r == Fail(statusFetch.error)
      ensures statusFetch.Ok? && torrentFetch.Err? ==> r == Fail(torrentFetch.error)
      ensures statusFetch.Err? ==> status == old(status) && dhtNodes == old(dhtNodes)
      ensures statusFetch.Err? ==> downloaded == old(downloaded) && uploaded == old(uploaded)
      ensures statusFetch.Ok? ==> status == StatusValue(statusFetch.value.connectionStatus)
      ensures statusFetch.Ok? ==> dhtNodes == statusFetch.value.dhtNodes
      ensures statusFetch.Ok? ==>
                downloaded == statusFetch.value.dlInfoData && uploaded == statusFetch.value.upInfoData
      ensures torrentFetch.Err? ==> torrentCategory == old(torrentCategory)
      ensures torrentFetch.Ok? ==> torrentCategory == Tally(torrentFetch.value)
      ensures downloaded >= old(downloaded) && uploaded >= old(uploaded)
    {
      var statusResult := ReportStatusMetrics(statusFetch);
      var torrentResult := ReportTorrentMetrics(torrentFetch);
      r := TryJoin(statusResult, torrentResult);
    }
  }

  /** Three scrapes in a row: the first sets every metric, the second fails in its torrent half,
      the third replaces the family. */
  method ScrapeSequence()
  {
    var m := new QBitMetrics();
    var movies := Torrent(Some("movies"), Some(StalledUP));
    var loose := Torrent(None, Some(Downloading));
    var first := [movies, movies, loose];
    var r := m.UpdateMetrics(Ok(TransferInfo(Connected, 12, 1000, 500)), Ok(first));
    assert r == Pass;
    assert m.status == 1 && m.dhtNodes == 12 && m.downloaded == 1000 && m.uploaded == 500;
    var seeding, leeching := Label("movies", "StalledUP"), Label("<None>", "Downloading");
    assert ExtractLabels(movies) == seeding && ExtractLabels(loose) == leeching;
    assert first[..2] == [movies, movies] && first[..2][..1] == [movies] && [movies][..0] == [];
    assert Tally([movies]) == map[seeding := 1];
    assert Tally(first[..2]) == map[seeding := 2];
    assert m.torrentCategory == map[seeding := 2, leeching := 1];

    var fault := FetchError("connection refused");
    r := m.UpdateMetrics(Ok(TransferInfo(Disconnected, 0, 1500, 500)), Err(fault));
    assert r == Fail(fault);
    assert m.status == 0 && m.downloaded == 1500;
    assert m.torrentCategory == map[seeding := 2, leeching := 1];

    r := m.UpdateMetrics(Ok(TransferInfo(Connected, 9, 1500, 600)), Ok([loose]));
    assert r == Pass;
    assert [loose][..0] == [];
    assert m.torrentCategory == map[leeching := 1];
    assert seeding !in m.torrentCategory;
  }
}
