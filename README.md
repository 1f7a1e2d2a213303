# qBittorrent Prometheus exporter: the metrics state, in Dafny

This project models `QBitMetrics`, the part of the qBittorrent exporter that turns the
client's answers into Prometheus metrics. There are five pieces of state. Two are gauges:
the connection status (0/1) and the DHT node count. Two are counters: bytes downloaded and
bytes uploaded. The last is a gauge family keyed by (category, state) that counts torrents.

One scrape runs two halves:

- the **status half** overwrites both gauges and raises each counter by the difference
  between the client's cumulative total and the local counter;
- the **torrent half** derives a label for each torrent, counts the list by label, clears the
  family and sets exactly the counts of this list.

The scrape succeeds only if both halves succeed. The remote calls are out of the model: each
half receives what its fetch delivered, as `Ok(response)` or `Err(error)`.

Files:

- `Results.dfy`: optional fields, fetch results, the pass/fail outcome of a half.
- `Labels.dfy`: torrent states, the label of a torrent (`ExtractLabels`), and `ParseState`,
  which reads a state label back.
- `Aggregation.dfy`: the counting loop (`CountLabels`), its specification `Tally`, a reference
  count `CountOf` (the number of positions in the list that carry a label), and the lemmas
  that connect them.
- `Counters.dfy`: the counter increment as the source computes it, the same increment under
  64-bit wrap-around, the clamped reconciliation the design asks for, and lemmas about
  successive cycles.
- `Metrics.dfy`: the class `QBitMetrics` with its constructor and the three update methods,
  the result combination `TryJoin`, and a client `ScrapeSequence` that runs three scrapes in a row.

Where the design and the code disagree, the model follows the code:

- **Counter regression.** The design asks for a zero increment when the remote total falls
  below the local counter. The code subtracts unsigned values with no clamp (see Findings).
  `ReportStatusMetrics` therefore requires `remote >= local`, the only case where the code's
  behaviour is the intended one.
- **Partial failure.** The design says a failed fetch leaves every metric untouched. In the
  code the two halves are independent: a successful status fetch still updates the gauges and
  counters when the torrent fetch fails, and the reverse. `UpdateMetrics` states this.
- **Atomic replacement.** The design asks that replacing the family look atomic to readers.
  The code clears the family and then sets each label. The model performs these steps in
  sequence and has no concurrent readers.

## Model

| member | source | states |
|---|---|---|
| Labels.ExtractLabels | src/metrics.rs:155-161 | total; a missing category gives "<None>" and a present one passes through unchanged; the state label reads back as the torrent's state, or as Unknown when it has none |
| Labels.StateNameRoundTrip | src/metrics.rs:158 | the `Debug` name of each state reads back as that state, so no two states share a label |
| Labels.SameLabelIff | src/metrics.rs:155-160 | two torrents get the same label exactly when their defaulted categories and defaulted states are equal |
| Labels.MissingStateIsUnknown | src/metrics.rs:157-158 | a torrent with no state is labelled exactly like one that reports Unknown, and its state label is "Unknown" |
| Labels.NoneCategoryIsShared | src/metrics.rs:156 | a torrent whose category is literally "<None>" is counted with the torrents that have no category |
| Aggregation.Bump | src/metrics.rs:141-143 | one loop step adds the label and raises its count by one, starting from 0 when absent; every other entry is unchanged |
| Aggregation.CountLabels | src/metrics.rs:138-144 | the loop's map has exactly the labels of the list as keys, each mapped to the number of torrents with that label, and each count is at least 1 |
| Aggregation.TallyCounts | src/metrics.rs:138-144 | the counted map's keys are exactly the list's labels, and each value is the number of positions that carry that label |
| Aggregation.UnlistedLabelCountsZero | src/metrics.rs:138-144 | a label missing from the counted map matches no torrent |
| Aggregation.TallyPositive | src/metrics.rs:141-143 | every count in the map is at least 1 |
| Aggregation.TallySum | src/metrics.rs:138-144 | the counts add up to the number of torrents |
| Counters.Increment | src/metrics.rs:126-129 | when the remote total is at least the local counter, the increment takes the counter exactly to the remote total |
| Counters.WrappingSub | src/metrics.rs:126 | unsigned subtraction without overflow checks: the plain difference, or the difference plus 2^64 when it would be negative |
| Counters.WrappingAdd | src/metrics.rs:127 | `inc_by` on the 64-bit atomic cell: the sum, less 2^64 when it overflows |
| Counters.CounterAfterAsWritten | src/metrics.rs:126-130 | as written, with wrap-around, a counter after one update equals the remote total, even when that total went backwards |
| Counters.RegressionLowersCounterAsWritten | src/metrics.rs:126-127 | as written, a local 500 and a remote 200 leave the counter at 200, so it decreases |
| Counters.Reconcile | src/metrics.rs:126-130 | corrected increment: never below the local counter; equal to the remote total when that total has not gone backwards, else unchanged |
| Counters.ReconcileAgreesWithSource | src/metrics.rs:126-130 | when the remote total has not gone backwards, the corrected increment, the source's increment and the wrapping one give the same counter |
| Counters.RunIsRunningMax | src/metrics.rs:126-130 | over successive cycles, the reconciled counter is the largest remote total seen so far |
| Counters.RunNeverDecreases | src/metrics.rs:126-130 | one more cycle never lowers the reconciled counter |
| Counters.RunTracksNonDecreasing | src/metrics.rs:126-130 | when the remote totals never go backwards, the counter equals the latest total exactly |
| Counters.RegressionLeavesRunUnchanged | src/metrics.rs:126-130 | after a remote total below the counter, the reconciled counter keeps its previous value |
| Metrics.StatusValue | src/metrics.rs:118-122 | the status gauge value is 1 exactly when the client is Connected, and 0 otherwise |
| Metrics.TryJoin | src/metrics.rs:105-112 | the scrape passes exactly when both halves pass; a failure carries the error of one of the halves, namely the failing one when only one fails |
| Metrics.QBitMetrics.constructor | src/metrics.rs:44-86 | both gauges and both counters start at 0 and the family starts empty |
| Metrics.QBitMetrics.ReportStatusMetrics | src/metrics.rs:115-133 | a failed fetch returns its error and changes nothing; otherwise status is 1 exactly when Connected, the DHT gauge is the reported count, each counter equals the remote total and has not decreased, and the family is untouched, so every family series still counts at least one torrent |
| Metrics.QBitMetrics.ReportTorrentMetrics | src/metrics.rs:135-153 | a failed fetch returns its error and leaves the family as it was; otherwise the family's keys are exactly this list's labels (no earlier label survives), each value is its count and at least 1, the values add up to the list length, and gauges and counters are untouched |
| Metrics.QBitMetrics.SetFamily | src/metrics.rs:147-150 | after clearing the family and setting one series per entry, the family equals the counted map |
| Metrics.QBitMetrics.UpdateMetrics | src/metrics.rs:105-113 | Ok exactly when both fetches succeeded; the status metrics change only if the status fetch succeeded and the family only if the torrent fetch did; an error from either half is returned; every family series counts at least one torrent before and after |

## Left out

- Building the HTTP client (URL parsing, credentials, TCP keep-alive, no idle pooling), src/metrics.rs:89-103: library configuration with nothing to prove.
- Metric names, help text, units and registry registration, src/metrics.rs:45-79: library calls. Only the initial values are modelled.
- The remote calls `get_transfer_info` and `get_torrent_list`: each half takes the fetched response or error as a parameter.
- Concurrency of `future::try_join`: the two halves run in sequence, status first, and there are no concurrent readers of the family.
- Metrics.TryJoin: when both halves fail, `try_join` returns whichever error comes first in time. The model returns the status half's error.
- Metrics.QBitMetrics.UpdateMetrics: when one half fails first, `try_join` drops the other future, which may not have reached its updates yet. The model assumes every half whose fetch succeeded runs to completion.
- Metrics.QBitMetrics.ReportStatusMetrics: requires both remote totals to be at least the local counters. The source has no such guard: a debug build panics on the subtraction and a release build wraps. That behaviour is modelled separately by `Counters.CounterAfterAsWritten` (see Findings).
- Metrics.QBitMetrics.ReportStatusMetrics: the `u64` to `i64` cast of the DHT node count is not modelled. Counts of 2^63 and above, which would wrap, are out of scope.
- The counters in the class are unbounded naturals. Their 64-bit width is modelled only in `Counters`.
- The state and connection-status enumerations come from the qBittorrent client library, which is not part of this model. `TorrentState` is assumed to have the variants that qBittorrent's torrent states are usually mapped to, and `StateName` is assumed to give each variant's `Debug` name. The model assumes that every state in the list decodes to one of these variants. Whether the library maps an unrecognised state value to `Unknown` or fails the whole torrent fetch (the error return at src/metrics.rs:136) is outside the model.
- src/main.rs (the HTTP server loop, runtime, logging, text encoding of the registry or of the error) and src/cli.rs (argument defaults): plumbing with no logic to model.

## Findings

| source | as written | input that shows it | evidently intended | confidence | as-written member | corrected member |
|---|---|---|---|---|---|---|
| src/metrics.rs:126-130 | `info.dl_info_data - counter.get()` (and the same for upload) is an unsigned subtraction with no clamp | local downloaded counter 500; the client restarts and reports 200 | an increment of 0, so the counter stays 500 and never decreases | not executed; a debug build panics on the subtraction, a release build wraps and the counter drops to 200 | Counters.CounterAfterAsWritten, Counters.RegressionLowersCounterAsWritten | Counters.Reconcile, Counters.RegressionLeavesRunUnchanged |
