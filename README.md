# fluentd-metrics: publishing model

fluentd-metrics polls the log forwarder's statistics endpoint
(`<base>/api/plugins.json`). It sends each output plugin's buffer and retry
counters to a Datadog statsd agent as gauges. Each gauge is tagged with the
node, the Kubernetes cluster, the plugin id and the plugin type. This project
models one poll cycle, `publishMetrics`, and the fetch it depends on,
`getMetrics`. It proves which plugins are reported, which gauges and tags they
get, in what order, how many there are, and what happens when the fetch fails.

Files and modules:

- `wrappers.dfy` (`Wrappers`): `Option` and `Result`. A Go `error` that may be
  nil, and a `(value, error)` pair.
- `stats.dfy` (`Stats`): the decoded statistics records (`PluginStat`,
  `FluentStats`), the configuration (`Config`), the request URL and
  `GetMetrics`. The network is a parameter. A `Server` maps each URL to the
  `Exchange` a GET of it yields: a transport failure, a read failure, or a
  body that was read and decoded. A delivered body carries the record the
  decoder left behind and the error the decoder returned.
- `tagging.dfy` (`Tagging`): the four `key:value` tags. It also holds
  `SplitTag`, a reference parser that splits a tag at its first colon into key
  and value. It is used to prove that every tag carries its field verbatim.
- `publish.dfy` (`Publish`): the qualification test, the per-plugin gauges,
  the specification function `Emissions`, the cycle function `Cycle`, the
  imperative `PublishMetrics` loop proved against them, and the lemmas.

Gauge values are Go `float64` numbers that are only passed along and never
computed with. The model keeps them as their 64-bit IEEE-754 bit pattern
(`Float64(bits: bv64)`). The sample rate is the real number 1.

Behaviour of `main.go` worth noting:

- The decoder's error is discarded. At main.go:51 the result of `json.Unmarshal`
  is not assigned. The `err` tested at main.go:52 is the earlier read error,
  which is already known to be nil. So a body that is not JSON gives a
  successful, empty snapshot, not a fetch error. `GetMetrics` and
  `CycleErrors` state this.
- Errors from the statsd client's `Gauge` are ignored (main.go:78-80). A
  send failure therefore never becomes a publish error. `publishMetrics` fails
  only when the fetch fails.
- The three gauges take three distinct fields, as named.
- The HTTP status code is never checked. Any response whose body can be read
  counts as delivered.

## Model

| member | source | states |
|---|---|---|
| `Stats.PluginsUrl` | main.go:65 | The requested URL is the base URL followed by `/api/plugins.json`: the base is its prefix and the path its suffix. |
| `Stats.GetMetrics` | main.go:40-56 | The fetch fails exactly when the transport or the body read fails, with that error. Otherwise it succeeds with whatever the decoder left in the record, whatever error the decoder returned. |
| `Tagging.Tags` | main.go:71-76 | Every plugin gets exactly four tags. |
| `Tagging.SplitJoin` | main.go:71-76 | A tag built as key, `:` and value, with a colon-free key, reads back as exactly that key and value. The value may be empty or contain colons. |
| `Tagging.TagsReadBack` | main.go:71-76 | The i-th tag reads back as key `nodename`, `kube_cluster`, `plugin_id`, `plugin_type` (in that order) with the hostname, cluster name, plugin id and plugin type copied verbatim. |
| `Publish.Qualifies` | main.go:77 | A plugin is reported exactly when it is an output plugin and its type is not `"null"`. |
| `Publish.PluginGauges` | main.go:77-81 | A plugin yields three gauges if it is an output plugin whose type is not `"null"`, and none otherwise. |
| `Publish.Qualifying` | main.go:77 | A plugin is among the reported ones if and only if it is in the snapshot, is an output plugin, and its type is not `"null"`. There are never more reported plugins than plugins. |
| `Publish.Filtered` | main.go:77 | A plugin is among the skipped ones if and only if it is in the snapshot and is not an output plugin or has type `"null"`. |
| `Publish.Partition` | main.go:70-82 | The number of reported plugins plus the number of skipped plugins is the number of plugins in the snapshot. |
| `Publish.Emissions` | main.go:70-82 | A snapshot emits exactly three gauges per qualifying plugin. |
| `Publish.Cycle` | main.go:64-85 | A cycle returns an error if and only if the fetch failed. That error is the fetch's, and nothing is emitted. A successful fetch returns nil and emits three gauges per qualifying plugin. |
| `Publish.PublishMetrics` | main.go:64-85 | The loop over the plugins sends exactly the gauges of `Emissions` for the fetched snapshot, in order, and returns nil. A failed fetch of `<base>/api/plugins.json` returns its error with nothing sent. |
| `Publish.EmissionsAppend` | main.go:70-82 | Gauges appear in snapshot order, grouped per plugin. The emissions of a concatenation are the concatenation of the emissions. |
| `Publish.QualifyingAppend` | main.go:70-77 | The plugins are filtered in snapshot order. Filtering a concatenation concatenates the filtered parts. |
| `Publish.EmissionAt` | main.go:70-82 | Gauge `3k+j` belongs to the k-th qualifying plugin. It is named `buffer_queue_len`, `buffer_total_queued_size` or `retry_count` for j = 0, 1, 2, and carries `BufferQueueLen`, `BufferTotalQueueSize` or `RetryCount` respectively. It has that plugin's four tags and sample rate 1. |
| `Publish.EmissionsFromQualifying` | main.go:71-81 | Every emitted gauge has one of the three names, sample rate 1, four tags, and the tags of some qualifying plugin of the snapshot. |
| `Publish.NonQualifyingSilent` | main.go:77 | Inserting a plugin that is not an output plugin, or whose type is `"null"`, anywhere in a snapshot changes nothing emitted. |
| `Publish.SinglePlugin` | main.go:77-81 | A single qualifying plugin emits its three counters under their names, in order. A single non-qualifying plugin emits nothing. |
| `Publish.CycleErrors` | main.go:42-55 | A transport or read failure is returned as the cycle's error with nothing sent. A body that is not JSON leaves the zero snapshot, so the cycle sends nothing and returns nil. |
| `Publish.WorkedExample` | main.go:70-81 | Plugin `out1` of type `file` with counters 5, 1024 and 2 yields exactly three gauges carrying those values, each tagged `nodename:<host>`, `kube_cluster:<cluster>`, `plugin_id:out1`, `plugin_type:file`. |

## Left out

- The HTTP GET, reading the body and JSON decoding (main.go:42-51) are network I/O and library code. They appear only as the `Exchange` a `Server` yields for a URL. Closing the response body is not modelled.
- The statsd client is a foreign library (main.go:97-102). This covers its construction, buffering, the `fluentd.` namespace prefix it adds to gauge names, and its socket sends. The model records the `Gauge` calls in order as `PublishMetrics`'s `emitted` sequence. The calls' ignored errors are not modelled.
- Flag parsing (main.go:23-26, 88) and the hostname lookup with its fatal exit (main.go:90-93) are startup I/O. The configuration is given as a `Config` value. `fluentUrl` is the text that `%s` prints for the parsed URL; URL parsing and normalisation are not modelled.
- The endless poll loop with logging and sleeping (main.go:111-117) runs forever and is driven by time. It only logs the error of each cycle and carries on; each cycle is `PublishMetrics`.
- Floating-point semantics of the gauge values are not modelled. The values are copied, never computed with, so only their bit patterns are kept.
- The tag slice is built for every plugin, including plugins that are then skipped (main.go:71-76). This allocation has no observable effect and is not reflected beyond building the tags inside the loop.
