/**
 * The records decoded from the log forwarder's statistics endpoint, the
 * poller's configuration, and the fetch of one statistics snapshot
 * (main.go: fluentStats, config, getMetrics).
 */
module Stats {
  import opened Wrappers

  /**
   * A JSON number decoded into a Go float64. The poller never computes with
   * these values, it only hands them on, so the model keeps the IEEE-754 bit
   * pattern and nothing else.
   */
  datatype Float64 = Float64(bits: bv64)

  /** One element of the `plugins` array of the statistics document. */
  datatype PluginStat = PluginStat(
    pluginId: string,             // "plugin_id"
    pluginType: string,           // "type"
    outputPlugin: bool,           // "output_plugin"
    bufferQueueLen: Float64,      // "buffer_queue_length"
    bufferTotalQueueSize: Float64, // "buffer_total_queued_size"
    retryCount: Float64)          // "retry_count"

  /** The decoded statistics document: the plugin records, in response order. */
  datatype FluentStats = FluentStats(plugins: seq<PluginStat>)

  /** The zero value of the document, which is what a body that is not JSON leaves behind. */
  const ZeroStats := FluentStats([])

  /**
   * The poller's read-only configuration. `fluentUrl` is the textual form of
   * the statistics endpoint's base URL (what `%s` prints for it).
   */
  datatype Config = Config(fluentUrl: string, hostname: string, clusterName: string)

  /** A Go error value, identified by its message. */
  datatype Error = Error(message: string)

  /**
   * What one HTTP GET of a URL comes to, up to and including decoding:
   * the request fails in transport, the body fails while being read, or
   * the body is read in full and decoded. `decoded` is what the decoder
   * left in the target record and `decodeErr` is the error it returned.
   */
  datatype Exchange =
    | TransportFailure(err: Error)
    | ReadFailure(err: Error)
    | Delivered(decoded: FluentStats, decodeErr: Option<Error>)

  /** The statistics endpoint as seen by the poller: the exchange a GET of each URL yields. */
  type Server = string -> Exchange

  /** The path under the base URL that serves the plugin statistics. */
  const PluginsPath := "/api/plugins.json"

  /** The URL the poller requests: the base URL followed by the plugins path. */
  function PluginsUrl(base: string): (url: string)
    ensures |url| == |base| + |PluginsPath|
    ensures url[..|base|] == base && url[|base|..] == PluginsPath
  {
    base + PluginsPath
  }

  /**
   * Fetches one snapshot from `url`. Only a transport failure or a read
   * failure is reported; the decoder's own error is discarded, so a body
   * that does not decode still yields a snapshot.
   */
  function GetMetrics(server: Server, url: string): (r: Result<FluentStats, Error>)
    ensures r.Failure? <==> !server(url).Delivered?
    ensures r.Failure? ==> r.error == server(url).err
    ensures r.Success? ==> r.value == server(url).decoded
  {
    match server(url)
    case TransportFailure(err) => Failure(err)
    case ReadFailure(err) => Failure(err)
    case Delivered(decoded, _) => Success(decoded)
  }
}
