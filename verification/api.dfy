/** What the streams consume from outside: the LiveKit HTTP endpoints, reduced to functions from
    a request to a response or a transport error, and the host's clock, date parsing and
    formatting, number formatting and SHA-256, all of which are parameters of the model. */
module Api {
  import opened Values
  import opened Records

  /** `params.limit` of every paged request, and the "more pages" test. */
  const PageLimit: nat := 100

  /** The query parameters of a GET; an absent parameter is None (or Undefined for `from`,
      which the source copies from the configuration). */
  datatype Query = Query(
    from: JsValue,
    to: Option<string>,
    limit: Option<nat>,
    offset: Option<nat>,
    active: Option<bool>)

  /** A GET without parameters. */
  const NoQuery: Query := Query(Undefined, None, None, None, None)

  /** The authenticated client: one function per endpoint. Each response's `data.items` (or
      `data` for metrics and usage) is None when the field is absent. */
  datatype Api = Api(
    rooms: Query -> Result<Option<seq<RawRoom>>, JsError>,                       // GET /rooms
    participants: (string, Query) -> Result<Option<seq<RawParticipant>>, JsError>, // GET /rooms/{room}/participants
    metrics: (string, string) -> Result<Option<RawMetrics>, JsError>,            // GET /rooms/{room}/participants/{p}/metrics
    events: Query -> Result<Option<seq<RawEvent>>, JsError>,                     // GET /events
    usage: Query -> Result<Option<RawUsage>, JsError>)                           // GET /usage

  /** The host services the streams call. */
  datatype Env = Env(
    today: string,                    // moment().format('YYYY-MM-DD')
    formatDay: int -> string,         // moment(ms).format('YYYY-MM-DD')
    parseDate: JsValue -> Epoch,      // new Date(v).getTime()
    parseDay: string -> Epoch,        // moment(s, 'YYYY-MM-DD').valueOf(), in local time
    now: nat -> int,                  // new Date().getTime() at the k-th clock read of a run
    isoString: int -> string,         // new Date(ms).toISOString()
    showNumber: real -> string,       // String(n)
    sha256: string -> HexDigest)      // crypto.createHash('sha256').update(s).digest('hex')

  /** `response.data.items || []` */
  function Items<T>(data: Option<seq<T>>): seq<T> {
    data.GetOr([])
  }
}
