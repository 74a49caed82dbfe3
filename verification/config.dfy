/** The connector's configuration: the defaults a configuration is merged with, and the checks a
    configuration must pass before any stream runs. The parsing of dates and of URLs belongs to
    the host and is a parameter here. */
module Config {
  import opened Values

  /** The fields a configuration must hold, in the order they are checked. */
  const RequiredFields: seq<string> := ["api_key", "api_secret", "endpoint_url", "start_date"]

  const DefaultEndpoint: string := "https://api.livekit.io"

  /** The five streams, in the order the defaults list them. */
  const DefaultStreams: seq<string> := ["rooms", "participants", "quality_metrics", "events", "usage"]

  // ---------------------------------------------------------------------------------------------
  // Defaults

  /** `getDefaultConfig()` */
  function DefaultConfig(): (d: map<string, JsValue>)
    ensures d.Keys == {"endpoint_url", "streams"}
    ensures d["endpoint_url"] == Str(DefaultEndpoint)
    ensures d["streams"].Arr? && |d["streams"].elems| == |DefaultStreams|
    ensures forall i | 0 <= i < |DefaultStreams| :: d["streams"].elems[i] == Str(DefaultStreams[i])
  {
    map["endpoint_url" := Str(DefaultEndpoint),
        "streams" := Arr([Str("rooms"), Str("participants"), Str("quality_metrics"), Str("events"), Str("usage")])]
  }

  /** The own enumerable properties an object spread copies from a configuration: those of an
      object, and none for `null`, `undefined`, a boolean or a number. */
  function OwnEntries(config: JsValue): map<string, JsValue> {
    if config.Obj? then config.fields else map[]
  }

  /** `{ ...getDefaultConfig(), ...config }` */
  function MergeWithDefaults(config: JsValue): map<string, JsValue> {
    DefaultConfig() + OwnEntries(config)
  }

  /** A merged configuration has the defaults' keys and the configuration's own; a field the
      configuration sets keeps its value (falsy or not), and a field it omits takes the
      default. */
  lemma MergeOverrides(config: JsValue)
    ensures MergeWithDefaults(config).Keys == DefaultConfig().Keys + OwnEntries(config).Keys
    ensures forall k | k in OwnEntries(config) :: MergeWithDefaults(config)[k] == OwnEntries(config)[k]
    ensures forall k | k in DefaultConfig() && k !in OwnEntries(config) ::
      MergeWithDefaults(config)[k] == DefaultConfig()[k]
  {
  }

  /** After merging, `endpoint_url` is always present; it is truthy unless the configuration
      itself sets it to a falsy value, which overrides the default. */
  lemma MergedEndpoint(config: JsValue)
    ensures "endpoint_url" in MergeWithDefaults(config)
    ensures Truthy(MergeWithDefaults(config)["endpoint_url"]) <==>
      ("endpoint_url" !in OwnEntries(config) || Truthy(OwnEntries(config)["endpoint_url"]))
  {
    MergeOverrides(config);
  }

  // ---------------------------------------------------------------------------------------------
  // Validation

  /** `config[field]`: a property of an object; any other value has none of these fields. */
  function Field(config: JsValue, field: string): JsValue {
    if config.Obj? then Get(config.fields, field) else Undefined
  }

  function MissingMessage(field: string): string {
    "Required configuration field \"" + field + "\" is missing"
  }

  /** The first of `fields` whose value is falsy. */
  function FirstMissing(config: JsValue, fields: seq<string>): (r: Option<nat>)
    ensures r.Some? ==>
      && r.value < |fields|
      && !Truthy(Field(config, fields[r.value]))
      && forall j | 0 <= j < r.value :: Truthy(Field(config, fields[j]))
    ensures r.None? ==> forall j | 0 <= j < |fields| :: Truthy(Field(config, fields[j]))
  {
    if fields == [] then None
    else if !Truthy(Field(config, fields[0])) then Some(0)
    else
      match FirstMissing(config, fields[1..])
      case None => None
      case Some(i) => Some(i + 1)
  }

  /** `validateConfig(config)`: resolves to `true`, or throws the first problem found. The date
      parser is `new Date(v).getTime()`; `parseUrl(v)` is None when `new URL(v)` succeeds and the
      message of the error it throws otherwise. */
  function ValidateConfig(config: JsValue, parseDate: JsValue -> Epoch, parseUrl: JsValue -> Option<string>): Result<bool, JsError> {
    if !Truthy(config) then Failure(JsError("Config is required"))
    else match FirstMissing(config, RequiredFields)
      case Some(i) => Failure(JsError(MissingMessage(RequiredFields[i])))
      case None =>
        if parseDate(Field(config, "start_date")).NaN? then Failure(JsError("Invalid start_date: Invalid date"))
        else match parseUrl(Field(config, "endpoint_url"))
          case Some(message) => Failure(JsError("Invalid endpoint_url: " + message))
          case None => Success(true)
  }

  /** A configuration is accepted exactly when it is truthy, every required field is truthy,
      the start date parses and the endpoint is a URL. */
  lemma ValidateAccepts(config: JsValue, parseDate: JsValue -> Epoch, parseUrl: JsValue -> Option<string>)
    ensures ValidateConfig(config, parseDate, parseUrl) == Success(true) <==>
      && Truthy(config)
      && (forall j | 0 <= j < |RequiredFields| :: Truthy(Field(config, RequiredFields[j])))
      && parseDate(Field(config, "start_date")).Ms?
      && parseUrl(Field(config, "endpoint_url")).None?
    ensures ValidateConfig(config, parseDate, parseUrl).Success? ==> ValidateConfig(config, parseDate, parseUrl).value
  {
  }

  /** A truthy configuration is rejected for a missing field exactly when that field is the
      first required one, in the order api_key, api_secret, endpoint_url, start_date, whose
      value is falsy. */
  lemma ValidateReportsFirstMissing(config: JsValue, parseDate: JsValue -> Epoch, parseUrl: JsValue -> Option<string>, i: nat)
    requires Truthy(config) && i < |RequiredFields|
    ensures ValidateConfig(config, parseDate, parseUrl) == Failure(JsError(MissingMessage(RequiredFields[i]))) <==>
      && !Truthy(Field(config, RequiredFields[i]))
      && forall j | 0 <= j < i :: Truthy(Field(config, RequiredFields[j]))
  {
    var r := FirstMissing(config, RequiredFields);
    if r.Some? && r.value != i {
      MissingMessageInjective(RequiredFields[r.value], RequiredFields[i]);
    }
    if ValidateConfig(config, parseDate, parseUrl) == Failure(JsError(MissingMessage(RequiredFields[i]))) && r.None? {
      assert Truthy(Field(config, RequiredFields[0]));
      MissingMessageDistinct(RequiredFields[i], parseUrl(Field(config, "endpoint_url")));
    }
  }

  lemma MissingMessageInjective(f: string, g: string)
    requires f in RequiredFields && g in RequiredFields && f != g
    ensures MissingMessage(f) != MissingMessage(g)
  {
    assert MissingMessage(f)[30] != MissingMessage(g)[30] || MissingMessage(f)[34] != MissingMessage(g)[34];
  }

  /** No missing-field message reads like the date or URL messages. */
  lemma MissingMessageDistinct(f: string, url: Option<string>)
    ensures MissingMessage(f) != "Invalid start_date: Invalid date"
    ensures url.Some? ==> MissingMessage(f) != "Invalid endpoint_url: " + url.value
  {
    assert MissingMessage(f)[0] == 'R';
  }

  /** With all required fields present, an unparseable start date is reported before the
      endpoint is looked at, and an invalid endpoint carries the URL parser's message. */
  lemma ValidateChecksDateThenUrl(config: JsValue, parseDate: JsValue -> Epoch, parseUrl: JsValue -> Option<string>)
    requires Truthy(config)
    requires forall j | 0 <= j < |RequiredFields| :: Truthy(Field(config, RequiredFields[j]))
    ensures parseDate(Field(config, "start_date")).NaN? ==>
      ValidateConfig(config, parseDate, parseUrl) == Failure(JsError("Invalid start_date: Invalid date"))
    ensures parseDate(Field(config, "start_date")).Ms? && parseUrl(Field(config, "endpoint_url")).Some? ==>
      ValidateConfig(config, parseDate, parseUrl)
        == Failure(JsError("Invalid endpoint_url: " + parseUrl(Field(config, "endpoint_url")).value))
  {
  }

  /** Merging first means an omitted endpoint is never the reason a configuration is rejected:
      the default fills it and is a URL whenever the URL parser accepts it. */
  lemma MergedEndpointNeverMissing(config: JsValue, parseDate: JsValue -> Epoch, parseUrl: JsValue -> Option<string>)
    requires "endpoint_url" !in OwnEntries(config)
    ensures var merged := Obj(MergeWithDefaults(config));
      ValidateConfig(merged, parseDate, parseUrl) != Failure(JsError(MissingMessage("endpoint_url")))
  {
    var merged := Obj(MergeWithDefaults(config));
    assert Field(merged, "endpoint_url") == Str(DefaultEndpoint);
    ValidateReportsFirstMissing(merged, parseDate, parseUrl, 2);
  }
}
