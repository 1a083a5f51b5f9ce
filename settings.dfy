/** The merge applied by a POST to the serial-settings endpoint: the request's
    `port` and `baud` replace the stored ones when they are truthy.  Reading
    and writing the TOML file are not modelled; the configuration document is
    passed in and returned. */
module SerialSettings {
  import opened Wrappers

  /** A decoded JSON or TOML value. */
  datatype Json =
    | Null
    | Bool(b: bool)
    | Int(i: int)
    | Real(x: real)
    | Str(s: string)
    | Arr(items: seq<Json>)
    | Obj(fields: map<string, Json>)

  /** Python truthiness of a decoded value. */
  predicate Truthy(v: Json) {
    match v
    case Null => false
    case Bool(b) => b
    case Int(i) => i != 0
    case Real(x) => x != 0.0
    case Str(s) => s != ""
    case Arr(items) => items != []
    case Obj(fields) => fields != map[]
  }

  /** The configuration document: its top-level tables by name. */
  type Config = map<string, Json>

  const SerialTable: string := "serial"

  datatype PyError = AttributeError | KeyError(key: string) | TypeError

  /** What the endpoint does: answers with the (possibly updated) document, whether
      it was written back, and the serial table it reports; or raises. */
  datatype Post = Answered(config: Config, persisted: bool, response: Json) | Raised(error: PyError)

  /** `d.get(key)`: the value, or `None` when absent. */
  function Get(d: map<string, Json>, key: string): Json {
    if key in d then d[key] else Null
  }

  /** `config['serial'][field] = value`. */
  function Assign(config: Config, field: string, value: Json): (r: Option<Config>)
    ensures r.Some? <==> SerialTable in config && config[SerialTable].Obj?
    ensures r.Some? ==> r.value.Keys == config.Keys
  {
    if SerialTable !in config then None
    else match config[SerialTable]
      case Obj(fields) => Some(config[SerialTable := Obj(fields[field := value])])
      case _ => None
  }

  /** `config['serial'][field] = value` when `value` is truthy. */
  function AssignIfTruthy(config: Config, field: string, value: Json): Option<Config> {
    if Truthy(value) then Assign(config, field, value) else Some(config)
  }

  /** `request_data.get('port')` and `request_data.get('baud')`. */
  function PortOf(request: Json): Json {
    if request.Obj? then Get(request.fields, "port") else Null
  }

  function BaudOf(request: Json): Json {
    if request.Obj? then Get(request.fields, "baud") else Null
  }

  /** The POST branch of `settings_serial` on the loaded document. */
  function PostSerial(config: Config, request: Json): (r: Post)
    // a request body that is not a JSON object fails on `.get`
    ensures !request.Obj? ==> r == Raised(AttributeError)
    // with an object body, a missing serial table is a KeyError, a serial value
    // that is not a table a TypeError
    ensures request.Obj? && r.Raised? ==>
      r.error == if SerialTable in config then TypeError else KeyError(SerialTable)
    // a well-formed document and an object body always get an answer
    ensures request.Obj? && SerialTable in config && config[SerialTable].Obj? ==> r.Answered?
    // the document is written back exactly when the body is a non-empty object
    ensures r.Answered? ==> r.persisted == Truthy(request)
    // the answer is the serial table of the resulting document
    ensures r.Answered? ==> SerialTable in r.config && r.response == r.config[SerialTable]
    // no other table is touched
    ensures r.Answered? ==> r.config.Keys == config.Keys
    ensures r.Answered? ==> forall k :: k in config && k != SerialTable ==> r.config[k] == config[k]
    // port and baud are replaced by truthy request values and otherwise kept;
    // every other field of the serial table is kept
    ensures r.Answered? && Truthy(request) && (Truthy(PortOf(request)) || Truthy(BaudOf(request))) ==>
      && config[SerialTable].Obj? && r.config[SerialTable].Obj?
      && var before, after := config[SerialTable].fields, r.config[SerialTable].fields;
      && Get(after, "port") == (if Truthy(PortOf(request)) then PortOf(request) else Get(before, "port"))
      && Get(after, "baud") == (if Truthy(BaudOf(request)) then BaudOf(request) else Get(before, "baud"))
      && after.Keys == before.Keys + (if Truthy(PortOf(request)) then {"port"} else {})
                                   + (if Truthy(BaudOf(request)) then {"baud"} else {})
      && forall f :: f != "port" && f != "baud" ==> Get(after, f) == Get(before, f)
    // nothing changes unless the body is non-empty and carries a truthy port or baud
    ensures r.Answered? && !(Truthy(request) && (Truthy(PortOf(request)) || Truthy(BaudOf(request)))) ==>
      r.config == config
    // with nothing to assign, the stored serial value is answered as it is,
    // table or not, so a TypeError needs an assignment
    ensures request.Obj? && SerialTable in config && !(Truthy(request) && (Truthy(PortOf(request)) || Truthy(BaudOf(request)))) ==>
      r == Answered(config, Truthy(request), config[SerialTable])
  {
    if !request.Obj? then Raised(AttributeError)
    else
      var port := PortOf(request);
      var baud := BaudOf(request);
      var updated :=
        if Truthy(request) then
          match AssignIfTruthy(config, "port", port)
          case None => None
          case Some(c) => AssignIfTruthy(c, "baud", baud)
        else Some(config);
      match updated
      case None => if SerialTable in config then Raised(TypeError) else Raised(KeyError(SerialTable))
      case Some(c) =>
        if SerialTable in c then Answered(c, Truthy(request), c[SerialTable])
        else Raised(KeyError(SerialTable))
  }

  /** The POST branch of `settings_serial` step by step: read `port` and `baud`
      from the body, then assign them into the loaded document in place. */
  method SettingsSerialPost(config: Config, request: Json) returns (r: Post)
    ensures r == PostSerial(config, request)
  {
    if !request.Obj? {
      return Raised(AttributeError);
    }
    var current := config;
    var port := Get(request.fields, "port");
    var baud := Get(request.fields, "baud");
    if Truthy(request) {
      if Truthy(port) {
        if SerialTable !in current {
          return Raised(KeyError(SerialTable));
        }
        if !current[SerialTable].Obj? {
          return Raised(TypeError);
        }
        current := current[SerialTable := Obj(current[SerialTable].fields["port" := port])];
      }
      if Truthy(baud) {
        if SerialTable !in current {
          return Raised(KeyError(SerialTable));
        }
        if !current[SerialTable].Obj? {
          return Raised(TypeError);
        }
        current := current[SerialTable := Obj(current[SerialTable].fields["baud" := baud])];
      }
    }
    if SerialTable !in current {
      return Raised(KeyError(SerialTable));
    }
    return Answered(current, Truthy(request), current[SerialTable]);
  }
}
