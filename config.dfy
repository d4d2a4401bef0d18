/**
 * Config loading: what `load_config` makes of the configuration file. Reading
 * the file and decoding its JSON are not modelled; their outcome is the input.
 */
module Config {
  import opened Wrappers
  import opened Json

  /** What opening and decoding the configuration file produced. */
  datatype ConfigSource =
    | Missing               // `path.exists()` is false
    | Unreadable            // the path exists but cannot be opened or read as UTF-8
    | Undecodable           // `json.load` raised `JSONDecodeError`
    | Parsed(root: JValue)  // the decoded document

  /** The errors `load_config` raises. */
  datatype LoadError =
    | NotFound      // FileNotFoundError "Configuration file not found"
    | ReadFailed    // the OS or Unicode error of the read, raised unchanged
    | DecodeFailed  // ValueError "Failed to decode JSON"
    | NotAList      // ValueError "Config file must contain a list of configurations."
    | NoConfigData  // ValueError "No config data found"

  /** A list root is kept, an object root becomes a one-element list, any other root is refused. */
  function Normalize(root: JValue): (r: Result<seq<JValue>, LoadError>)
    ensures r.Ok? <==> root.JArray? || root.JObject?
    ensures r.Err? ==> r.error == NotAList
    ensures root.JArray? ==> r == Ok(root.items)
    ensures root.JObject? ==> r == Ok([root])
  {
    match root
    case JArray(items) => Ok(items)
    case JObject(_) => Ok([root])
    case _ => Err(NotAList)
  }

  /**
   * The configuration list `load_config` stores, or the error it raises.
   * Loading succeeds exactly on a decoded object or non-empty list, and then
   * yields a non-empty list: the list itself, or the object as its one entry.
   * Each failure is reported with its own error, and only in its own case.
   */
  function Load(src: ConfigSource): (r: Result<seq<JValue>, LoadError>)
    ensures r.Ok? <==> src.Parsed? && (src.root.JObject? || (src.root.JArray? && src.root.items != []))
    ensures r.Ok? ==> r.value != []
    ensures r.Ok? && src.root.JArray? ==> r.value == src.root.items
    ensures r.Ok? && src.root.JObject? ==> r.value == [src.root]
    ensures r == Err(NotFound) <==> src.Missing?
    ensures r == Err(ReadFailed) <==> src.Unreadable?
    ensures r == Err(DecodeFailed) <==> src.Undecodable?
    ensures r == Err(NotAList) <==> src.Parsed? && !src.root.JArray? && !src.root.JObject?
    ensures r == Err(NoConfigData) <==> src == Parsed(JArray([]))
  {
    match src
    case Missing => Err(NotFound)
    case Unreadable => Err(ReadFailed)
    case Undecodable => Err(DecodeFailed)
    case Parsed(root) =>
      match Normalize(root)
      case Err(e) => Err(e)
      case Ok(entries) => if entries == [] then Err(NoConfigData) else Ok(entries)
  }

  /** A single object loads exactly as the list holding only that object. */
  lemma ObjectIsOneElementList(members: seq<Member>)
    ensures Load(Parsed(JObject(members))) == Load(Parsed(JArray([JObject(members)])))
    ensures Load(Parsed(JObject(members))).Ok?
  {
  }
}
