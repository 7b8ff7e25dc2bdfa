/**
 The values the bridge launcher works with: the transport settings it hands to the
 knowledge base, the controller settings, the process-wide configuration that the
 command line fills in, the effects the launcher has on its collaborators (loggers,
 settings files, knowledge base, bridge transport, controller), and the environment
 it reads (files on disk, number parsing, the settings-file loader).
 */
module Config {

  datatype Option<T> = None | Some(value: T)

  /** The transport kinds of the knowledge base's transport settings. */
  datatype TransportType = NoTransport | Broadcast | Multicast | Udp | Zmq

  /** The fields of the transport settings object that the launcher reads or writes. */
  datatype Transport = Transport(
    kind: TransportType,
    hosts: seq<string>,
    writeDomain: string,
    queueLength: int,
    rebroadcastTtl: nat,
    participantTtl: nat,
    reducedHeader: bool,
    id: int,
    readThreads: int)

  datatype Checkpointing = NoCheckpoint | EveryLoop | EverySend

  /**
   A floating-point setting, kept as the text it is read from: `Number(t)` is the
   double that reading `t` yields and `Reciprocal(t)` is one divided by that double.
   */
  datatype Real = Number(text: string) | Reciprocal(text: string)

  /** The fields of the controller settings that the command line can change. */
  datatype ControllerSettings = ControllerSettings(
    checkpointPrefix: string,
    checkpointStrategy: Checkpointing,
    runTime: Real,
    loopHertz: Real)

  /** Binary or text form of a transport settings file. */
  datatype Format = Binary | Text

  /** A load or save of the transport settings: `prefix` is `None` for the overload without a prefix. */
  datatype Request = Request(format: Format, path: string, prefix: Option<string>)

  /** The call the launcher makes for a settings file: the prefixed overload exactly when the prefix is set. */
  function RequestFor(format: Format, path: string, prefix: string): (r: Request)
    ensures r.format == format && r.path == path
    ensures r.prefix.Some? <==> prefix != ""
    ensures r.prefix.Some? ==> r.prefix.value == prefix
  {
    Request(format, path, if prefix == "" then None else Some(prefix))
  }

  /** The two flags of the knowledge base's evaluation settings that the launcher passes. */
  datatype EvalSettings = EvalSettings(delaySendingModifieds: bool, treatGlobalsAsLocals: bool)

  /** What the launcher does to the world outside its own variables, in the order it does it. */
  datatype Event =
    | AddLogFile(path: string)             // added to both the knowledge-base and the controller logger
    | LoadSettings(request: Request)
    | PrintUsage                           // the usage text, after which the process exits with code 0
    | SetMadaraLogLevel(level: int)
    | SetGamsLogLevel(level: int)
    | SaveSettings(request: Request, settings: Transport)
    | CreateKnowledgeBase
    | AttachTransport(host: string, settings: Transport)
    | AttachBridge(settings: Transport, topics: seq<string>,
                   topicMap: map<string, string>, pubTypes: map<string, string>)
    | CreateController(controller: ControllerSettings)
    | InitVars(id: int, numAgents: int)
    | Evaluate(expression: string, evalSettings: EvalSettings)
    | InitPlatform(name: string)
    | InitAlgorithm(name: string)
    | InitAccent(name: string)

  /** The launcher's process-wide configuration variables. */
  datatype Config = Config(
    settings: Transport,
    host: string,
    platSet: bool,
    platform: string,
    algorithm: string,
    accents: seq<string>,
    madaraCommands: string,
    madaraLevel: int,
    gamsLevel: int,
    numAgents: int,
    filePath: string,
    saveTransport: string,
    saveTransportPrefix: string,
    saveTransportText: string,
    loadTransportPrefix: string,
    controller: ControllerSettings)

  /** The configuration variables together with everything the launcher has done so far. */
  datatype State = State(config: Config, trace: seq<Event>)

  /**
   What the launcher reads from outside: the files on disk with their contents, the
   number parser behind `stringstream >>`, and the settings-file loader, which maps a
   request and the current settings to the settings after the load.
   */
  datatype Env = Env(
    files: map<string, string>,
    parseInt: string -> int,
    load: (Request, Transport) -> Transport)

  const DefaultPlatform: string := "debug"
  const DefaultAlgorithm: string := "debug"

  /** The configuration variables as their static initialisers leave them. */
  function Initial(settings: Transport, controller: ControllerSettings): Config
  {
    Config(settings, "", false, DefaultPlatform, DefaultAlgorithm, [], "", -1, -1, -1,
           "", "", "", "", "", controller)
  }
}
