/**
 What `main` does once the command line is resolved: the default multicast host, the
 transport-settings saves, the knowledge base and its two transports (the primary one
 and the topic bridge, which always reads with one thread), the controller, the
 start-up script, the debug levels, and the platform, algorithm and accents, in order.
 `Program` is the whole run up to the bridging loop, as the sequence of its effects.
 */
module Orchestrator {
  import opened Config
  import opened Decimal
  import opened Arguments

  /** The multicast group used when no flag supplied a host. */
  const DefaultMulticast: string := "239.255.0.1:4150"

  /** The topics the bridge transport subscribes to, and how topics and types map onto keys and messages. */
  const SelectedTopics: seq<string> := ["my_topic"]
  const TopicMap: map<string, string> := map["my_topic" := "sensors.odom"]
  const PubTypes: map<string, string> := map["odom" := "nav_msgs/Odometry"]

  /** Names of the two loggers in the debug-level keys of the knowledge base. */
  const MadaraDebugLevel: string := "madara_debug_level"
  const GamsDebugLevel: string := "gams_debug_level"

  /** `main` selects multicast before it reads the command line. */
  function Start(init: Config): Config {
    init.(settings := init.settings.(kind := Multicast))
  }

  /** The hosts fallback: a single default multicast group when the list is empty, otherwise nothing changes. */
  function WithDefaultHost(s: Transport): (r: Transport)
    ensures |r.hosts| > 0
    ensures s.hosts != [] ==> r == s
    ensures s.hosts == [] ==> r == s.(hosts := [DefaultMulticast])
  {
    if |s.hosts| == 0 then s.(hosts := [DefaultMulticast]) else s
  }

  /**
   The platform the controller is initialised with: the command line's if `-p` was
   given, otherwise the value the knowledge base holds under `.platform` if it has
   one, otherwise the configured default.
   */
  function ResolvePlatform(c: Config, kbPlatform: Option<string>): (p: string)
    ensures c.platSet ==> p == c.platform
    ensures !c.platSet && kbPlatform.Some? ==> p == kbPlatform.value
    ensures !c.platSet && kbPlatform.None? ==> p == c.platform
  {
    if !c.platSet && kbPlatform.Some? then kbPlatform.value else c.platform
  }

  /** The saves of the transport settings `s`: binary then text, each only when its path is set. */
  function Saves(c: Config, s: Transport): seq<Event> {
    (if c.saveTransport != ""
     then [SaveSettings(RequestFor(Binary, c.saveTransport, c.saveTransportPrefix), s)] else [])
    + (if c.saveTransportText != ""
       then [SaveSettings(RequestFor(Text, c.saveTransportText, c.saveTransportPrefix), s)] else [])
  }

  /** The knowledge-base assignment that records a logger's level under this agent's id. */
  function DebugAssignment(id: int, logger: string, level: int): string {
    "agent." + IntToDecimal(id) + "." + logger + " = " + IntToDecimal(level)
  }

  /** For each logger whose level was given: set the level again, then record it, locally only. */
  function DebugLevelEvents(id: int, c: Config): seq<Event> {
    (if c.madaraLevel >= 0
     then [SetMadaraLogLevel(c.madaraLevel),
           Evaluate(DebugAssignment(id, MadaraDebugLevel, c.madaraLevel), EvalSettings(true, true))]
     else [])
    + (if c.gamsLevel >= 0
       then [SetGamsLogLevel(c.gamsLevel),
             Evaluate(DebugAssignment(id, GamsDebugLevel, c.gamsLevel), EvalSettings(true, true))]
       else [])
  }

  /** One accent initialisation per accent, in order. */
  function AccentInits(accents: seq<string>): seq<Event>
  {
    if accents == [] then [] else AccentInits(accents[..|accents| - 1]) + [InitAccent(accents[|accents| - 1])]
  }

  /** The accent initialisations are exactly the accents given, each once, in the order given. */
  lemma {:induction false} AccentInitsInOrder(accents: seq<string>)
    ensures |AccentInits(accents)| == |accents|
    ensures forall k | 0 <= k < |accents| :: AccentInits(accents)[k] == InitAccent(accents[k])
  {
    if accents != [] {
      AccentInitsInOrder(accents[..|accents| - 1]);
    }
  }

  /**
   The knowledge base and its two transports: the MADARA log level first, then the
   saves of the settings with the default host filled in, the knowledge base, the
   primary transport, and the bridge, which reads with a single thread.
   */
  function Connection(c: Config): seq<Event> {
    var primary := WithDefaultHost(c.settings);
    (if c.madaraLevel >= 0 then [SetMadaraLogLevel(c.madaraLevel)] else [])
    + Saves(c, primary)
    + [CreateKnowledgeBase, AttachTransport(c.host, primary)]
    + [AttachBridge(primary.(readThreads := 1), SelectedTopics, TopicMap, PubTypes)]
  }

  /**
   The controller and what it starts with: the GAMS log level, the controller, its
   variables, the start-up script (evaluated and sent out), and the debug-level records.
   */
  function ControllerStart(c: Config): seq<Event> {
    (if c.gamsLevel >= 0 then [SetGamsLogLevel(c.gamsLevel)] else [])
    + [CreateController(c.controller), InitVars(c.settings.id, c.numAgents)]
    + (if c.madaraCommands != "" then [Evaluate(c.madaraCommands, EvalSettings(false, true))] else [])
    + DebugLevelEvents(c.settings.id, c)
  }

  /** Everything `main` does before it initialises the platform. */
  function Setup(c: Config): seq<Event> {
    Connection(c) + ControllerStart(c)
  }

  /** The controller's initialisation: platform, algorithm, then every accent in order. */
  function Initialisation(c: Config, kbPlatform: Option<string>): seq<Event> {
    [InitPlatform(ResolvePlatform(c, kbPlatform)), InitAlgorithm(c.algorithm)] + AccentInits(c.accents)
  }

  /** What `main` does with a resolved configuration, up to the bridging loop. */
  function Orchestrate(c: Config, kbPlatform: Option<string>): seq<Event> {
    Setup(c) + Initialisation(c, kbPlatform)
  }

  /** The configuration variables once `main` has finished with them. */
  function Finalize(c: Config, kbPlatform: Option<string>): Config {
    c.(settings := WithDefaultHost(c.settings).(readThreads := 1),
       platform := ResolvePlatform(c, kbPlatform))
  }

  /**
   The launcher's run, from the globals `init` it starts with: the parse-time effects,
   then either the usage text (and exit) or the orchestration of the resolved configuration.
   `kbPlatform` is what the knowledge base holds under `.platform` when the platform is resolved.
   */
  function Program(args: seq<string>, env: Env, kbPlatform: Option<string>, init: Config): seq<Event> {
    var start := State(Start(init), []);
    match Parse(args, env.files)
    case Usage(_, before) => ApplyAll(before, start, env).trace + [PrintUsage]
    case Parsed(opts) =>
      var s := ApplyAll(opts, start, env);
      s.trace + Orchestrate(s.config, kbPlatform)
  }
}
