/**
 What the launcher's whole run promises, stated on `Program`: a rejected command line
 has done nothing but add log files and load settings before the usage text; the
 transport settings are saved only after every parse-time effect; the transport that is
 attached carries the hosts and kind the flags chose (or the default multicast group),
 and the bridge the same settings with one read thread; the controller is initialised
 with the resolved platform, then the algorithm, then every accent in order; and the
 debug-level records name the agent and the level unambiguously.
 */
module ProgramProperties {
  import opened Config
  import opened Decimal
  import opened Arguments
  import opened ArgumentProperties
  import opened Orchestrator

  /** An event the resolver itself may cause. */
  predicate ParseTimeEvent(e: Event) {
    e.AddLogFile? || e.LoadSettings?
  }

  /** A stretch of the run in which the resolver's kind of event does not occur. */
  predicate Quiet(events: seq<Event>) {
    forall k | 0 <= k < |events| :: !ParseTimeEvent(events[k])
  }

  lemma QuietAppend(a: seq<Event>, b: seq<Event>)
    requires Quiet(a) && Quiet(b)
    ensures Quiet(a + b)
  {
    forall k | 0 <= k < |a + b| ensures !ParseTimeEvent((a + b)[k]) {
      if k >= |a| {
        assert (a + b)[k] == b[k - |a|];
      }
    }
  }

  /** The knowledge base and its transports: a log level, saves, and the attachments, all after the parse. */
  lemma ConnectionQuiet(c: Config)
    ensures Quiet(Connection(c))
  {
    var primary := WithDefaultHost(c.settings);
    var level := if c.madaraLevel >= 0 then [SetMadaraLogLevel(c.madaraLevel)] else [];
    var attach := [CreateKnowledgeBase, AttachTransport(c.host, primary)];
    var bridge := [AttachBridge(primary.(readThreads := 1), SelectedTopics, TopicMap, PubTypes)];
    assert Quiet(Saves(c, primary));
    QuietAppend(level, Saves(c, primary));
    QuietAppend(level + Saves(c, primary), attach);
    QuietAppend(level + Saves(c, primary) + attach, bridge);
  }

  /** The controller's start: log levels, the controller, its variables and evaluations. */
  lemma ControllerStartQuiet(c: Config)
    ensures Quiet(ControllerStart(c))
  {
    var level := if c.gamsLevel >= 0 then [SetGamsLogLevel(c.gamsLevel)] else [];
    var create := [CreateController(c.controller), InitVars(c.settings.id, c.numAgents)];
    var script := if c.madaraCommands != "" then [Evaluate(c.madaraCommands, EvalSettings(false, true))] else [];
    var debug := DebugLevelEvents(c.settings.id, c);
    assert Quiet(debug);
    QuietAppend(level, create);
    QuietAppend(level + create, script);
    QuietAppend(level + create + script, debug);
  }

  /** None of `main`'s steps after the parse adds a log file or loads settings. */
  lemma OrchestrateAfterParse(c: Config, kbPlatform: Option<string>)
    ensures Quiet(Orchestrate(c, kbPlatform))
  {
    ConnectionQuiet(c);
    ControllerStartQuiet(c);
    QuietAppend(Connection(c), ControllerStart(c));
    AccentInitsInOrder(c.accents);
    var init := [InitPlatform(ResolvePlatform(c, kbPlatform)), InitAlgorithm(c.algorithm)];
    assert Quiet(AccentInits(c.accents));
    QuietAppend(init, AccentInits(c.accents));
    QuietAppend(Setup(c), Initialisation(c, kbPlatform));
  }

  /**
   A rejected command line: the run ends with the usage text, and every event before it
   is a log file added or a settings file loaded by an option at a position the scan
   visited before the rejected token; nothing after that token has any effect. No
   knowledge base, transport or controller is created.
   */
  lemma UsageActsOnNothing(args: seq<string>, env: Env, kbPlatform: Option<string>, init: Config)
    requires Parse(args, env.files).Usage?
    ensures var p := Program(args, env, kbPlatform, init);
      && |p| > 0 && p[|p| - 1] == PrintUsage
      && forall k | 0 <= k < |p| - 1 :: ParseTimeEvent(p[k])
    ensures exists k | 0 <= k < |Visited(Tokens(args), args, 0)| ::
      && Visited(Tokens(args), args, 0)[k] == Parse(args, env.files).at
      && Program(args, env, kbPlatform, init)
         == ApplyAll(Taken(Tokens(args), args, Visited(Tokens(args), args, 0)[..k], env.files),
                     State(Start(init), []), env).trace + [PrintUsage]
  {
    var before := Parse(args, env.files).before;
    ParseTimeEffects(before, State(Start(init), []), env);
    ParseFromVisited(Tokens(args), args, 0, env.files);
  }

  /**
   The transport settings are saved only after the whole command line has been
   resolved: no log file is added and no settings are loaded after a save.
   */
  lemma SavesAfterParse(args: seq<string>, env: Env, kbPlatform: Option<string>, init: Config)
    ensures var p := Program(args, env, kbPlatform, init);
      forall i, j | 0 <= i < j < |p| && p[i].SaveSettings? :: !ParseTimeEvent(p[j])
  {
    var p := Program(args, env, kbPlatform, init);
    match Parse(args, env.files)
    case Usage(_, before) =>
      ParseTimeEffects(before, State(Start(init), []), env);
    case Parsed(opts) =>
      var s := ApplyAll(opts, State(Start(init), []), env);
      ParseTimeEffects(opts, State(Start(init), []), env);
      OrchestrateAfterParse(s.config, kbPlatform);
      var o := Orchestrate(s.config, kbPlatform);
      assert p == s.trace + o;
      forall i, j | 0 <= i < j < |p| && p[i].SaveSettings? ensures !ParseTimeEvent(p[j]) {
        assert i >= |s.trace|;
        assert p[j] == o[j - |s.trace|];
      }
  }

  /**
   The save decision: the binary file is written exactly when its path was given, and
   then before the text file, which is written exactly when its path was given; each
   uses the prefix exactly when one was given, and saves the settings `s`.
   */
  lemma SaveDecision(c: Config, s: Transport)
    ensures var v := Saves(c, s);
      && |v| == (if c.saveTransport != "" then 1 else 0) + (if c.saveTransportText != "" then 1 else 0)
      && (c.saveTransport != "" ==> v[0].SaveSettings? && v[0].request.format == Binary
                                    && v[0].request.path == c.saveTransport)
      && (c.saveTransportText != "" ==> v[|v| - 1].SaveSettings? && v[|v| - 1].request.format == Text
                                        && v[|v| - 1].request.path == c.saveTransportText)
      && forall k | 0 <= k < |v| ::
           && v[k].SaveSettings? && v[k].settings == s
           && (v[k].request.prefix.Some? <==> c.saveTransportPrefix != "")
           && (v[k].request.prefix.Some? ==> v[k].request.prefix.value == c.saveTransportPrefix)
  {
  }

  /**
   The transport: for a command line without settings-file loads, the knowledge base's
   transport is attached with the hosts the host flags named, in order, after any the
   defaults held (the default multicast group when there are none at all), and the kind
   of the last host flag (multicast when there is none); the bridge is attached right
   after it, with the same settings and one read thread.
   */
  lemma TransportAttached(args: seq<string>, env: Env, kbPlatform: Option<string>, init: Config,
                          opts: seq<Opt>)
    requires Parse(args, env.files) == Parsed(opts) && NoLoads(opts)
    ensures var p, hosts, kinds := Program(args, env, kbPlatform, init), init.settings.hosts + Hosts(opts), Kinds(opts);
      exists k | 0 <= k < |p| - 1 ::
        && p[k].AttachTransport?
        && p[k].host == Latest(ValuesOf(opts, Host), init.host)
        && p[k].settings.hosts == (if hosts == [] then [DefaultMulticast] else hosts)
        && p[k].settings.kind == (if kinds == [] then Multicast else kinds[|kinds| - 1])
        && p[k + 1] == AttachBridge(p[k].settings.(readThreads := 1), SelectedTopics, TopicMap, PubTypes)
  {
    var start := State(Start(init), []);
    var c := ApplyAll(opts, start, env).config;
    HostsFromFlags(opts, start, env);
    LastWriteWins(opts, start, env);
    AttachedAt(args, env, kbPlatform, init, opts);
    var p := Program(args, env, kbPlatform, init);
    var primary := WithDefaultHost(c.settings);
    var k :| 0 <= k < |p| - 1 && p[k] == AttachTransport(c.host, primary)
             && p[k + 1] == AttachBridge(primary.(readThreads := 1), SelectedTopics, TopicMap, PubTypes);
    assert p[k].settings == primary;
  }

  /** Where the run attaches the transport and the bridge: right after one another, with the resolved settings. */
  lemma AttachedAt(args: seq<string>, env: Env, kbPlatform: Option<string>, init: Config, opts: seq<Opt>)
    requires Parse(args, env.files) == Parsed(opts)
    ensures var p, c := Program(args, env, kbPlatform, init), ApplyAll(opts, State(Start(init), []), env).config;
      var primary := WithDefaultHost(c.settings);
      exists k | 0 <= k < |p| - 1 ::
        && p[k] == AttachTransport(c.host, primary)
        && p[k + 1] == AttachBridge(primary.(readThreads := 1), SelectedTopics, TopicMap, PubTypes)
  {
    var s := ApplyAll(opts, State(Start(init), []), env);
    var c := s.config;
    ConnectionEnds(c);
    ProgramParsed(args, env, kbPlatform, init, opts);
    var p := Program(args, env, kbPlatform, init);
    var e := Connection(c);
    var n := |e|;
    var setup := Setup(c);
    var pre := s.trace + setup;
    assert setup == e + ControllerStart(c);
    var k := |s.trace| + n - 2;
    assert p[k] == pre[k] == setup[n - 2] == e[n - 2];
    assert p[k + 1] == pre[k + 1] == setup[n - 1] == e[n - 1];
  }

  /** The knowledge base's transport and then the bridge are the last two steps of the connection. */
  lemma ConnectionEnds(c: Config)
    ensures var e, primary := Connection(c), WithDefaultHost(c.settings);
      && |e| >= 3
      && e[|e| - 2] == AttachTransport(c.host, primary)
      && e[|e| - 1] == AttachBridge(primary.(readThreads := 1), SelectedTopics, TopicMap, PubTypes)
  {
  }

  /**
   The controller's initialisation ends the run: the platform (the last `-p` value; else
   the knowledge base's `.platform` when it holds one; else the default), then the
   algorithm (the last `-A` value, else the default), then every accent, in order.
   */
  lemma ControllerInitialisation(args: seq<string>, env: Env, kbPlatform: Option<string>,
                                 settings: Transport, controller: ControllerSettings, opts: seq<Opt>)
    requires Parse(args, env.files) == Parsed(opts)
    ensures var p := Program(args, env, kbPlatform, Initial(settings, controller));
      var platform := if ValuesOf(opts, Platform) != [] then Latest(ValuesOf(opts, Platform), "")
                      else if kbPlatform.Some? then kbPlatform.value
                      else DefaultPlatform;
      var accents := ValuesOf(opts, Accent);
      var tail := [InitPlatform(platform), InitAlgorithm(Latest(ValuesOf(opts, Algorithm), DefaultAlgorithm))]
                  + AccentInits(accents);
      |tail| <= |p| && p[|p| - |tail|..] == tail
  {
    var init := Initial(settings, controller);
    var start := State(Start(init), []);
    var s := ApplyAll(opts, start, env);
    ProgramParsed(args, env, kbPlatform, init, opts);
    LastWriteWins(opts, start, env);
    LastPlatformWins(opts, start, env);
    AccentsInOrder(opts, start, env);
    var c := s.config;
    assert c.accents == ValuesOf(opts, Accent);
    assert c.algorithm == Latest(ValuesOf(opts, Algorithm), DefaultAlgorithm);
    assert c.platSet == (ValuesOf(opts, Platform) != []);
    EndsWith(s.trace + Setup(c), Initialisation(c, kbPlatform));
  }

  /** After a parse that succeeds, the run is the parse-time effects, the set-up and the initialisation. */
  lemma ProgramParsed(args: seq<string>, env: Env, kbPlatform: Option<string>, init: Config, opts: seq<Opt>)
    requires Parse(args, env.files) == Parsed(opts)
    ensures var s := ApplyAll(opts, State(Start(init), []), env);
      Program(args, env, kbPlatform, init) == (s.trace + Setup(s.config)) + Initialisation(s.config, kbPlatform)
  {
    var s := ApplyAll(opts, State(Start(init), []), env);
    assert s.trace + (Setup(s.config) + Initialisation(s.config, kbPlatform))
        == (s.trace + Setup(s.config)) + Initialisation(s.config, kbPlatform);
  }

  lemma EndsWith(a: seq<Event>, b: seq<Event>)
    ensures (a + b)[|a + b| - |b|..] == b
  {
  }

  /**
   Where a number's text is followed by a dot, a longer number's text cannot be: the
   first dot ends the number.
   */
  lemma DotEndsNumber(a1: string, r1: string, a2: string, r2: string)
    requires a1 + r1 == a2 + r2 && |a1| <= |a2|
    requires |r1| > 0 && r1[0] == '.'
    requires forall k | 0 <= k < |a2| :: IsDigit(a2[k]) || a2[k] == '-'
    ensures |a1| == |a2|
  {
    assert (a2 + r2)[|a1|] == (a1 + r1)[|a1|] == '.';
  }

  /** Equal texts cut at the same place give equal pieces. */
  lemma SplitAt(x1: string, y1: string, x2: string, y2: string)
    requires x1 + y1 == x2 + y2 && |x1| == |x2|
    ensures x1 == x2 && y1 == y2
  {
    assert x1 == (x1 + y1)[..|x1|];
    assert x2 == (x2 + y2)[..|x2|];
    assert y1 == (x1 + y1)[|x1|..];
    assert y2 == (x2 + y2)[|x2|..];
  }

  /**
   Two debug-level records for the same logger are equal only when they name the same
   agent and the same level: the assignment text identifies both.
   */
  lemma DebugAssignmentInjective(id1: int, level1: int, id2: int, level2: int, logger: string)
    requires DebugAssignment(id1, logger, level1) == DebugAssignment(id2, logger, level2)
    ensures id1 == id2 && level1 == level2
  {
    var a1, a2 := IntToDecimal(id1), IntToDecimal(id2);
    var b1, b2 := IntToDecimal(level1), IntToDecimal(level2);
    var m := "." + logger + " = ";
    var r1, r2 := m + b1, m + b2;
    assert DebugAssignment(id1, logger, level1) == "agent." + (a1 + r1);
    assert DebugAssignment(id2, logger, level2) == "agent." + (a2 + r2);
    SplitAt("agent.", a1 + r1, "agent.", a2 + r2);
    if |a1| <= |a2| {
      DotEndsNumber(a1, r1, a2, r2);
    } else {
      DotEndsNumber(a2, r2, a1, r1);
    }
    SplitAt(a1, r1, a2, r2);
    IntToDecimalInjective(id1, id2);
    SplitAt(m, b1, m, b2);
    IntToDecimalInjective(level1, level2);
  }
}
