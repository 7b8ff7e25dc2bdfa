/**
 The launcher's process: main.cpp keeps its configuration in global variables that
 `handle_arguments` and `main` update in place. Here they are the fields of one
 `Globals` object, together with `trace`, the record of what the process has done to
 its collaborators so far. The two methods are proved against the functions of
 `Arguments` and `Orchestrator`.
 */
module Process {
  import opened Config
  import opened Arguments
  import opened Orchestrator

  /** The flags whose branch changes the transport settings directly. */
  predicate SetsTransport(f: Flag) {
    f.HostFlag? || f.Domain? || f.Rebroadcasts? || f.Id? || f.QueueLength? || f.Reduced?
  }

  /** The flags whose branch acts outside the variables. */
  predicate HasEffect(f: Flag) {
    f.Logfile? || f.Load?
  }

  /** The flags that set the prefix of a later settings-file load or save. */
  predicate SetsPrefix(f: Flag) {
    f.LoadPrefix? || f.SavePrefix?
  }

  /** The flags whose branch changes the controller settings. */
  predicate SetsController(f: Flag) {
    f.Checkpoint? || f.CheckpointOn? || f.LoopTime? || f.LoopHertz? || f.Period?
  }

  /** The flags whose branch reads a number into one of the launcher's own variables. */
  predicate SetsNumber(f: Flag) {
    f.MadaraLevel? || f.GamsLevel? || f.NumAgents?
  }

  class Globals {
    var settings: Transport
    var host: string
    var platSet: bool
    var platform: string
    var algorithm: string
    var accents: seq<string>
    var madaraCommands: string
    var madaraLevel: int
    var gamsLevel: int
    var numAgents: int
    var filePath: string
    var saveTransport: string
    var saveTransportPrefix: string
    var saveTransportText: string
    var loadTransportPrefix: string
    var controller: ControllerSettings
    /** The effects on loggers, files, knowledge base and controller, in the order they happened. */
    var trace: seq<Event>

    /** The configuration variables as one value. */
    function Value(): Config
      reads this
    {
      Config(settings, host, platSet, platform, algorithm, accents, madaraCommands,
             madaraLevel, gamsLevel, numAgents, filePath, saveTransport,
             saveTransportPrefix, saveTransportText, loadTransportPrefix, controller)
    }

    /** The variables with the record of effects. */
    function Current(): State
      reads this
    {
      State(Value(), trace)
    }

    /** The globals as the program starts, with the library's default transport and controller settings. */
    constructor (transportDefaults: Transport, controllerDefaults: ControllerSettings)
      ensures Value() == Initial(transportDefaults, controllerDefaults)
      ensures trace == []
    {
      settings := transportDefaults;
      host := "";
      platSet := false;
      platform := DefaultPlatform;
      algorithm := DefaultAlgorithm;
      accents := [];
      madaraCommands := "";
      madaraLevel := -1;
      gamsLevel := -1;
      numAgents := -1;
      filePath := "";
      saveTransport := "";
      saveTransportPrefix := "";
      saveTransportText := "";
      loadTransportPrefix := "";
      controller := controllerDefaults;
      trace := [];
    }

    /** The update one flag with its value makes (one branch of the resolver's chain). */
    method Assign(f: Flag, v: string, env: Env)
      modifies this
      ensures Current() == Apply(Flagged(f, v), old(Current()), env)
    {
      if SetsTransport(f) {
        AssignTransport(f, v, env);
      } else if SetsController(f) {
        AssignController(f, v, env);
      } else if HasEffect(f) {
        AssignEffect(f, v, env);
      } else if SetsPrefix(f) {
        AssignPrefix(f, v, env);
      } else if f.Save? {
        AssignSave(f, v, env);
      } else if SetsNumber(f) {
        AssignNumber(f, v, env);
      } else {
        AssignLauncher(f, v, env);
      }
    }

    /** The branches that change the transport settings directly. */
    method AssignTransport(f: Flag, v: string, env: Env)
      requires SetsTransport(f)
      modifies this
      ensures Current() == Apply(Flagged(f, v), old(Current()), env)
    {
      match f {
        case HostFlag(t) =>
          settings := settings.(hosts := settings.hosts + [v]);
          settings := settings.(kind := t);
        case Domain => settings := settings.(writeDomain := v);
        case Rebroadcasts =>
          var hops := env.parseInt(v);
          settings := settings.(rebroadcastTtl := HopCount(hops));
          settings := settings.(participantTtl := HopCount(hops));
        case Id => settings := settings.(id := env.parseInt(v));
        case QueueLength => settings := settings.(queueLength := env.parseInt(v));
        case Reduced => settings := settings.(reducedHeader := true);
      }
    }

    /** The branches that change the controller settings. */
    method AssignController(f: Flag, v: string, env: Env)
      requires SetsController(f)
      modifies this
      ensures Current() == Apply(Flagged(f, v), old(Current()), env)
    {
      match f {
        case Checkpoint => controller := controller.(checkpointPrefix := v);
        case CheckpointOn(s) => controller := controller.(checkpointStrategy := s);
        case LoopTime => controller := controller.(runTime := Number(v));
        case LoopHertz => controller := controller.(loopHertz := Number(v));
        case Period => controller := controller.(loopHertz := Reciprocal(v));
      }
    }

    /** The branches with an effect outside the variables: a log file added, a settings file loaded. */
    method AssignEffect(f: Flag, v: string, env: Env)
      requires HasEffect(f)
      modifies this
      ensures Current() == Apply(Flagged(f, v), old(Current()), env)
    {
      match f {
        case Logfile => trace := trace + [AddLogFile(v)];
        case Load(fmt) =>
          var request := RequestFor(fmt, v, loadTransportPrefix);
          trace := trace + [LoadSettings(request)];
          settings := env.load(request, settings);
      }
    }

    /** The branches that set the load prefix or the save prefix. */
    method AssignPrefix(f: Flag, v: string, env: Env)
      requires SetsPrefix(f)
      modifies this
      ensures Current() == Apply(Flagged(f, v), old(Current()), env)
    {
      if f.LoadPrefix? {
        loadTransportPrefix := v;
      } else {
        saveTransportPrefix := v;
      }
    }

    /** The branches that set the path the settings are saved to, in binary or as text. */
    method AssignSave(f: Flag, v: string, env: Env)
      requires f.Save?
      modifies this
      ensures Current() == Apply(Flagged(f, v), old(Current()), env)
    {
      if f.format == Binary {
        saveTransport := v;
      } else {
        saveTransportText := v;
      }
    }

    /** The branches that read a number into one of the launcher's own variables. */
    method AssignNumber(f: Flag, v: string, env: Env)
      requires SetsNumber(f)
      modifies this
      ensures Current() == Apply(Flagged(f, v), old(Current()), env)
    {
      match f {
        case MadaraLevel => madaraLevel := env.parseInt(v);
        case GamsLevel => gamsLevel := env.parseInt(v);
        case NumAgents => numAgents := env.parseInt(v);
      }
    }

    /** The branches that set one of the launcher's own text variables. */
    method AssignLauncher(f: Flag, v: string, env: Env)
      requires !SetsTransport(f) && !SetsController(f) && !HasEffect(f) && !SetsPrefix(f) && !f.Save? && !SetsNumber(f)
      modifies this
      ensures Current() == Apply(Flagged(f, v), old(Current()), env)
    {
      match f {
        case Algorithm => algorithm := v;
        case Accent => accents := accents + [v];
        case Host => host := v;
        case Platform =>
          platform := v;
          platSet := true;
        case Target => filePath := v;
      }
    }

    /**
     The `-M` branch's inner loop: every following token that does not start with a
     dash names a file; the contents of each one that exists are appended, with `;` and
     a newline, to the start-up script. `files` tells whether any of them existed.
     */
    method ReadMadaraFiles(args: seq<string>, start: nat, env: Env) returns (end: nat, files: bool)
      requires start <= |args|
      modifies this
      ensures end == RunEnd(args, start)
      ensures files == AnyExists(args[start..end], env.files)
      ensures Current() == old(Current()).(config := old(Value()).(madaraCommands := old(madaraCommands) + Script(args[start..end], env.files)))
    {
      files := false;
      end := start;
      while end < |args| && IsValue(args[end])
        invariant start <= end <= RunEnd(args, start)
        invariant files == AnyExists(args[start..end], env.files)
        invariant Current() == old(Current()).(config := old(Value()).(madaraCommands := old(madaraCommands) + Script(args[start..end], env.files)))
        decreases |args| - end
      {
        var filename := args[end];
        assert args[start..end + 1] == args[start..end] + [filename];
        assert args[start..end + 1][..end - start] == args[start..end];
        AnyExistsSnoc(args[start..end], filename, env.files);
        if filename in env.files {
          madaraCommands := madaraCommands + env.files[filename];
          madaraCommands := madaraCommands + ";\n";
          files := true;
        }
        end := end + 1;
      }
    }

    /**
     One branch of the resolver: the flag at `i` with the tokens it consumes. `last` is
     the index of the last token consumed (the loop steps past it); `ok` is false where
     the source calls the usage printer, in which case nothing has been changed.
     */
    method HandleFlag(token: Token, args: seq<string>, i: nat, env: Env) returns (last: nat, ok: bool)
      requires i < |args|
      modifies this
      ensures ok == Scan(token, args, i, env.files).Took?
      ensures ok ==> last + 1 == Stride(token, args, i)
      ensures ok ==> Current() == ApplyAll(Scan(token, args, i, env.files).opts, old(Current()), env)
      ensures !ok ==> Current() == old(Current())
    {
      last := i;
      match token {
        case UnknownToken =>
          return i, false;
        case MadaraFileToken =>
          var end, files := ReadMadaraFiles(args, i + 1, env);
          last := end - 1;
          if !files {
            ScriptEmptyIffNoneExist(args[i + 1..end], env.files);
            return last, false;
          }
          assert [MadaraFiles(args[i + 1..end])][..0] == [];
          ok := true;
        case FlagToken(f) =>
          match ArityOf(f) {
            case NoValue =>
              Assign(f, "", env);
              assert [Flagged(f, "")][..0] == [];
              ok := true;
            case CheckedValue =>
              if i + 1 < |args| && IsValue(args[i + 1]) {
                Assign(f, args[i + 1], env);
                assert [Flagged(f, args[i + 1])][..0] == [];
              } else {
                return last, false;
              }
              last := last + 1;
              ok := true;
            case AnyValue =>
              if i + 1 < |args| {
                Assign(f, args[i + 1], env);
                assert [Flagged(f, args[i + 1])][..0] == [];
              }
              last := last + 1;
              ok := true;
          }
      }
    }

    /** The usage text is printed; `main` then exits with code 0. */
    method ShowUsage()
      modifies this
      ensures Current() == old(Current()).(trace := old(trace) + [PrintUsage])
    {
      trace := trace + [PrintUsage];
    }

    /**
     One turn of the resolver's loop, at the flag position `i`: the token is classified
     and handled, or the usage text is printed. `last` is the index of the last token
     consumed.
     */
    method Turn(args: seq<string>, i: nat, env: Env) returns (last: nat, accepted: bool)
      requires i < |args|
      modifies this
      ensures accepted == Scan(Classify(args[i]), args, i, env.files).Took?
      ensures accepted ==> last + 1 == Stride(Classify(args[i]), args, i)
      ensures accepted ==>
        Current() == ApplyAll(Scan(Classify(args[i]), args, i, env.files).opts, old(Current()), env)
      ensures !accepted ==> Current() == old(Current()).(trace := old(trace) + [PrintUsage])
    {
      var token := Classify(args[i]);
      last, accepted := HandleFlag(token, args, i, env);
      if !accepted {
        ShowUsage();
      }
    }

    /**
     One turn of the resolver's loop, tied to the parse: the options `done` before
     position `i` have taken the variables from `start` to where they are, and after
     the turn either the options of position `i` have been taken as well and the parse
     goes on after `last`, or the parse stops at `i` with the usage text printed.
     */
    method Advance(args: seq<string>, i: nat, env: Env, ghost toks: seq<Token>,
                   ghost done: seq<Opt>, ghost start: State, ghost whole: Outcome)
      returns (last: nat, accepted: bool, ghost next: seq<Opt>)
      requires toks == Tokens(args) && i < |args|
      requires whole == Prepend(done, ParseFrom(toks, args, i, env.files))
      requires Current() == ApplyAll(done, start, env)
      modifies this
      ensures accepted ==>
        && i < last + 1 <= |args| + 1
        && whole == Prepend(next, ParseFrom(toks, args, last + 1, env.files))
        && Current() == ApplyAll(next, start, env)
      ensures !accepted ==>
        && whole == Usage(i, done)
        && Current() == ApplyAll(done, start, env).(trace := ApplyAll(done, start, env).trace + [PrintUsage])
    {
      next := done;
      ghost var token := toks[i];
      ParseFromStep(toks, args, i, env.files, token, done);
      last, accepted := Turn(args, i, env);
      if accepted {
        ghost var taken := Scan(token, args, i, env.files).opts;
        ApplyAllAppend(done, taken, start, env);
        next := done + taken;
      }
    }

    /**
     The resolver: one left-to-right scan over the arguments. On a usage error it
     prints the usage text and returns false (the process then exits with code 0).
     */
    method HandleArguments(args: seq<string>, env: Env) returns (ok: bool)
      modifies this
      ensures ok == Parse(args, env.files).Parsed?
      ensures Current() == Handled(args, old(Current()), env)
    {
      var i := 0;
      ghost var done: seq<Opt> := [];
      ghost var start := Current();
      ghost var toks := Tokens(args);
      ghost var whole := Parse(args, env.files);
      assert whole == Prepend([], ParseFrom(toks, args, 0, env.files));
      while i < |args|
        invariant 0 <= i <= |args| + 1
        invariant whole == Prepend(done, ParseFrom(toks, args, i, env.files))
        invariant Current() == ApplyAll(done, start, env)
        decreases |args| + 1 - i
      {
        var last, accepted, next := Advance(args, i, env, toks, done, start, whole);
        if !accepted {
          return false;
        }
        done := next;
        i := last + 1;
      }
      assert whole == Parsed(done + []) && done + [] == done;
      ok := true;
    }

    /** `main`'s steps before the platform is initialised. */
    method SetUp()
      modifies this
      ensures trace == old(trace) + Setup(old(Value()))
      ensures Value() == old(Value()).(settings := WithDefaultHost(old(settings)).(readThreads := 1))
    {
      Connect();
      ghost var connected := trace;
      StartController();
      assert ControllerStart(Value()) == ControllerStart(old(Value()));
      Appended(old(trace), Connection(old(Value())), ControllerStart(old(Value())));
    }

    /**
     The default multicast host when no flag gave one, the MADARA log level, the
     settings saves, the knowledge base, its transport and the bridge.
     */
    method Connect()
      modifies this
      ensures trace == old(trace) + Connection(old(Value()))
      ensures Value() == old(Value()).(settings := WithDefaultHost(old(settings)).(readThreads := 1))
    {
      if |settings.hosts| == 0 {
        settings := settings.(hosts := [DefaultMulticast]);
      }
      ghost var done: seq<Event> := [];
      if madaraLevel >= 0 {
        trace := trace + [SetMadaraLogLevel(madaraLevel)];
        done := [SetMadaraLogLevel(madaraLevel)];
      }
      assert trace == old(trace) + done;
      SaveSettingsFiles();
      Appended(old(trace), done, Saves(Value(), settings));
      done := done + Saves(Value(), settings);
      Appended(old(trace), done, [CreateKnowledgeBase, AttachTransport(host, settings)]);
      trace := trace + [CreateKnowledgeBase, AttachTransport(host, settings)];
      done := done + [CreateKnowledgeBase, AttachTransport(host, settings)];
      settings := settings.(readThreads := 1);
      Appended(old(trace), done, [AttachBridge(settings, SelectedTopics, TopicMap, PubTypes)]);
      trace := trace + [AttachBridge(settings, SelectedTopics, TopicMap, PubTypes)];
      done := done + [AttachBridge(settings, SelectedTopics, TopicMap, PubTypes)];
    }

    /** The saves of the transport settings: binary, then text, each only when its path was given. */
    method SaveSettingsFiles()
      modifies this
      ensures trace == old(trace) + Saves(old(Value()), old(settings))
      ensures Value() == old(Value())
    {
      if saveTransport != "" {
        trace := trace + [SaveSettings(RequestFor(Binary, saveTransport, saveTransportPrefix), settings)];
      }
      if saveTransportText != "" {
        trace := trace + [SaveSettings(RequestFor(Text, saveTransportText, saveTransportPrefix), settings)];
      }
    }

    /** The GAMS log level, the controller, its variables, the start-up script and the debug-level records. */
    method StartController()
      modifies this
      ensures trace == old(trace) + ControllerStart(old(Value()))
      ensures Value() == old(Value())
    {
      ghost var done: seq<Event> := [];
      if gamsLevel >= 0 {
        trace := trace + [SetGamsLogLevel(gamsLevel)];
        done := [SetGamsLogLevel(gamsLevel)];
      }
      assert trace == old(trace) + done;
      Appended(old(trace), done, [CreateController(controller), InitVars(settings.id, numAgents)]);
      trace := trace + [CreateController(controller), InitVars(settings.id, numAgents)];
      done := done + [CreateController(controller), InitVars(settings.id, numAgents)];
      if madaraCommands != "" {
        Appended(old(trace), done, [Evaluate(madaraCommands, EvalSettings(false, true))]);
        trace := trace + [Evaluate(madaraCommands, EvalSettings(false, true))];
        done := done + [Evaluate(madaraCommands, EvalSettings(false, true))];
      } else {
        assert done + [] == done;
      }
      ghost var scripted := trace;
      if madaraLevel >= 0 {
        trace := trace + [SetMadaraLogLevel(madaraLevel),
                          Evaluate(DebugAssignment(settings.id, MadaraDebugLevel, madaraLevel), EvalSettings(true, true))];
      }
      if gamsLevel >= 0 {
        trace := trace + [SetGamsLogLevel(gamsLevel),
                          Evaluate(DebugAssignment(settings.id, GamsDebugLevel, gamsLevel), EvalSettings(true, true))];
      }
      assert trace == scripted + DebugLevelEvents(settings.id, Value());
      Appended(old(trace), done, DebugLevelEvents(settings.id, Value()));
    }

    /** The platform (resolved against the knowledge base), the algorithm, then the accents in order. */
    method Initialise(kbPlatform: Option<string>)
      modifies this
      ensures trace == old(trace) + Initialisation(old(Value()), kbPlatform)
      ensures Value() == old(Value()).(platform := ResolvePlatform(old(Value()), kbPlatform))
    {
      if !platSet && kbPlatform.Some? {
        platform := kbPlatform.value;
      }
      trace := trace + [InitPlatform(platform), InitAlgorithm(algorithm)];
      InitAccents();
    }

    /** The accent loop: one initialisation per accent, in the order the flags gave them. */
    method InitAccents()
      modifies this
      ensures trace == old(trace) + AccentInits(accents)
      ensures Value() == old(Value())
    {
      var k := 0;
      while k < |accents|
        invariant 0 <= k <= |accents|
        invariant trace == old(trace) + AccentInits(accents[..k])
        invariant Value() == old(Value())
        decreases |accents| - k
      {
        assert accents[..k + 1][..k] == accents[..k];
        trace := trace + [InitAccent(accents[k])];
        k := k + 1;
      }
      assert accents[..k] == accents;
    }

    /** `main` once the command line is resolved, up to the bridging loop. */
    method Launch(kbPlatform: Option<string>)
      modifies this
      ensures trace == old(trace) + Orchestrate(old(Value()), kbPlatform)
      ensures Value() == Finalize(old(Value()), kbPlatform)
    {
      SetUp();
      ghost var ready := Value();
      Initialise(kbPlatform);
      assert Initialisation(ready, kbPlatform) == Initialisation(old(Value()), kbPlatform);
      Appended(old(trace), Setup(old(Value())), Initialisation(old(Value()), kbPlatform));
    }

    /**
     `main` up to the bridging loop: multicast is selected, the command line is resolved,
     and unless it was rejected the launcher sets up and initialises the controller.
     The process exits with code 0 either way.
     */
    method Run(args: seq<string>, env: Env, kbPlatform: Option<string>) returns (exitCode: int)
      modifies this
      ensures exitCode == 0
      ensures trace == old(trace) + Program(args, env, kbPlatform, old(Value()))
      ensures match Parse(args, env.files)
        case Parsed(opts) =>
          Value() == Finalize(ApplyAll(opts, State(Start(old(Value())), []), env).config, kbPlatform)
        case Usage(_, before) =>
          Value() == ApplyAll(before, State(Start(old(Value())), []), env).config
    {
      settings := settings.(kind := Multicast);
      ghost var start := Value();
      var ok := HandleArguments(args, env);
      if ok {
        ghost var opts := Parse(args, env.files).opts;
        ApplyAllAfter(opts, start, old(trace), env);
        ghost var s := ApplyAll(opts, State(start, []), env);
        Launch(kbPlatform);
        Appended(old(trace), s.trace, Orchestrate(s.config, kbPlatform));
      } else {
        ghost var before := Parse(args, env.files).before;
        ApplyAllAfter(before, start, old(trace), env);
        Appended(old(trace), ApplyAll(before, State(start, []), env).trace, [PrintUsage]);
      }
      exitCode := 0;
    }
  }

  lemma Appended(t: seq<Event>, done: seq<Event>, x: seq<Event>)
    ensures t + done + x == t + (done + x)
  {
  }
}
