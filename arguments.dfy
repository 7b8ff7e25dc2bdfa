/**
 The command-line resolver of the launcher (`handle_arguments` in main.cpp), stated as
 two functions: `Parse` turns the argument vector into the list of options it denotes,
 by the launcher's fixed arity table, or into the usage error; `ApplyAll` applies an
 option list to the configuration, in order. `Process.Globals.HandleArguments`
 interleaves the two, as the source does, and is proved to agree with them.

 `args` is the argument vector WITHOUT the program name: position 0 is `argv[1]`.
 */
module Arguments {
  import opened Config

  /** Every flag the resolver recognises, short and long spellings together (see `Classify`). */
  datatype Flag =
    | Algorithm | Accent | HostFlag(kind: TransportType) | Checkpoint
    | CheckpointOn(strategy: Checkpointing) | Domain | Rebroadcasts | Logfile | Id
    | Load(format: Format) | LoadPrefix | MadaraLevel | GamsLevel | LoopTime | LoopHertz
    | NumAgents | Host | Platform | Period | QueueLength | Reduced | Target
    | Save(format: Format) | SavePrefix

  /** What a token at a flag position is: a flag, the variable-arity `-M`, or nothing known. */
  datatype Token = FlagToken(flag: Flag) | MadaraFileToken | UnknownToken

  /** How many entries the resolver's chain of comparisons has. */
  const EntryCount := 31

  /**
   Entry `k` of the resolver's chain of comparisons, in the source's order: the
   spellings compared against the token, and what the token is when one of them equals it.
   */
  function Entry(k: nat): (seq<string>, Token)
    requires k < EntryCount
  {
    match k
    case 0 => (["-A", "--algorithm"], FlagToken(Algorithm))
    case 1 => (["-a", "--accent"], FlagToken(Accent))
    case 2 => (["-b", "--broadcast"], FlagToken(HostFlag(Broadcast)))
    case 3 => (["-c", "--checkpoint"], FlagToken(Checkpoint))
    case 4 => (["--checkpoint-on-loop"], FlagToken(CheckpointOn(EveryLoop)))
    case 5 => (["--checkpoint-on-send"], FlagToken(CheckpointOn(EverySend)))
    case 6 => (["-d", "--domain"], FlagToken(Domain))
    case 7 => (["-e", "--rebroadcasts"], FlagToken(Rebroadcasts))
    case 8 => (["-f", "--logfile"], FlagToken(Logfile))
    case 9 => (["-i", "--id"], FlagToken(Id))
    case 10 => (["-lt", "--load-transport"], FlagToken(Load(Binary)))
    case 11 => (["-ltp", "--load-transport-prefix"], FlagToken(LoadPrefix))
    case 12 => (["-ltt", "--load-transport-text"], FlagToken(Load(Text)))
    case 13 => (["--madara-level"], FlagToken(MadaraLevel))
    case 14 => (["--gams-level"], FlagToken(GamsLevel))
    case 15 => (["-L", "--loop-time"], FlagToken(LoopTime))
    case 16 => (["--loop-hertz"], FlagToken(LoopHertz))
    case 17 => (["-m", "--multicast"], FlagToken(HostFlag(Multicast)))
    case 18 => (["-M", "--madara-file"], MadaraFileToken)
    case 19 => (["-n", "--num_agents"], FlagToken(NumAgents))
    case 20 => (["-o", "--host"], FlagToken(Host))
    case 21 => (["-p", "--platform"], FlagToken(Platform))
    case 22 => (["-P", "--period"], FlagToken(Period))
    case 23 => (["-q", "--queue-length"], FlagToken(QueueLength))
    case 24 => (["-r", "--reduced"], FlagToken(Reduced))
    case 25 => (["-t", "--target"], FlagToken(Target))
    case 26 => (["-st", "--save-transport"], FlagToken(Save(Binary)))
    case 27 => (["-stp", "--save-transport-prefix"], FlagToken(SavePrefix))
    case 28 => (["-stt", "--save-transport-text"], FlagToken(Save(Text)))
    case 29 => (["-u", "--udp"], FlagToken(HostFlag(Udp)))
    case 30 => (["--zmq"], FlagToken(HostFlag(Zmq)))
  }

  /**
   The decision of the first entry from `k` on that lists `t`; unknown when none does.
   (The token's length in the `decreases` clause is not needed for termination; it
   keeps the verifier from unfolding the whole table for a token that is not a literal.)
   */
  function Lookup(k: nat, t: string): Token
    requires k <= EntryCount
    decreases EntryCount - k, |t|
  {
    if k == EntryCount then UnknownToken
    else if t in Entry(k).0 then Entry(k).1
    else Lookup(k + 1, t)
  }

  /** What the token at a flag position is, by the first comparison that succeeds. */
  function Classify(t: string): Token {
    Lookup(0, t)
  }

  /**
   How many tokens a flag takes: none; one that must be present and must not start
   with `-`; or one taken whatever it is, and nothing (without complaint) at the end.
   */
  datatype Arity = NoValue | CheckedValue | AnyValue

  function ArityOf(f: Flag): Arity {
    if f.CheckpointOn? || f.Reduced? then NoValue
    else if f.Load? || f.LoadPrefix? || f.Save? || f.SavePrefix? then AnyValue
    else CheckedValue
  }

  /** A token is a value unless its first character is `-`; the empty token is a value. */
  predicate IsValue(t: string) {
    |t| == 0 || t[0] != '-'
  }

  /** The end of the run of value tokens that starts at `j`: the first flag-like token, or the end. */
  function RunEnd(args: seq<string>, j: nat): (e: nat)
    requires j <= |args|
    ensures j <= e <= |args|
    ensures forall k | j <= k < e :: IsValue(args[k])
    ensures e == |args| || !IsValue(args[e])
    decreases |args| - j
  {
    if j == |args| || !IsValue(args[j]) then j else RunEnd(args, j + 1)
  }

  /** Every argument, classified. */
  function Tokens(args: seq<string>): (toks: seq<Token>)
    ensures |toks| == |args|
    ensures forall k | 0 <= k < |args| :: toks[k] == Classify(args[k])
  {
    seq(|args|, k requires 0 <= k < |args| => Classify(args[k]))
  }

  /**
   Where the scan goes on after the token at `i`, classified as `token`, whether or not
   it is accepted: a flag with a value skips two tokens (even past the end), `-M` skips its run.
   */
  function Stride(token: Token, args: seq<string>, i: nat): (j: nat)
    requires i < |args|
    ensures i < j <= |args| + 1
  {
    match token
    case FlagToken(f) => if ArityOf(f) == NoValue then i + 1 else i + 2
    case MadaraFileToken => RunEnd(args, i + 1)
    case UnknownToken => i + 1
  }

  /** The positions the scan treats as flags, from `i` on. */
  function Visited(toks: seq<Token>, args: seq<string>, i: nat): (v: seq<nat>)
    requires |toks| == |args|
    decreases |args| + 1 - i
  {
    if i >= |args| then [] else [i] + Visited(toks, args, Stride(toks[i], args, i))
  }

  /** One option of a parsed command line: a flag with its value (`""` for a switch), or `-M`'s paths. */
  datatype Opt = Flagged(flag: Flag, value: string) | MadaraFiles(paths: seq<string>)

  predicate AnyExists(paths: seq<string>, files: map<string, string>) {
    exists k | 0 <= k < |paths| :: paths[k] in files
  }

  /** The outcome of the token at a flag position: the options it yields (none or one), or rejection. */
  datatype Scanned = Took(opts: seq<Opt>) | Rejected

  /** The options the token at `i`, classified as `token`, yields, or its rejection. */
  function Scan(token: Token, args: seq<string>, i: nat, files: map<string, string>): Scanned
    requires i < |args|
  {
    match token
    case UnknownToken => Rejected
    case MadaraFileToken =>
      var paths := args[i + 1..RunEnd(args, i + 1)];
      if AnyExists(paths, files) then Took([MadaraFiles(paths)]) else Rejected
    case FlagToken(f) =>
      match ArityOf(f)
      case NoValue => Took([Flagged(f, "")])
      case CheckedValue =>
        if i + 1 < |args| && IsValue(args[i + 1]) then Took([Flagged(f, args[i + 1])]) else Rejected
      case AnyValue =>
        if i + 1 < |args| then Took([Flagged(f, args[i + 1])]) else Took([])
  }

  /**
   A parsed command line: all its options, or the usage error raised by the flag at
   position `at`, with the options accepted before it.
   */
  datatype Outcome = Parsed(opts: seq<Opt>) | Usage(at: nat, before: seq<Opt>)

  function Prepend(opts: seq<Opt>, p: Outcome): Outcome {
    match p
    case Parsed(rest) => Parsed(opts + rest)
    case Usage(at, before) => Usage(at, opts + before)
  }

  /** The parse of the arguments from `i` on, `toks` being their classification. */
  function ParseFrom(toks: seq<Token>, args: seq<string>, i: nat, files: map<string, string>): Outcome
    requires |toks| == |args|
    decreases |args| + 1 - i, 1
  {
    if i >= |args| then Parsed([]) else ParseAt(toks, args, i, files)
  }

  /** The parse from the flag position `i`: stop at a rejected token, otherwise go on after it. */
  function ParseAt(toks: seq<Token>, args: seq<string>, i: nat, files: map<string, string>): Outcome
    requires |toks| == |args| && i < |args|
    decreases |args| + 1 - i, 0
  {
    match Scan(toks[i], args, i, files)
    case Rejected => Usage(i, [])
    case Took(o) => Prepend(o, ParseFrom(toks, args, Stride(toks[i], args, i), files))
  }

  function Parse(args: seq<string>, files: map<string, string>): Outcome {
    ParseFrom(Tokens(args), args, 0, files)
  }

  /** What `-M` adds to the script for its paths: each existing file's content and `;\n`, in order. */
  function Script(paths: seq<string>, files: map<string, string>): string {
    if paths == [] then ""
    else
      var p := paths[|paths| - 1];
      Script(paths[..|paths| - 1], files) + (if p in files then files[p] + ";\n" else "")
  }

  /** The hop count the transport settings keep: the setters take an unsigned 8-bit count. */
  function HopCount(hops: int): (ttl: nat)
    ensures ttl < 256
    ensures 0 <= hops < 256 ==> ttl == hops
    ensures (ttl - hops) % 256 == 0
  {
    hops % 256
  }

  /** The effect of one option on the configuration variables. */
  function Update(o: Opt, c: Config, env: Env): Config {
    match o
    case MadaraFiles(paths) => c.(madaraCommands := c.madaraCommands + Script(paths, env.files))
    case Flagged(f, v) =>
      match f
      case Algorithm => c.(algorithm := v)
      case Accent => c.(accents := c.accents + [v])
      case HostFlag(t) => c.(settings := c.settings.(hosts := c.settings.hosts + [v], kind := t))
      case Checkpoint => c.(controller := c.controller.(checkpointPrefix := v))
      case CheckpointOn(s) => c.(controller := c.controller.(checkpointStrategy := s))
      case Domain => c.(settings := c.settings.(writeDomain := v))
      case Rebroadcasts =>
        var ttl := HopCount(env.parseInt(v));
        c.(settings := c.settings.(rebroadcastTtl := ttl, participantTtl := ttl))
      case Logfile => c
      case Id => c.(settings := c.settings.(id := env.parseInt(v)))
      case Load(fmt) => c.(settings := env.load(RequestFor(fmt, v, c.loadTransportPrefix), c.settings))
      case LoadPrefix => c.(loadTransportPrefix := v)
      case MadaraLevel => c.(madaraLevel := env.parseInt(v))
      case GamsLevel => c.(gamsLevel := env.parseInt(v))
      case LoopTime => c.(controller := c.controller.(runTime := Number(v)))
      case LoopHertz => c.(controller := c.controller.(loopHertz := Number(v)))
      case NumAgents => c.(numAgents := env.parseInt(v))
      case Host => c.(host := v)
      case Platform => c.(platform := v, platSet := true)
      case Period => c.(controller := c.controller.(loopHertz := Reciprocal(v)))
      case QueueLength => c.(settings := c.settings.(queueLength := env.parseInt(v)))
      case Reduced => c.(settings := c.settings.(reducedHeader := true))
      case Target => c.(filePath := v)
      case Save(Binary) => c.(saveTransport := v)
      case Save(Text) => c.(saveTransportText := v)
      case SavePrefix => c.(saveTransportPrefix := v)
  }

  /** The effect of one option on the world outside the configuration, at parse time. */
  function EffectOf(o: Opt, c: Config): (e: seq<Event>)
    ensures forall k | 0 <= k < |e| :: e[k].AddLogFile? || e[k].LoadSettings?
  {
    if o.Flagged? && o.flag.Logfile? then [AddLogFile(o.value)]
    else if o.Flagged? && o.flag.Load? then [LoadSettings(RequestFor(o.flag.format, o.value, c.loadTransportPrefix))]
    else []
  }

  /** One option taken: the variables updated and the effect recorded after the earlier ones. */
  function Apply(o: Opt, s: State, env: Env): State {
    State(Update(o, s.config, env), s.trace + EffectOf(o, s.config))
  }

  /** The options taken in order, from the state `s`. */
  function ApplyAll(opts: seq<Opt>, s: State, env: Env): State {
    if opts == [] then s
    else Apply(opts[|opts| - 1], ApplyAll(opts[..|opts| - 1], s, env), env)
  }

  /**
   The state after the whole command line: every parsed option applied, or,
   when a token is rejected, the options before it applied and the usage text.
   */
  function Handled(args: seq<string>, s: State, env: Env): State {
    match Parse(args, env.files)
    case Parsed(opts) => ApplyAll(opts, s, env)
    case Usage(_, before) =>
      var r := ApplyAll(before, s, env);
      r.(trace := r.trace + [PrintUsage])
  }

  /** Applying two option lists one after the other is applying their concatenation. */
  lemma {:induction false} ApplyAllAppend(a: seq<Opt>, b: seq<Opt>, s: State, env: Env)
    ensures ApplyAll(a + b, s, env) == ApplyAll(b, ApplyAll(a, s, env), env)
    decreases |b|
  {
    if b == [] {
      assert a + b == a;
    } else {
      var init, o := b[..|b| - 1], b[|b| - 1];
      assert (a + b)[..|a + b| - 1] == a + init;
      ApplyAllAppend(a, init, s, env);
    }
  }

  /**
   The options never look at what was done before them: from any earlier history `t`,
   they reach the same variables and add the same effects after `t`.
   */
  lemma {:induction false} ApplyAllAfter(opts: seq<Opt>, c: Config, t: seq<Event>, env: Env)
    ensures ApplyAll(opts, State(c, t), env).config == ApplyAll(opts, State(c, []), env).config
    ensures ApplyAll(opts, State(c, t), env).trace == t + ApplyAll(opts, State(c, []), env).trace
  {
    if opts != [] {
      var init, o := opts[..|opts| - 1], opts[|opts| - 1];
      ApplyAllAfter(init, c, t, env);
      var s := ApplyAll(init, State(c, []), env);
      assert t + s.trace + EffectOf(o, s.config) == t + (s.trace + EffectOf(o, s.config));
    }
  }

  lemma PrependAssoc(a: seq<Opt>, b: seq<Opt>, p: Outcome)
    ensures Prepend(a, Prepend(b, p)) == Prepend(a + b, p)
  {
    match p
    case Parsed(rest) => assert a + (b + rest) == (a + b) + rest;
    case Usage(at, before) => assert a + (b + before) == (a + b) + before;
  }

  /**
   One step of the scan, after the options `done` already accepted: a rejected token
   ends the parse with the usage error, an accepted one moves its options into `done`.
   */
  lemma ParseFromStep(toks: seq<Token>, args: seq<string>, i: nat, files: map<string, string>,
                      token: Token, done: seq<Opt>)
    requires |toks| == |args| && i < |args| && token == toks[i]
    ensures Scan(token, args, i, files).Rejected? ==>
      Prepend(done, ParseFrom(toks, args, i, files)) == Usage(i, done)
    ensures Scan(token, args, i, files).Took? ==>
      Prepend(done, ParseFrom(toks, args, i, files))
      == Prepend(done + Scan(token, args, i, files).opts, ParseFrom(toks, args, Stride(token, args, i), files))
  {
    assert ParseFrom(toks, args, i, files) == ParseAt(toks, args, i, files);
    match Scan(token, args, i, files)
    case Rejected => assert done + [] == done;
    case Took(o) => PrependAssoc(done, o, ParseFrom(toks, args, Stride(token, args, i), files));
  }

  lemma AnyExistsSnoc(paths: seq<string>, p: string, files: map<string, string>)
    ensures AnyExists(paths + [p], files) <==> AnyExists(paths, files) || p in files
  {
    var ps := paths + [p];
    if p in files { assert ps[|paths|] in files; }
    if AnyExists(paths, files) {
      var k :| 0 <= k < |paths| && paths[k] in files;
      assert ps[k] in files;
    }
    if AnyExists(ps, files) {
      var k :| 0 <= k < |ps| && ps[k] in files;
      if k < |paths| { assert paths[k] in files; }
    }
  }

  /** `-M`'s paths contribute nothing exactly when none of them exists. */
  lemma {:induction false} ScriptEmptyIffNoneExist(paths: seq<string>, files: map<string, string>)
    ensures Script(paths, files) == "" <==> !AnyExists(paths, files)
  {
    if paths != [] {
      var init, p := paths[..|paths| - 1], paths[|paths| - 1];
      ScriptEmptyIffNoneExist(init, files);
      if AnyExists(init, files) {
        var k :| 0 <= k < |init| && init[k] in files;
        assert paths[k] in files;
      }
      if AnyExists(paths, files) {
        var k :| 0 <= k < |paths| && paths[k] in files;
        if k < |init| { assert init[k] in files; }
      }
      assert p in files ==> |files[p] + ";\n"| > 0;
    }
  }
}
