/**
 What the resolver promises about the configuration it leaves: scalar flags are
 last-write-wins, hosts and accents accumulate in command-line order, `-M` scripts
 accumulate in order, and a rejected command line stops at its first bad token.
 Each property is stated against a reference function over the option list that is
 independent of `Update`, and proved by induction over `ApplyAll`.
 */
module ArgumentProperties {
  import opened Config
  import opened Arguments

  /** The values given to the flag `f`, in command-line order. */
  function ValuesOf(opts: seq<Opt>, f: Flag): seq<string> {
    if opts == [] then []
    else
      var o := opts[|opts| - 1];
      ValuesOf(opts[..|opts| - 1], f) + (if o.Flagged? && o.flag == f then [o.value] else [])
  }

  /** The last of `values`, or `otherwise` when there is none. */
  function Latest(values: seq<string>, otherwise: string): string {
    if values == [] then otherwise else values[|values| - 1]
  }

  /** The hosts named by `-b`, `-m`, `-u` and `--zmq`, in command-line order. */
  function Hosts(opts: seq<Opt>): seq<string> {
    if opts == [] then []
    else
      var o := opts[|opts| - 1];
      Hosts(opts[..|opts| - 1]) + (if o.Flagged? && o.flag.HostFlag? then [o.value] else [])
  }

  /** The transport kinds those flags select, in command-line order. */
  function Kinds(opts: seq<Opt>): seq<TransportType> {
    if opts == [] then []
    else
      var o := opts[|opts| - 1];
      Kinds(opts[..|opts| - 1]) + (if o.Flagged? && o.flag.HostFlag? then [o.flag.kind] else [])
  }

  /** The start-up script text that the `-M` options contribute, in command-line order. */
  function Scripts(opts: seq<Opt>, files: map<string, string>): string {
    if opts == [] then ""
    else
      var o := opts[|opts| - 1];
      Scripts(opts[..|opts| - 1], files) + (if o.MadaraFiles? then Script(o.paths, files) else "")
  }

  /** No option loads transport settings from a file (a load replaces the settings wholesale). */
  predicate NoLoads(opts: seq<Opt>) {
    forall k | 0 <= k < |opts| :: !(opts[k].Flagged? && opts[k].flag.Load?)
  }

  /** The number the last value of `f` reads as, or `otherwise` when `f` was not given. */
  function LatestNumber(opts: seq<Opt>, f: Flag, otherwise: int, env: Env): int {
    var vs := ValuesOf(opts, f);
    if vs == [] then otherwise else env.parseInt(vs[|vs| - 1])
  }

  /** How `ValuesOf` grows by one option. */
  lemma ValuesOfSnoc(opts: seq<Opt>, f: Flag)
    requires opts != []
    ensures var o := opts[|opts| - 1];
      ValuesOf(opts, f) == if o.Flagged? && o.flag == f then ValuesOf(opts[..|opts| - 1], f) + [o.value]
                           else ValuesOf(opts[..|opts| - 1], f)
  {
    var o := opts[|opts| - 1];
    if !(o.Flagged? && o.flag == f) {
      assert ValuesOf(opts[..|opts| - 1], f) + [] == ValuesOf(opts[..|opts| - 1], f);
    }
  }

  /** One option changes a launcher variable only when it is that variable's flag. */
  lemma UpdateLauncherVariables(o: Opt, c: Config, env: Env)
    ensures var u, given := Update(o, c, env), o.Flagged?;
      && u.algorithm == (if given && o.flag.Algorithm? then o.value else c.algorithm)
      && u.host == (if given && o.flag.Host? then o.value else c.host)
      && u.filePath == (if given && o.flag.Target? then o.value else c.filePath)
  {
    if o.Flagged? {
      if o.flag.Algorithm? {} else if o.flag.Host? {} else if o.flag.Target? {} else {}
    }
  }

  /** One option changes the platform only when it is `-p`, which also records that it was given. */
  lemma UpdatePlatform(o: Opt, c: Config, env: Env)
    ensures var u, given := Update(o, c, env), o.Flagged? && o.flag.Platform?;
      && u.platform == (if given then o.value else c.platform)
      && u.platSet == (c.platSet || given)
  {
    if o.Flagged? {
      if o.flag.Platform? {} else {}
    }
  }

  /** One option changes a save path only when it is that save's flag. */
  lemma UpdateSavePaths(o: Opt, c: Config, env: Env)
    ensures var u, given := Update(o, c, env), o.Flagged? && o.flag.Save?;
      && u.saveTransport == (if given && o.flag.format.Binary? then o.value else c.saveTransport)
      && u.saveTransportText == (if given && o.flag.format.Text? then o.value else c.saveTransportText)
  {
    if o.Flagged? {
      if o.flag.Save? {} else {}
    }
  }

  /** One option changes a settings prefix only when it is that prefix's flag. */
  lemma UpdatePrefixes(o: Opt, c: Config, env: Env)
    ensures var u, given := Update(o, c, env), o.Flagged?;
      && u.saveTransportPrefix == (if given && o.flag.SavePrefix? then o.value else c.saveTransportPrefix)
      && u.loadTransportPrefix == (if given && o.flag.LoadPrefix? then o.value else c.loadTransportPrefix)
  {
    if o.Flagged? {
      if o.flag.SavePrefix? {} else if o.flag.LoadPrefix? {} else {}
    }
  }

  /** One option changes a numeric variable only when it is that variable's flag. */
  lemma UpdateNumbers(o: Opt, c: Config, env: Env)
    ensures var u := Update(o, c, env);
      && u.madaraLevel == (if o.Flagged? && o.flag == MadaraLevel then env.parseInt(o.value) else c.madaraLevel)
      && u.gamsLevel == (if o.Flagged? && o.flag == GamsLevel then env.parseInt(o.value) else c.gamsLevel)
      && u.numAgents == (if o.Flagged? && o.flag == NumAgents then env.parseInt(o.value) else c.numAgents)
  {
    if o.Flagged? {
      if o.flag.MadaraLevel? {} else if o.flag.GamsLevel? {} else if o.flag.NumAgents? {} else {}
    }
  }

  /** One option other than a load changes the hosts and the kind only when it is a host flag. */
  lemma UpdateHosts(o: Opt, c: Config, env: Env)
    requires !(o.Flagged? && o.flag.Load?)
    ensures var t, t0 := Update(o, c, env).settings, c.settings;
      && t.hosts == (if o.Flagged? && o.flag.HostFlag? then t0.hosts + [o.value] else t0.hosts)
      && t.kind == (if o.Flagged? && o.flag.HostFlag? then o.flag.kind else t0.kind)
  {
    if o.Flagged? {
      if o.flag.HostFlag? {} else if o.flag.Domain? {} else if o.flag.Rebroadcasts? {} else {}
    }
  }

  /**
   One option other than a load changes the domain only when it is `-d` and the id
   only when it is `-i`.
   */
  lemma UpdateDomain(o: Opt, c: Config, env: Env)
    requires !(o.Flagged? && o.flag.Load?)
    ensures var t, t0 := Update(o, c, env).settings, c.settings;
      && t.writeDomain == (if o.Flagged? && o.flag.Domain? then o.value else t0.writeDomain)
      && t.id == (if o.Flagged? && o.flag.Id? then env.parseInt(o.value) else t0.id)
  {
    if o.Flagged? {
      if o.flag.HostFlag? {} else if o.flag.Domain? {} else if o.flag.Id? {} else {}
    }
  }

  /**
   One option other than a load changes the two hop counts only when it is `-e`, which
   sets both to the count its value reads as.
   */
  lemma UpdateHopCounts(o: Opt, c: Config, env: Env)
    requires !(o.Flagged? && o.flag.Load?)
    ensures var t, t0, e := Update(o, c, env).settings, c.settings, o.Flagged? && o.flag.Rebroadcasts?;
      && t.rebroadcastTtl == (if e then HopCount(env.parseInt(o.value)) else t0.rebroadcastTtl)
      && t.participantTtl == (if e then HopCount(env.parseInt(o.value)) else t0.participantTtl)
  {
    if o.Flagged? {
      if o.flag.HostFlag? {} else if o.flag.Rebroadcasts? {} else {}
    }
  }

  /** One option appends to the accents and the script only when it is `-a` or `-M`. */
  lemma UpdateAccumulators(o: Opt, c: Config, env: Env)
    ensures var u := Update(o, c, env);
      && u.accents == (if o.Flagged? && o.flag == Accent then c.accents + [o.value] else c.accents)
      && u.madaraCommands == (if o.MadaraFiles? then c.madaraCommands + Script(o.paths, env.files) else c.madaraCommands)
  {
    if o.Flagged? {
      if o.flag.Accent? {} else {}
    }
  }

  /**
   The launcher's own string variables are last-write-wins: each is the value of the
   last flag that sets it, or what it was when that flag was not given.
   */
  lemma {:induction false} LastWriteWins(opts: seq<Opt>, s: State, env: Env)
    ensures var c, c0 := ApplyAll(opts, s, env).config, s.config;
      && c.algorithm == Latest(ValuesOf(opts, Algorithm), c0.algorithm)
      && c.host == Latest(ValuesOf(opts, Host), c0.host)
      && c.filePath == Latest(ValuesOf(opts, Target), c0.filePath)
  {
    if opts != [] {
      var init, o := opts[..|opts| - 1], opts[|opts| - 1];
      var c := ApplyAll(init, s, env).config;
      assert ApplyAll(opts, s, env).config == Update(o, c, env);
      LastWriteWins(init, s, env);
      UpdateLauncherVariables(o, c, env);
      ValuesOfSnoc(opts, Algorithm);
      ValuesOfSnoc(opts, Host);
      ValuesOfSnoc(opts, Target);
    }
  }

  /** The platform is the last `-p` value, and is recorded as given exactly when `-p` was. */
  lemma {:induction false} LastPlatformWins(opts: seq<Opt>, s: State, env: Env)
    ensures var c, c0 := ApplyAll(opts, s, env).config, s.config;
      && c.platform == Latest(ValuesOf(opts, Platform), c0.platform)
      && c.platSet == (c0.platSet || ValuesOf(opts, Platform) != [])
  {
    if opts != [] {
      var init, o := opts[..|opts| - 1], opts[|opts| - 1];
      var c := ApplyAll(init, s, env).config;
      assert ApplyAll(opts, s, env).config == Update(o, c, env);
      LastPlatformWins(init, s, env);
      UpdatePlatform(o, c, env);
      ValuesOfSnoc(opts, Platform);
    }
  }

  /** The binary and the text save paths that `main` uses after the parse are last-write-wins. */
  lemma {:induction false} LastSavePathWins(opts: seq<Opt>, s: State, env: Env)
    ensures var c, c0 := ApplyAll(opts, s, env).config, s.config;
      && c.saveTransport == Latest(ValuesOf(opts, Save(Binary)), c0.saveTransport)
      && c.saveTransportText == Latest(ValuesOf(opts, Save(Text)), c0.saveTransportText)
  {
    if opts != [] {
      var init, o := opts[..|opts| - 1], opts[|opts| - 1];
      var c := ApplyAll(init, s, env).config;
      assert ApplyAll(opts, s, env).config == Update(o, c, env);
      LastSavePathWins(init, s, env);
      UpdateSavePaths(o, c, env);
      ValuesOfSnoc(opts, Save(Binary));
      ValuesOfSnoc(opts, Save(Text));
    }
  }

  /**
   The save prefix that `main` uses after the parse, and the load prefix that a
   later `-lt` or `-ltt` uses, are last-write-wins too.
   */
  lemma {:induction false} LastPrefixWins(opts: seq<Opt>, s: State, env: Env)
    ensures var c, c0 := ApplyAll(opts, s, env).config, s.config;
      && c.saveTransportPrefix == Latest(ValuesOf(opts, SavePrefix), c0.saveTransportPrefix)
      && c.loadTransportPrefix == Latest(ValuesOf(opts, LoadPrefix), c0.loadTransportPrefix)
  {
    if opts != [] {
      var init, o := opts[..|opts| - 1], opts[|opts| - 1];
      var c := ApplyAll(init, s, env).config;
      assert ApplyAll(opts, s, env).config == Update(o, c, env);
      LastPrefixWins(init, s, env);
      UpdatePrefixes(o, c, env);
      ValuesOfSnoc(opts, SavePrefix);
      ValuesOfSnoc(opts, LoadPrefix);
    }
  }

  /** The numeric variables are last-write-wins, read with the number parser. */
  lemma {:induction false} LastNumberWins(opts: seq<Opt>, s: State, env: Env)
    ensures var c, c0 := ApplyAll(opts, s, env).config, s.config;
      && c.madaraLevel == LatestNumber(opts, MadaraLevel, c0.madaraLevel, env)
      && c.gamsLevel == LatestNumber(opts, GamsLevel, c0.gamsLevel, env)
      && c.numAgents == LatestNumber(opts, NumAgents, c0.numAgents, env)
  {
    if opts != [] {
      var init := opts[..|opts| - 1];
      LastNumberWins(init, s, env);
      UpdateNumbers(opts[|opts| - 1], ApplyAll(init, s, env).config, env);
      ValuesOfSnoc(opts, MadaraLevel);
      ValuesOfSnoc(opts, GamsLevel);
      ValuesOfSnoc(opts, NumAgents);
    }
  }

  /** Accents accumulate: every `-a` value is appended, in command-line order, repeats kept. */
  lemma {:induction false} AccentsInOrder(opts: seq<Opt>, s: State, env: Env)
    ensures ApplyAll(opts, s, env).config.accents == s.config.accents + ValuesOf(opts, Accent)
  {
    if opts != [] {
      var init, o := opts[..|opts| - 1], opts[|opts| - 1];
      var c := ApplyAll(init, s, env).config;
      assert ApplyAll(opts, s, env).config == Update(o, c, env);
      AccentsInOrder(init, s, env);
      ValuesOfSnoc(opts, Accent);
      UpdateAccumulators(o, c, env);
      if o.Flagged? && o.flag == Accent {
        assert s.config.accents + ValuesOf(init, Accent) + [o.value]
            == s.config.accents + (ValuesOf(init, Accent) + [o.value]);
      }
    }
  }

  /** `-M` contents accumulate: the script is what it was followed by every `-M`'s files, in order. */
  lemma {:induction false} ScriptsInOrder(opts: seq<Opt>, s: State, env: Env)
    ensures ApplyAll(opts, s, env).config.madaraCommands == s.config.madaraCommands + Scripts(opts, env.files)
  {
    if opts != [] {
      var init, o := opts[..|opts| - 1], opts[|opts| - 1];
      var c := ApplyAll(init, s, env).config;
      assert ApplyAll(opts, s, env).config == Update(o, c, env);
      ScriptsInOrder(init, s, env);
      UpdateAccumulators(o, c, env);
      var before := Scripts(init, env.files);
      assert Scripts(opts, env.files) == before + (if o.MadaraFiles? then Script(o.paths, env.files) else "");
      if o.MadaraFiles? {
        assert s.config.madaraCommands + before + Script(o.paths, env.files)
            == s.config.madaraCommands + (before + Script(o.paths, env.files));
      } else {
        assert before + "" == before;
      }
    }
  }

  /** A list without loads stays without loads when its last option is dropped. */
  lemma NoLoadsInit(opts: seq<Opt>)
    requires opts != [] && NoLoads(opts)
    ensures NoLoads(opts[..|opts| - 1])
  {
    var init := opts[..|opts| - 1];
    forall k | 0 <= k < |init| ensures !(init[k].Flagged? && init[k].flag.Load?) {
      assert init[k] == opts[k];
    }
  }

  /**
   Without a settings-file load, the hosts and the kind come from the host flags
   alone: the hosts are appended in order and the kind is that of the last one.
   */
  lemma {:induction false} HostsFromFlags(opts: seq<Opt>, s: State, env: Env)
    requires NoLoads(opts)
    ensures var t, t0 := ApplyAll(opts, s, env).config.settings, s.config.settings;
      && t.hosts == t0.hosts + Hosts(opts)
      && t.kind == (if Kinds(opts) == [] then t0.kind else Kinds(opts)[|Kinds(opts)| - 1])
  {
    if opts != [] {
      var init, o := opts[..|opts| - 1], opts[|opts| - 1];
      NoLoadsInit(opts);
      var c := ApplyAll(init, s, env).config;
      assert ApplyAll(opts, s, env).config == Update(o, c, env);
      HostsFromFlags(init, s, env);
      UpdateHosts(o, c, env);
      if o.Flagged? && o.flag.HostFlag? {
        assert s.config.settings.hosts + Hosts(init) + [o.value]
            == s.config.settings.hosts + (Hosts(init) + [o.value]);
      } else {
        assert Hosts(init) + [] == Hosts(init);
        assert Kinds(init) + [] == Kinds(init);
      }
    }
  }

  /** Without a settings-file load, the domain and the id are last-write-wins. */
  lemma {:induction false} DomainFromFlags(opts: seq<Opt>, s: State, env: Env)
    requires NoLoads(opts)
    ensures var t, t0 := ApplyAll(opts, s, env).config.settings, s.config.settings;
      && t.writeDomain == Latest(ValuesOf(opts, Domain), t0.writeDomain)
      && t.id == LatestNumber(opts, Id, t0.id, env)
  {
    if opts != [] {
      var init, o := opts[..|opts| - 1], opts[|opts| - 1];
      NoLoadsInit(opts);
      var c := ApplyAll(init, s, env).config;
      assert ApplyAll(opts, s, env).config == Update(o, c, env);
      DomainFromFlags(init, s, env);
      UpdateDomain(o, c, env);
      ValuesOfSnoc(opts, Domain);
      ValuesOfSnoc(opts, Id);
    }
  }

  /**
   Without a settings-file load, the hop counts are last-write-wins: after an `-e`,
   both are the count of the last `-e` value; without one, both keep their values.
   */
  lemma {:induction false} HopCountsFromFlags(opts: seq<Opt>, s: State, env: Env)
    requires NoLoads(opts)
    ensures var t, t0, given := ApplyAll(opts, s, env).config.settings, s.config.settings,
                                ValuesOf(opts, Rebroadcasts) != [];
      var hops := HopCount(LatestNumber(opts, Rebroadcasts, 0, env));
      && t.rebroadcastTtl == (if given then hops else t0.rebroadcastTtl)
      && t.participantTtl == (if given then hops else t0.participantTtl)
  {
    if opts != [] {
      var init, o := opts[..|opts| - 1], opts[|opts| - 1];
      NoLoadsInit(opts);
      var c := ApplyAll(init, s, env).config;
      assert ApplyAll(opts, s, env).config == Update(o, c, env);
      HopCountsFromFlags(init, s, env);
      UpdateHopCounts(o, c, env);
      ValuesOfSnoc(opts, Rebroadcasts);
    }
  }

  /**
   A settings-file load uses the prefix of the last `-ltp` before it, and the overload
   without a prefix when there is none (or it was empty); the load is the last effect so far.
   */
  lemma LoadUsesEarlierPrefix(opts: seq<Opt>, k: nat, s: State, env: Env)
    requires k < |opts| && opts[k].Flagged? && opts[k].flag.Load?
    ensures var t, prefix := ApplyAll(opts[..k + 1], s, env).trace,
                             Latest(ValuesOf(opts[..k], LoadPrefix), s.config.loadTransportPrefix);
      && |t| > 0
      && t[|t| - 1] == LoadSettings(RequestFor(opts[k].flag.format, opts[k].value, prefix))
  {
    var before := ApplyAll(opts[..k], s, env);
    assert opts[..k + 1][..k] == opts[..k];
    assert ApplyAll(opts[..k + 1], s, env) == Apply(opts[k], before, env);
    LastPrefixWins(opts[..k], s, env);
  }

  /** Each option's effects outside the variables are log files and settings loads, nothing else. */
  lemma {:induction false} ParseTimeEffects(opts: seq<Opt>, s: State, env: Env)
    ensures var t := ApplyAll(opts, s, env).trace;
      && |s.trace| <= |t| && t[..|s.trace|] == s.trace
      && forall k | |s.trace| <= k < |t| :: t[k].AddLogFile? || t[k].LoadSettings?
  {
    if opts != [] {
      var init, o := opts[..|opts| - 1], opts[|opts| - 1];
      ParseTimeEffects(init, s, env);
      var mid := ApplyAll(init, s, env);
      var e := EffectOf(o, mid.config);
      assert ApplyAll(opts, s, env).trace == mid.trace + e;
      forall k | |s.trace| <= k < |mid.trace + e|
        ensures (mid.trace + e)[k].AddLogFile? || (mid.trace + e)[k].LoadSettings?
      {
        if k >= |mid.trace| {
          assert (mid.trace + e)[k] == e[k - |mid.trace|];
        }
      }
    }
  }

  /** The positions the scan reaches, from `i` on, are increasing and within the arguments. */
  lemma {:induction false} VisitedInRange(toks: seq<Token>, args: seq<string>, i: nat)
    requires |toks| == |args|
    ensures forall k | 0 <= k < |Visited(toks, args, i)| :: i <= Visited(toks, args, i)[k] < |args|
    ensures forall k | 0 <= k < |Visited(toks, args, i)| - 1 :: Visited(toks, args, i)[k] < Visited(toks, args, i)[k + 1]
    decreases |args| + 1 - i
  {
    if i < |args| {
      var next := Stride(toks[i], args, i);
      var v, w := Visited(toks, args, i), Visited(toks, args, next);
      VisitedInRange(toks, args, next);
      assert v == [i] + w;
      forall k | 0 <= k < |v| ensures i <= v[k] < |args| {
        if k > 0 { assert v[k] == w[k - 1]; }
      }
      forall k | 0 <= k < |v| - 1 ensures v[k] < v[k + 1] {
        assert v[k + 1] == w[k] && next <= w[k];
        if k > 0 { assert v[k] == w[k - 1]; }
      }
    }
  }

  /** The options the tokens at the positions `ps` yield, in order; a rejected token yields none. */
  function Taken(toks: seq<Token>, args: seq<string>, ps: seq<nat>, files: map<string, string>): seq<Opt>
    requires |toks| == |args|
  {
    if ps == [] then []
    else
      var p := ps[0];
      (if p < |args| && Scan(toks[p], args, p, files).Took? then Scan(toks[p], args, p, files).opts else [])
      + Taken(toks, args, ps[1..], files)
  }

  /**
   What the parse yields, read off the positions the scan visits: the options of an
   accepted command line are those of every visited position, in order; on a rejection,
   the options kept are exactly those of the visited positions before the rejected one,
   and nothing after it contributes.
   */
  lemma {:induction false} ParseFromVisited(toks: seq<Token>, args: seq<string>, i: nat,
                                            files: map<string, string>)
    requires |toks| == |args|
    ensures ParseFrom(toks, args, i, files).Parsed? ==>
      ParseFrom(toks, args, i, files).opts == Taken(toks, args, Visited(toks, args, i), files)
    ensures ParseFrom(toks, args, i, files).Usage? ==>
      exists k | 0 <= k < |Visited(toks, args, i)| ::
        && Visited(toks, args, i)[k] == ParseFrom(toks, args, i, files).at
        && RejectedAt(toks, args, Visited(toks, args, i)[k], files)
        && ParseFrom(toks, args, i, files).before == Taken(toks, args, Visited(toks, args, i)[..k], files)
    decreases |args| + 1 - i
  {
    if i < |args| {
      var next := Stride(toks[i], args, i);
      var v, w := Visited(toks, args, i), Visited(toks, args, next);
      assert v == [i] + w;
      assert v[1..] == w;
      assert ParseFrom(toks, args, i, files) == ParseAt(toks, args, i, files);
      if RejectedAt(toks, args, i, files) {
        assert ParseFrom(toks, args, i, files) == Usage(i, []);
        assert v[0] == i && RejectedAt(toks, args, v[0], files);
        assert Taken(toks, args, v[..0], files) == [];
      } else {
        ParseFromVisited(toks, args, next, files);
        var o := Scan(toks[i], args, i, files).opts;
        var rest := ParseFrom(toks, args, next, files);
        assert ParseFrom(toks, args, i, files) == Prepend(o, rest);
        assert Taken(toks, args, v, files) == o + Taken(toks, args, w, files);
        if rest.Usage? {
          var k :| 0 <= k < |w| && w[k] == rest.at && RejectedAt(toks, args, w[k], files)
                   && rest.before == Taken(toks, args, w[..k], files);
          assert v[..k + 1] == [i] + w[..k];
          assert v[..k + 1][1..] == w[..k];
          assert Taken(toks, args, v[..k + 1], files) == o + Taken(toks, args, w[..k], files);
          assert v[k + 1] == w[k];
        }
      }
    }
  }

  /**
   The resolver's chain of comparisons from entry `k` on: a token is unknown exactly when
   no entry lists it, and otherwise it is what the first entry that lists it says.
   */
  lemma {:induction false} LookupFirstMatch(k: nat, t: string)
    requires k <= EntryCount
    ensures Lookup(k, t) == UnknownToken <==> forall j | k <= j < EntryCount :: t !in Entry(j).0
    ensures Lookup(k, t) != UnknownToken ==>
      exists j | k <= j < EntryCount ::
        && t in Entry(j).0 && Lookup(k, t) == Entry(j).1
        && forall i | k <= i < j :: t !in Entry(i).0
    decreases EntryCount - k
  {
    if k < EntryCount {
      var (spellings, token) := Entry(k);
      if t in spellings {
        assert Lookup(k, t) == token != UnknownToken;
      } else {
        assert Lookup(k, t) == Lookup(k + 1, t);
        LookupFirstMatch(k + 1, t);
        if Lookup(k, t) != UnknownToken {
          var j :| k + 1 <= j < EntryCount && t in Entry(j).0 && Lookup(k + 1, t) == Entry(j).1
                   && forall i | k + 1 <= i < j :: t !in Entry(i).0;
          assert forall i | k <= i < j :: t !in Entry(i).0;
        }
      }
    }
  }

  /** The token at each position the scan reaches is accepted or rejected as `Scan` says. */
  predicate RejectedAt(toks: seq<Token>, args: seq<string>, p: nat, files: map<string, string>)
    requires |toks| == |args|
  {
    p < |args| && Scan(toks[p], args, p, files).Rejected?
  }

  /** A command line is rejected exactly when some position the scan reaches holds a rejected token. */
  lemma {:induction false} UsageIffRejected(toks: seq<Token>, args: seq<string>, i: nat,
                                            files: map<string, string>)
    requires |toks| == |args|
    ensures ParseFrom(toks, args, i, files).Usage?
      <==> exists k | 0 <= k < |Visited(toks, args, i)| :: RejectedAt(toks, args, Visited(toks, args, i)[k], files)
    decreases |args| + 1 - i
  {
    if i < |args| {
      var next := Stride(toks[i], args, i);
      var v, w := Visited(toks, args, i), Visited(toks, args, next);
      assert v == [i] + w;
      assert ParseFrom(toks, args, i, files) == ParseAt(toks, args, i, files);
      if RejectedAt(toks, args, i, files) {
        assert ParseFrom(toks, args, i, files) == Usage(i, []);
        assert v[0] == i && RejectedAt(toks, args, v[0], files);
      } else {
        UsageIffRejected(toks, args, next, files);
        var rest := ParseFrom(toks, args, next, files);
        assert ParseFrom(toks, args, i, files) == Prepend(Scan(toks[i], args, i, files).opts, rest);
        if exists k | 0 <= k < |v| :: RejectedAt(toks, args, v[k], files) {
          var k :| 0 <= k < |v| && RejectedAt(toks, args, v[k], files);
          assert k > 0 && v[k] == w[k - 1];
        }
        if rest.Usage? {
          var k :| 0 <= k < |w| && RejectedAt(toks, args, w[k], files);
          assert v[k + 1] == w[k];
        }
      }
    }
  }

  /** A rejected command line raises the usage error at the first rejected position the scan reaches. */
  lemma {:induction false} UsageAtFirst(toks: seq<Token>, args: seq<string>, i: nat,
                                        files: map<string, string>)
    requires |toks| == |args|
    ensures ParseFrom(toks, args, i, files).Usage? ==>
      exists k | 0 <= k < |Visited(toks, args, i)| ::
        && Visited(toks, args, i)[k] == ParseFrom(toks, args, i, files).at
        && RejectedAt(toks, args, Visited(toks, args, i)[k], files)
        && forall j | 0 <= j < k :: !RejectedAt(toks, args, Visited(toks, args, i)[j], files)
    decreases |args| + 1 - i
  {
    if i < |args| {
      var next := Stride(toks[i], args, i);
      var v, w := Visited(toks, args, i), Visited(toks, args, next);
      assert v == [i] + w;
      assert ParseFrom(toks, args, i, files) == ParseAt(toks, args, i, files);
      if RejectedAt(toks, args, i, files) {
        assert ParseFrom(toks, args, i, files) == Usage(i, []);
        assert v[0] == i && RejectedAt(toks, args, v[0], files);
      } else {
        UsageAtFirst(toks, args, next, files);
        var rest := ParseFrom(toks, args, next, files);
        assert ParseFrom(toks, args, i, files) == Prepend(Scan(toks[i], args, i, files).opts, rest);
        if rest.Usage? {
          var k :| 0 <= k < |w| && w[k] == rest.at && RejectedAt(toks, args, w[k], files)
                   && forall j | 0 <= j < k :: !RejectedAt(toks, args, w[j], files);
          assert v[k + 1] == w[k];
          forall j | 0 <= j < k + 1 ensures !RejectedAt(toks, args, v[j], files) {
            if j > 0 { assert v[j] == w[j - 1]; }
          }
        }
      }
    }
  }

  /**
   A command line is rejected exactly when some position the scan reaches holds a
   rejected token, and then the usage error is raised at the first such position.
   */
  lemma UsageAtFirstRejection(toks: seq<Token>, args: seq<string>, i: nat, files: map<string, string>)
    requires |toks| == |args|
    ensures ParseFrom(toks, args, i, files).Usage?
      <==> exists k | 0 <= k < |Visited(toks, args, i)| :: RejectedAt(toks, args, Visited(toks, args, i)[k], files)
    ensures ParseFrom(toks, args, i, files).Usage? ==>
      exists k | 0 <= k < |Visited(toks, args, i)| ::
        && Visited(toks, args, i)[k] == ParseFrom(toks, args, i, files).at
        && RejectedAt(toks, args, Visited(toks, args, i)[k], files)
        && forall j | 0 <= j < k :: !RejectedAt(toks, args, Visited(toks, args, i)[j], files)
  {
    UsageIffRejected(toks, args, i, files);
    UsageAtFirst(toks, args, i, files);
  }

  /** The six settings-file flags never raise a usage error, even with no token after them. */
  lemma LoadsAndSavesNeverReject(args: seq<string>, i: nat, f: Flag, files: map<string, string>)
    requires i < |args| && (f.Load? || f.LoadPrefix? || f.Save? || f.SavePrefix?)
    ensures Scan(FlagToken(f), args, i, files).Took?
    ensures i + 1 == |args| ==> Scan(FlagToken(f), args, i, files) == Took([])
    ensures i + 1 < |args| ==> Scan(FlagToken(f), args, i, files) == Took([Flagged(f, args[i + 1])])
  {
  }

  /**
   A flag that takes a checked value is rejected exactly when no token follows it or
   the next token starts with `-`; the empty token counts as a value.
   */
  lemma CheckedValueRejects(args: seq<string>, i: nat, f: Flag, files: map<string, string>)
    requires i < |args| && ArityOf(f) == CheckedValue
    ensures Scan(FlagToken(f), args, i, files).Rejected?
      <==> i + 1 == |args| || (|args[i + 1]| > 0 && args[i + 1][0] == '-')
  {
  }

  /**
   `-M` takes the longest run of following tokens that do not start with `-`, the scan
   goes on at the first token after the run, and it is rejected exactly when none of
   the run's files exists, which includes an empty run.
   */
  lemma MadaraFileRun(args: seq<string>, i: nat, files: map<string, string>)
    requires i < |args|
    ensures var e := Stride(MadaraFileToken, args, i);
      && (forall k | i < k < e :: |args[k]| == 0 || args[k][0] != '-')
      && (e == |args| || (|args[e]| > 0 && args[e][0] == '-'))
      && (Scan(MadaraFileToken, args, i, files).Rejected? <==> forall k | i < k < e :: args[k] !in files)
      && (e == i + 1 ==> Scan(MadaraFileToken, args, i, files).Rejected?)
  {
    var e := Stride(MadaraFileToken, args, i);
    var paths := args[i + 1..e];
    if AnyExists(paths, files) {
      var k :| 0 <= k < |paths| && paths[k] in files;
      assert args[i + 1 + k] == paths[k];
    }
    if exists k | i < k < e :: args[k] in files {
      var k :| i < k < e && args[k] in files;
      assert paths[k - i - 1] == args[k];
    }
  }

  /** The two spellings of the send rate in the usage text. */
  predicate SendHertz(t: string) {
    t == "-s" || t == "--send-hertz"
  }

  /**
   No entry of the chain from `k` on compares against those spellings. The chain is
   walked in three stretches only to keep each proof small.
   */
  lemma {:induction false} SendHertzUnlisted(k: nat, t: string)
    requires k <= 10 && SendHertz(t)
    ensures Lookup(k, t) == UnknownToken
    decreases EntryCount - k
  {
    if k < 10 { SendHertzUnlisted(k + 1, t); } else { SendHertzUnlistedMiddle(k, t); }
  }

  lemma {:induction false} SendHertzUnlistedMiddle(k: nat, t: string)
    requires 10 <= k <= 20 && SendHertz(t)
    ensures Lookup(k, t) == UnknownToken
    decreases EntryCount - k
  {
    if k < 20 { SendHertzUnlistedMiddle(k + 1, t); } else { SendHertzUnlistedLate(k, t); }
  }

  lemma {:induction false} SendHertzUnlistedLate(k: nat, t: string)
    requires 20 <= k <= EntryCount && SendHertz(t)
    ensures Lookup(k, t) == UnknownToken
    decreases EntryCount - k
  {
    if k < EntryCount { SendHertzUnlistedLate(k + 1, t); }
  }

  /** `-s` and `--send-hertz` are listed in the usage text but have no branch: they are unknown tokens. */
  lemma SendHertzIsUnknown()
    ensures Classify("-s") == UnknownToken
    ensures Classify("--send-hertz") == UnknownToken
  {
    SendHertzUnlisted(0, "-s");
    SendHertzUnlisted(0, "--send-hertz");
  }
}
