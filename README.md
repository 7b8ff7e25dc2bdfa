# GAMS ROS-bridge launcher: command-line resolver and start-up order

The launcher (`main.cpp`) is a GAMS agent process that bridges a MADARA knowledge base to ROS
topics. It keeps its configuration in process-wide variables: the transport settings, the
platform, the algorithm, the accents, the start-up script and the log levels. `handle_arguments`
fills these in with one left-to-right scan of the command line, using a fixed arity table.
`main` then does the rest, in order:

- falls back to the default multicast group;
- saves the transport settings;
- attaches the knowledge base's transport and the ROS bridge (always with one read thread);
- creates the controller and evaluates the start-up script;
- records the debug levels under the agent's id;
- initialises the platform (from the command line, else the knowledge base's `.platform`, else
  `debug`), the algorithm and every accent, in order.

The project has seven modules:

- `Config`: the values. These are the transport and controller settings, the configuration
  variables (`Config`), and the effects the launcher has on its collaborators (`Event`: log files,
  settings loads and saves, the usage text, the knowledge base, transports, the controller). It
  also holds the environment the launcher reads (`Env`: the files on disk, number parsing, the
  settings loader).
- `Arguments`: the resolver as two specification functions. `Parse` maps the argument vector to
  the options it denotes, or to the usage error at the first rejected token, with the options
  accepted before it. `ApplyAll` applies options in order to the variables and the record of
  effects.
- `Orchestrator`: `main` after the parse, as the sequence of its effects (`Program`).
- `Process`: the imperative model. Class `Globals` holds `main.cpp`'s globals as fields.
  `HandleArguments` is the resolver's `while` loop, which advances the index by hand, including
  the `-M` inner loop. `Run` is `main` up to the bridging loop. Both are proved equal to the
  specification functions.
- `ArgumentProperties` and `ProgramProperties`: what the resolver and the whole run promise.
  These are last-write-wins and in-order accumulation, stated against reference functions over
  the option list. They also cover rejection at the first bad token, the save decision,
  saves after every parse-time effect, the transport that is attached, the initialisation order,
  and unambiguous debug-level keys.
- `Decimal`: integer-to-text conversion for the debug-level keys.

Behaviours of the code worth stating outright:

- **Unknown tokens.** An unrecognised token raises the usage error only where the scan reads a
  flag (main.cpp:499-502). A token consumed as a value is never classified. This includes any
  token after `-lt`, `-ltp`, `-ltt`, `-st`, `-stp` and `-stt`, and the paths of `-M`.
- **Missing values.** Those six flags never raise the usage error. At the end of the line they
  consume nothing, and they take a following `-`-prefixed token as their value
  (main.cpp:264-296, 448-474).
- **Effects before a rejection.** The usage text ends the process (main.cpp:153), but only when it
  is reached. Log files added by `-f` and settings loaded by `-lt`/`-ltt` earlier on the line
  have already happened by then (main.cpp:239-296). `ArgumentProperties.ParseFromVisited` and
  `ProgramProperties.UsageActsOnNothing` state that the effects are exactly those of the options
  before the rejected token. No knowledge base, transport or controller is created.
- **`-s`.** `-s`/`--send-hertz` is listed in the usage text (main.cpp:144) but has no branch, so
  it is an unknown token (`ArgumentProperties.SendHertzIsUnknown`).

## Model

| member | source | states |
|---|---|---|
| Config.RequestFor | main.cpp:533-548 | a settings file is loaded or saved through the prefixed overload exactly when the prefix is non-empty, with that prefix, path and format |
| Decimal.DecimalRoundTrip | main.cpp:607-609 | the decimal text written for a non-negative number reads back as that number |
| Decimal.IntToDecimalInjective | main.cpp:620-622 | different integers are written as different texts (a leading `-` for negatives) |
| Arguments.RunEnd | main.cpp:359-367 | `-M`'s run of paths ends at the first `-`-prefixed token or at the end; every token before it is a value |
| Arguments.Stride | main.cpp:159-502 | the scan always moves forward, at most one step past the end (a flag with a value skips two tokens even when it is last) |
| Arguments.HopCount | main.cpp:223-233 | the hop count kept is below 256 and congruent to the parsed count modulo 256; counts below 256 are kept as given |
| Arguments.EffectOf | main.cpp:239-250 | an option's effect outside the variables is only a log file added or a settings file loaded |
| Arguments.ApplyAllAppend | main.cpp:159-160 | applying two option lists one after the other equals applying their concatenation |
| Arguments.ApplyAllAfter | main.cpp:157-504 | the resolver's updates do not depend on earlier effects; its effects are appended after them |
| Arguments.AnyExistsSnoc | main.cpp:363-369 | after one more path, some `-M` file existed exactly when one did before or the new path exists |
| Arguments.ScriptEmptyIffNoneExist | main.cpp:361-374 | `-M` adds nothing to the script exactly when none of its paths exists, which is when it is rejected |
| Orchestrator.WithDefaultHost | main.cpp:519-524 | with no host the list becomes exactly the default multicast group; otherwise the settings are unchanged; the list is never empty after |
| Orchestrator.ResolvePlatform | main.cpp:633-634 | the platform is the `-p` value if given, else the knowledge base's `.platform` if present, else the variable's value (the default) |
| Orchestrator.AccentInitsInOrder | main.cpp:639-642 | one accent initialisation per accent, in order, repeats kept |
| Process.Globals.constructor | main.cpp:73-110 | the globals start with the library's default settings, platform and algorithm `debug`, levels and agent count -1, empty texts and no accents |
| Process.Globals.Assign | main.cpp:163-498 | one branch of the chain updates the variables and the effects exactly as `Apply` of that flag and value |
| Process.Globals.AssignTransport | main.cpp:181-498 | `-b`/`-m`/`-u`/`--zmq` append the host and set the kind; `-d`, `-e` (both TTLs, same hop count), `-i`, `-q`, `-r` set their field, as `Apply` says |
| Process.Globals.AssignController | main.cpp:193-422 | `-c`, `--checkpoint-on-loop`/`-send`, `-L`, `--loop-hertz` and `-P` (reciprocal) set the controller settings, as `Apply` says |
| Process.Globals.AssignEffect | main.cpp:239-296 | `-f` adds a log file; `-lt`/`-ltt` load the settings with the load prefix set so far, as `Apply` says |
| Process.Globals.AssignPrefix | main.cpp:276-465 | `-ltp` and `-stp` set the load and save prefix, as `Apply` says |
| Process.Globals.AssignSave | main.cpp:448-474 | `-st` and `-stt` set the binary and text save paths, as `Apply` says |
| Process.Globals.AssignNumber | main.cpp:297-387 | `--madara-level`, `--gams-level` and `-n` read their number, as `Apply` says |
| Process.Globals.AssignLauncher | main.cpp:163-447 | `-A`, `-a` (appended), `-o`, `-p` (and marks it set) and `-t` set the launcher's variables, as `Apply` says |
| Process.Globals.ReadMadaraFiles | main.cpp:359-367 | the inner loop stops at the end of the run of values; it appends each existing file's content and `;\n` in order, and reports whether any existed |
| Process.Globals.HandleFlag | main.cpp:163-502 | one branch: accepted exactly when `Scan` accepts, with the options applied and the index past the consumed tokens; on rejection nothing changes |
| Process.Globals.ShowUsage | main.cpp:112-154 | the usage text is the one effect added |
| Process.Globals.Turn | main.cpp:161-502 | one loop turn: the token is classified and handled, or the usage text is printed with nothing else changed |
| Process.Globals.Advance | main.cpp:159-502 | one loop turn tied to the parse: either the options of this position are applied and the parse continues after them, or the parse ends here with the usage error |
| Process.Globals.HandleArguments | main.cpp:157-504 | returns true exactly when `Parse` accepts the command line; the variables and effects become those of `Handled`: every option applied in order, or the options before the first rejected token followed by the usage text |
| Process.Globals.SetUp | main.cpp:519-629 | the set-up effects in order, with the default host filled in and one read thread |
| Process.Globals.Connect | main.cpp:519-574 | default host, MADARA level, saves, knowledge base, transport, then the bridge with one read thread, in that order |
| Process.Globals.SaveSettingsFiles | main.cpp:532-548 | the binary save then the text save, each only when its path is set; nothing else changes |
| Process.Globals.StartController | main.cpp:577-629 | GAMS level, controller, its variables, the start-up script when non-empty, then the debug-level records; nothing else changes |
| Process.Globals.Initialise | main.cpp:631-642 | the platform is resolved and initialised, then the algorithm, then the accents |
| Process.Globals.InitAccents | main.cpp:638-642 | the loop initialises every accent in order and changes no variable |
| Process.Globals.Launch | main.cpp:519-642 | everything after the parse, as `Orchestrate`; the variables end as `Finalize` |
| Process.Globals.Run | main.cpp:512-642 | the run's effects are `Program`; exit code 0 on both paths; the variables end as the parse and orchestration say |
| ArgumentProperties.UpdateLauncherVariables | main.cpp:163-447 | one option changes the algorithm, host or target only when it is that flag, to its value |
| ArgumentProperties.UpdatePlatform | main.cpp:397-408 | one option sets the platform and marks it set only when it is `-p` |
| ArgumentProperties.UpdateSavePaths | main.cpp:448-474 | one option changes a save path only when it is that save flag |
| ArgumentProperties.UpdatePrefixes | main.cpp:276-465 | one option changes the load or save prefix only when it is `-ltp` or `-stp` |
| ArgumentProperties.UpdateNumbers | main.cpp:297-387 | one option changes a level or the agent count only when it is that flag, to its parsed value |
| ArgumentProperties.UpdateHosts | main.cpp:181-498 | an option other than a load appends a host and sets the kind only when it is a host flag |
| ArgumentProperties.UpdateDomain | main.cpp:214-263 | an option other than a load sets the domain only for `-d` and the id only for `-i` (to its parsed value) |
| ArgumentProperties.UpdateHopCounts | main.cpp:223-238 | an option other than a load changes the two TTLs only for `-e`, which sets both to the hop count of its parsed value |
| ArgumentProperties.UpdateAccumulators | main.cpp:172-375 | one option appends to the accents only for `-a`, and to the script only for `-M` |
| ArgumentProperties.LastWriteWins | main.cpp:163-447 | algorithm, host and target are the last value given, else unchanged |
| ArgumentProperties.LastPlatformWins | main.cpp:397-408 | the platform is the last `-p` value, else unchanged, and is marked set exactly when `-p` was given |
| ArgumentProperties.LastSavePathWins | main.cpp:448-474 | each save path is the last value given to its flag |
| ArgumentProperties.LastPrefixWins | main.cpp:276-465 | the load and save prefixes are the last values given |
| ArgumentProperties.LastNumberWins | main.cpp:297-387 | the levels and the agent count are the parse of the last value given |
| ArgumentProperties.AccentsInOrder | main.cpp:172-180 | the accents are the `-a` values in command-line order, repeats kept |
| ArgumentProperties.ScriptsInOrder | main.cpp:357-375 | the start-up script is every `-M` option's file contents, in order |
| ArgumentProperties.HostsFromFlags | main.cpp:181-498 | the hosts are the host flags' values in order after the initial ones; the kind is the last host flag's, else unchanged |
| ArgumentProperties.DomainFromFlags | main.cpp:214-263 | the domain is the last `-d` value and the id the parse of the last `-i` value, else unchanged |
| ArgumentProperties.HopCountsFromFlags | main.cpp:223-238 | after an `-e`, the rebroadcast and participant TTLs both equal the hop count of the last `-e` value; without one both keep their values |
| ArgumentProperties.LoadUsesEarlierPrefix | main.cpp:264-296 | a load uses the prefix of the last `-ltp` before it, and the overload without a prefix when there is none or it is empty |
| ArgumentProperties.ParseTimeEffects | main.cpp:239-296 | the resolver only appends log-file and settings-load effects to what was done before |
| ArgumentProperties.VisitedInRange | main.cpp:159-502 | the positions the scan treats as flags are strictly increasing argument positions from the start on |
| ArgumentProperties.ParseFromVisited | main.cpp:159-502 | an accepted command line yields the options of every visited position in order; a rejected one keeps exactly the options of the visited positions before the rejected token |
| ArgumentProperties.LookupFirstMatch | main.cpp:163-502 | a token is unknown exactly when no branch lists it; otherwise the first branch that lists it decides |
| ArgumentProperties.UsageAtFirstRejection | main.cpp:159-502 | the parse fails exactly when some scanned position holds a rejected token, and the error is at the first such position |
| ArgumentProperties.LoadsAndSavesNeverReject | main.cpp:264-296 | `-lt`/`-ltp`/`-ltt` (and `-st`/`-stp`/`-stt`, 448-474) always accept: nothing at the end, otherwise the next token whatever it is |
| ArgumentProperties.CheckedValueRejects | main.cpp:165-168 | a value-checked flag is rejected exactly when it is last or the next token starts with `-` (an empty token is a value) |
| ArgumentProperties.MadaraFileRun | main.cpp:357-375 | `-M` consumes the maximal run of values; it is rejected exactly when none of them exists, including when the run is empty |
| ArgumentProperties.SendHertzIsUnknown | main.cpp:144 | `-s` and `--send-hertz` are unknown tokens |
| ProgramProperties.ConnectionQuiet | main.cpp:519-574 | the connection steps add no log file and load no settings |
| ProgramProperties.ControllerStartQuiet | main.cpp:577-629 | the controller's start adds no log file and loads no settings |
| ProgramProperties.OrchestrateAfterParse | main.cpp:519-642 | nothing after the parse adds a log file or loads settings |
| ProgramProperties.UsageActsOnNothing | main.cpp:112-154 | a rejected command line ends with the usage text; every earlier effect is a log file or settings load, and the effects are exactly those of the options at the positions visited before the rejected token |
| ProgramProperties.SavesAfterParse | main.cpp:532-548 | no log file is added and no settings are loaded after any save |
| ProgramProperties.SaveDecision | main.cpp:532-548 | binary save exactly when its path is set, before the text save exactly when its path is set; the prefix is used exactly when non-empty |
| ProgramProperties.TransportAttached | main.cpp:514-574 | the transport is attached with the host flags' hosts in order (the default group when none), the last host flag's kind (multicast when none), and the bridge right after with one read thread |
| ProgramProperties.AttachedAt | main.cpp:560-574 | the transport and then the bridge are attached with the resolved settings, next to each other |
| ProgramProperties.ControllerInitialisation | main.cpp:631-642 | the run ends with the resolved platform, then the last `-A` value (else `debug`), then every `-a` value in order |
| ProgramProperties.DebugAssignmentInjective | main.cpp:605-629 | two records for the same logger are equal only for the same agent id and level |

## Left out

- The ROS node, the spin loop, `knowledge.print` and the thread pool's terminate and wait
  (main.cpp:584, 644-685) are runtime and concurrency plumbing and are not modelled.
- Floating point is not modelled: `-L`, `--loop-hertz` and `-P` keep the value's text
  (`Number`, and `Reciprocal` for the `1 / x` of `-P`). `round_nearest` and the unused
  `TEST`/`LOG` macros (main.cpp:25-51) are not part of this model.
- `stringstream` number parsing is the abstract total function `Env.parseInt`. Parse failure and
  overflow are not modelled.
- Arguments.HopCount: the unsigned 8-bit TTL setters are modelled explicitly (modulo 256). The
  widths of the id, the queue length and the agent count are not; they are unbounded integers.
- The settings-file formats and the effect of a load on the settings are the abstract function
  `Env.load`. File existence and contents for `-M` are the map `Env.files`.
- Logger internals are not modelled. `-f` is one `AddLogFile` effect standing for both loggers'
  `add_file`, and each `set_level` is an event.
- What the knowledge base does with an evaluation is not modelled; `Evaluate` records the text
  and its settings. The `.platform` value the knowledge base holds when the platform is resolved
  is the parameter `kbPlatform`. The bridge's knowledge-base id argument (main.cpp:572) is not
  recorded.
- The usage text itself is not modelled. Its `exit(0)` becomes the `PrintUsage` effect: after it,
  `HandleArguments` returns false and `Run` does nothing more and returns 0.
- `argv[0]` (the program name) is not part of `args`, so position 0 is `argv[1]`.
- The unused `default_broadcast` constant (main.cpp:73) and `aliases` vector (main.cpp:589) are
  not modelled.
- ArgumentProperties.HostsFromFlags: stated only for option lists without `-lt`/`-ltt`. A load
  replaces the whole settings object with what the file holds.
- ArgumentProperties.DomainFromFlags: stated only for option lists without `-lt`/`-ltt`, for the
  same reason.
- ArgumentProperties.HopCountsFromFlags: stated only for option lists without `-lt`/`-ltt`, for the
  same reason.
- ProgramProperties.TransportAttached: stated only for command lines without `-lt`/`-ltt`, for the
  same reason. `ProgramProperties.AttachedAt` covers every command line, against `ApplyAll`.
- Some flags have no last-write-wins lemma over a whole option list: the controller settings
  (`-c`, `--checkpoint-on-*`, `-L`, `--loop-hertz`, `-P`), the queue length and the reduced
  header. Their one-step behaviour is stated by the `Process.Globals.Assign*` contracts through
  `Apply`.
