# SudaWebLogger in Dafny

A model of the campus-network login tool for Soochow University. The tool
reads the client's IP from the portal status page at `http://10.9.1.3/`
(the `ss5="…"` attribute), then sends a China Mobile login request to
`http://10.9.1.3:801/eportal/`. The request carries the account with the
`@zgyd` realm, the password, the IP and a random `v` value. The tool then
reads the `"result":"<digit>"` code from the reply.

The repository has two entry points, and both are modelled:

- **The interactive controller** (`App.cs`, module `Session`). It runs a
  menu loop with three actions: log in (or retry), change the profile, exit.
  It works on one in-memory login profile, loaded at most once from
  `Login.config` through the profile store (`ProfileService.cs`, module
  `Profiles`). The login service (`LoginService.cs`, module `Login`) probes
  the IP and dispatches on the carrier.
- **The single-shot program** (`Program.cs`, module `SingleShot`). It reads
  its credentials from `config.ini`, asks once for confirmation and sends one
  request.

Two shared modules support them:

- `Platform` holds the HTTP outcome, the exception kinds that decide which
  catch clause runs, `Random.Next` and `int.ToString()`.
- `Patterns` holds the two regular expressions as hand-written matchers. The
  IP pattern `ss5="(\d+.\d+.\d+.\d+)"` is a backtracking engine over the
  greedy `\d+` runs. It is proved sound and complete, and its first match is
  proved to be the leftmost one, as `Matches(…)[0]` takes it. Where several
  group ends fit at that start, the one it reports is proved to be the one
  greedy priority picks: each earlier run as long as the rest allows.

Where code reads the outside world, the model takes that as a parameter:

- replies of the portal: an `HttpReply`, or a function from URL to reply;
- the random draw;
- answers typed at the prompts;
- the contents of the configuration files;
- whether a file write throws.

Classes stand for the objects whose fields change: `ProfileService`,
`LoginService`, `App` and the static fields of `Program`. For `App`,
`Session.RunSpec` states what a run over a script of turns does. `App.Run`
is proved to do exactly that. The lemmas about `RunSpec` state what the
controller promises:

- the profile is read at most once;
- the changed flag is never cleared;
- the profile is written exactly once, at exit, and only when it changed;
- only Exit ends a run normally;
- login attempts never alter the profile.

Points of the code that the model keeps as written:

- Carriers other than China Mobile throw `NotImplementedException`, and
  nothing catches it, so the interactive loop ends there.
- A successful login does not end the loop; only Exit does.
- Account and password go into the URL verbatim, with no URL escaping
  (`Login.UnescapedCredentialsCollide`).
- An unknown result digit is a plain failure in the login service. In the
  single-shot program it prints nothing. A reply without a result code
  escapes the single-shot program as an uncaught exception.

## Model

| member | source | states |
|---|---|---|
| Platform.Random | Program.cs:100-102 | `Random.Next(low, max)` lies in `[low, max)`, or is `low` for an empty range |
| Platform.DecimalString | LoginService.cs:58 | `ToString()` of a non-negative number is a non-empty digit string that starts with '0' only for zero |
| Platform.DecimalRoundTrip | LoginService.cs:58 | reading back the digits that `ToString()` writes gives the number |
| Platform.DecimalLength | LoginService.cs:58 | a number below 10^k has at most k digits |
| Patterns.DigitRun | LoginService.cs:46 | the greedy `\d+` first takes the longest digit run, and the next character is not a digit |
| Patterns.MatchRuns | LoginService.cs:46 | a group end the backtracking engine returns is a real match: k digit runs joined by non-newline characters, followed by a quote |
| Patterns.TryRun | LoginService.cs:46 | shortening the first run one digit at a time returns only real matches |
| Patterns.MatchRunsComplete | LoginService.cs:46 | backtracking is complete: when any split of the text fits the pattern, the engine finds one |
| Patterns.TryRunFinds | LoginService.cs:46 | the backtracking loop reaches every run length that leads to a match |
| Patterns.GreedyEndMatches | LoginService.cs:46 | the group end chosen by greedy priority is a match of the pattern |
| Patterns.GreedyEndUnique | LoginService.cs:46 | at most one group end has the greedy priority: each earlier run is the longest that still lets the rest match |
| Patterns.MatchRunsGreedy | LoginService.cs:46 | the end the backtracking engine returns is the greedy one, as .NET's backtracking over `\d+` settles on it |
| Patterns.TryRunGreedy | LoginService.cs:46 | shortening the first run from the longest down stops at the first length that lets the rest match, which is the greedy choice |
| Patterns.IpMatchFrom | LoginService.cs:46 | the engine's success at a start position is a match of the `ss5` pattern there |
| Patterns.IpMatchFromComplete | LoginService.cs:46 | the engine succeeds at every start position where the `ss5` pattern matches |
| Patterns.FirstIpStartSpec | LoginService.cs:28 | the scan for the engine's first successful start: no earlier position succeeds, and None means no position does |
| Patterns.FirstIpStartIsLeftmost | LoginService.cs:28 | the engine's first start is exactly the leftmost start of any match, and None means there is no match at all |
| Patterns.FirstIpSpec | LoginService.cs:28 | `Matches(body)[0].Groups[1]` as `FirstIp` computes it: None exactly when nothing matches; otherwise the group of the leftmost match, shaped as four digit runs |
| Patterns.FirstIpIsGreedy | LoginService.cs:28 | the group `FirstIp` returns ends where greedy priority puts it, at the leftmost start |
| Patterns.GreedyCaptureFixesFirstIp | LoginService.cs:28 | the leftmost start and the greedy end alone fix the returned group; no other end that fits there is reported |
| Patterns.CaptureIsIpShaped | LoginService.cs:46 | the text a match captures is four digit runs joined by single characters |
| Patterns.IpShapedEnds | Program.cs:164-175 | a captured IP starts and ends with a digit, so it is never the sentinel "-1" |
| Patterns.FirstResultStartSpec | LoginService.cs:88 | the scan for `"result":"<digit>"` stops at a match with no match before it, and None means there is none |
| Patterns.ResultCode | LoginService.cs:74-75 | the reported result code is always a digit, as `(\d)` captures |
| Patterns.ResultCodeSpec | LoginService.cs:74-75 | None exactly when the result pattern matches nowhere; otherwise the digit of the leftmost match |
| Profiles.ParseAccountType | ProfileService.cs:56-62 | accepts exactly the four enum names and yields the carrier named; any other string is the throwing case |
| Profiles.GetConfigValue | ProfileService.cs:93-95 | the stored value when there is a configuration and the key is present, otherwise the default |
| Profiles.ReadProfile | ProfileService.cs:49-69 | succeeds exactly when configuration and file exist and the carrier name parses. On success it holds the stored profile. On a bad carrier the new account stays, and carrier and password keep their old values |
| Profiles.WriteSettings | ProfileService.cs:78-80 | the three keys hold the profile's account, carrier name and password; every other key is unchanged |
| Profiles.WriteThenRead | ProfileService.cs:71-91 | a profile written into the settings and read back is returned unchanged, whatever the reader's target held |
| Profiles.ConfigText | ProfileService.cs:105-113 | the generated file starts with the fixed header and ends with the fixed footer, and its length is that of three `add` entries holding the three keys and the values as they are |
| Profiles.WriteProfile | ProfileService.cs:71-91 | with no configuration or no file, the file is created from the template. Otherwise the settings become `WriteSettings` of the old ones, read back as the profile and are saved. When the write throws, the file is left as it was |
| Profiles.ProfileService.constructor | ProfileService.cs:35-47 | the opened configuration (None when opening threw) and the file are the inputs |
| Profiles.ProfileService.TryReadProfile | ProfileService.cs:49-69 | returns what `ReadProfile` gives for the current configuration and file |
| Profiles.ProfileService.SetConfigValue | ProfileService.cs:97-103 | the settings become the old ones with the key added or updated to the value; other keys are unchanged |
| Profiles.ProfileService.TryWriteProfile | ProfileService.cs:71-91 | reports success exactly when the write does not throw; configuration and file end as `WriteProfile` says |
| Login.LoginUrlLayout | LoginService.cs:59-67 | every part of the URL sits at its fixed place: head, account, realm, password field, password, IP field, IP, version field, `v` and CR LF, each value inserted as it is |
| Login.UnescapedCredentialsCollide | LoginService.cs:59-67 | with no escaping, an account holding the realm and password field gives the same URL as a shorter account with a longer password |
| Login.Complement | LoginService.cs:58 | `v` has one to three digits, no leading zero, and denotes a number in 1..998 |
| Login.MobileAttempt | LoginService.cs:68-82 | returns true exactly on a successful reply whose first code is '1', false exactly on '0'; otherwise one of four exceptions |
| Login.MobileLogin | LoginService.cs:56-86 | the China Mobile strategy succeeds exactly when the portal's reply to the login URL is successful with first code '1' |
| Login.StrategyForIsOneToOne | LoginService.cs:36-42 | each carrier is dispatched to a strategy of its own |
| Login.Dispatch | LoginService.cs:35-44 | throws exactly for the carriers other than China Mobile, always `NotImplementedException`; otherwise returns the China Mobile verdict |
| Login.ProbeIpSpec | LoginService.cs:23-31 | yields an IP exactly when the page was fetched with a successful status and contains a match; it is the first match's group and IP-shaped |
| Login.LoginService.constructor | LoginService.cs:15-17 | no strategy is chosen yet |
| Login.LoginService.TryGetIp | LoginService.cs:19-33 | succeeds exactly when `ProbeIp` finds an IP and then returns it; on failure the caller's `ref` value is kept |
| Login.LoginService.TryLogin | LoginService.cs:35-44 | records the carrier's strategy and yields the `Dispatch` outcome |
| Session.ParseUserAction | App.cs:175-187 | accepts exactly the three menu labels and maps each to its action |
| Session.ParseCarrier | App.cs:193-204 | accepts exactly the four carrier labels and maps each to its carrier |
| Session.LabelsAreDistinct | App.cs:180-204 | different actions and different carriers have different labels |
| Session.MenuRoundTrip | App.cs:175-187 | the label offered for each action is parsed back to that action |
| Session.CarrierRoundTrip | App.cs:193-204 | the label offered for each carrier is parsed back to that carrier |
| Session.App.CreateLoginProfile | App.cs:189-215 | the new profile holds the carrier whose label was selected and the account and password as typed |
| Session.AttemptSpec | App.cs:64-79 | a login aborts exactly when an IP was found and the carrier is not China Mobile, with `NotImplementedException`; success needs China Mobile and an IP |
| Session.AttemptOutcomes | App.cs:64-79 | no IP exactly when the probe fails; with an IP, China Mobile logs in exactly when `MobileLogin` succeeds and is rejected exactly when it fails |
| Session.RunReadsProfileOnce | App.cs:38-47 | over any run the store is read at most once, and it has been read once any turn was taken |
| Session.RunKeepsChangedFlag | App.cs:49-62 | once the profile is marked changed, it stays marked for the rest of the run |
| Session.FailedReadForcesSave | App.cs:38-56 | when the first read fails, the created profile is marked changed, and a run that exits writes it once |
| Session.RunWritesOnlyOnExit | App.cs:120-124 | a run writes the profile exactly once if it ends by Exit with a changed profile, and never otherwise |
| Session.RunEndsOnlyOnExit | App.cs:14-36 | the run ends normally only at the first Exit; a crash happens only on a login turn; with no Exit every turn is consumed |
| Session.TurnStops | App.cs:14-36 | one pass stops the loop exactly on Exit or on a login attempt that aborts, in both directions, so a login that succeeds, is rejected or finds no IP goes back to the menu; it ends normally exactly on Exit |
| Session.MobileRunNeverCrashes | App.cs:29-31 | a run whose loaded profile is China Mobile and that has no ChangeProfile turn never crashes, since every login attempt returns to the menu |
| Session.LoginsKeepProfile | App.cs:64-79 | a run with no ChangeProfile turn ends with the profile and changed flag as first loaded |
| Session.App.constructor | App.cs:8-12 | starts with the default profile, both flags false, a fresh store and a fresh login service |
| Session.App.Run | App.cs:14-36 | final state, end and turns consumed are those of `RunSpec`; the store is written only by an Exit with a changed profile, as `WriteProfile` says |
| Session.RunSpecCons | App.cs:14-36 | a run takes its first turn as `TurnSpec` says, then stops with that turn's end or goes on with the remaining turns |
| Session.App.Step | App.cs:15-35 | one pass of the loop advances the run as `RunSpec` says: it stops where the whole run stops, or leaves the run over the remaining turns |
| Session.App.HandleTurn | App.cs:16-34 | one pass loads the profile, reads the menu choice and handles it, exactly as `TurnSpec` says; only an Exit with a changed profile touches the store |
| Session.App.EnsureProfileLoaded | App.cs:38-47 | the state after loading is `Load` of the state before |
| Session.App.PromptForNewProfile | App.cs:49-56 | the profile becomes the answered one and is marked changed |
| Session.App.HandleChangeProfile | App.cs:58-62 | the profile becomes the answered one and is marked changed |
| Session.App.HandleLogin | App.cs:64-79 | the controller's state is unchanged; the attempt is `AttemptSpec` of the current profile |
| Session.App.HandleExit | App.cs:120-124 | saves exactly when the profile changed; reports nothing to save, saved or save failed |
| Session.App.SaveProfile | App.cs:126-133 | one write; success exactly when the write does not throw |
| SingleShot.IniValue | Program.cs:78 | `config[key]` is the stored value, or null when the file or key is missing |
| SingleShot.LogIp | Program.cs:155-176 | a failed status escapes as `HttpRequestException`; "-1" exactly on transport failure or no match; any other value is the probed IP |
| SingleShot.ConnectOutcome | Program.cs:190-211 | accepted on '1', rejected on '0', request error exactly on a failed status; a transport failure or a missing code escapes |
| SingleShot.VerdictsAgree | Program.cs:198-207 | the single-shot program and the China Mobile strategy agree on success and failure; whatever escapes here is a throw there |
| SingleShot.Shot | Program.cs:12-49 | stops early exactly when the credentials are incomplete. It sends a URL exactly when the credentials are complete, an IP was found and the user confirmed, and then sends exactly one: the login URL. It reports success exactly on a '1' reply. A failed status page crashes the program with `HttpRequestException` before any URL is sent. It ends `NoIp` exactly on a transport failure or a page with no IP, and `Declined` exactly when an IP was found but the user refused. A sent request ends as `ConnectOutcome` of the portal's reply says |
| SingleShot.NetTypeIgnored | Program.cs:184-189 | any two non-empty carrier names give the same run: the realm is always `@zgyd` |
| SingleShot.Program.constructor | Program.cs:214-218 | all static fields start out null |
| SingleShot.Program.ProfileReader | Program.cs:65-98 | succeeds exactly when all three values are non-empty. Each field is assigned before it is checked, and fields after the first empty one are untouched |
| SingleShot.Program.SendConnectRequest | Program.cs:182-212 | the outcome is `ConnectOutcome` of the portal's reply to the URL formatted from the fields |
| SingleShot.Program.RunOnce | Program.cs:12-49 | end and sent URLs are those of `Shot`; when a URL is sent, the fields hold the probed IP and the drawn `v` |

## Left out

- Terminal UI is not modelled: titles, panels, spinners, colours, the messages printed, the key waits and `system("pause")`. `DisplayProfile` and `ShowProfile` are left out for the same reason. They only render the profile, and `DisplayProfile`'s throwing default branch cannot be reached by any enum value.
- HTTP is not modelled, nor is the gb2312 decoding of the status page. A reply is an input, and the body arrives already decoded. Reading the body is assumed not to throw.
- `Random` is an input draw, not a generator.
- `\d` is modelled as the ASCII digits only. .NET's `\d` also matches other Unicode decimal digits.
- Only the two fixed regular expressions are modelled, not a general regex engine.
- File and configuration I/O are not modelled. The `Login.config` file's existence and settings are inputs, and so is the flattened `config.ini`. Both stores look keys up ignoring case: the INI provider and the `appSettings` collection of `Login.config`. The model's maps are case-sensitive. The INI provider's parse errors are reduced to None when building the configuration throws.
- Profiles.ConfigText: its contract fixes the header, footer and total length, not each entry's position. The verbatim string in the source holds whatever line endings its own file was saved with; the model uses `\n`.
- Null strings are not modelled. The default `LoginProfile` has null account and password, and the model uses "" for them. The prompts never return null.
- A selection prompt only returns one of the choices it offers, so a turn carries the chosen action or carrier, and the model turns it into its label and parses it back. The switch defaults that throw `InvalidEnumArgumentException` or `InvalidCastException` cannot be reached; the parse functions return None for other strings.
- `ShowProfilePath` in Program.cs displays `./cofig.ini` while the file read is `config.ini`. This is display text only and is not modelled.
- The `Login.config` path and the `config.ini` base directory come from the environment and are not part of this model.
- Session.App.Run: the source loop never returns on its own. The model runs over a finite script of turns, and ends `AwaitingInput` when the script runs out.
