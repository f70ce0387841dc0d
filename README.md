# dynamic-dns-keeper, modelled in Dafny

dynamic-dns-keeper keeps DNS records pointed at a host's changing address. Each configured
record gets its own worker. On every tick the worker does four things:

1. It runs a shell command that prints the current IP address.
2. It parses that output.
3. It asks the record's registrar (Cloudflare or Aliyun) to update the record.
4. It may run an "on update" command, with `${IP_ADDRESS}` replaced by the address.

The repository holds two implementations:

- **Go:** `main.go`, `config.go`, `executor.go`, `worker.go`, `cloudflare_dns.go`, `aliyun_dns.go`.
- **Rust:** `src/cmd.rs`, `src/worker.rs`, `src/cloudflare.rs`, `src/d2k_core/cloudflare.rs`.

This project models both, one Dafny module per source file:

| module | file | models |
|---|---|---|
| `GoConfig` | `go_config.dfy` | the typed `api_param` lookups and the default check interval |
| `GoMain` | `go_main.dfy` | how the configuration path is chosen |
| `GoExecutor` | `go_executor.dfy` | `RunCommand` and `RunCommandArray` |
| `GoCloudflare` | `go_cloudflare.dfy` | the Cloudflare updater: a class whose `Update` rewrites the cached record id and IP |
| `GoAliyun` | `go_aliyun.dfy` | the Aliyun updater: a class whose `Update` rewrites the cached IP |
| `GoWorker` | `go_worker.dfy` | registrar selection, one tick, the process-global `updatedIPs` map, and a worker's loop over its ticks |
| `RustCmd` | `rust_cmd.dfy` | `run` (split on single spaces) and `run_array` (split on `;`) |
| `RustCloudflare` | `rust_cloudflare.dfy` | `Cloudflare::update`: one GET, a gate, a compare and at most one PUT |
| `RustCoreCloudflare` | `rust_core_cloudflare.dfy` | the same update over the `A`/`AAAA` record enum |
| `RustWorker` | `rust_worker.dfy` | one pass of the worker loop, the environment variable `ddk_update_ip_list` as a class field, and many cycles over that shared variable |

Four support modules hold what the source takes from its libraries:

- `Strings` (`strings.dfy`):
  - `strings.Split` / `str::split`;
  - joins;
  - `Contains`;
  - `ReplaceAll` / `replace`;
  - Go's `unicode.IsSpace`, `TrimSpace` and `Fields`;
  - `ToLower`.
- `Wrappers` (`wrappers.dfy`): `Option` and `Result`.
- `Net` (`net.dfy`): an IP address and its text form.
- `Process` (`process.dfy`): an argument vector.

The outside world enters as inputs:

- **Launching a process:** an `Executor` (Go) or a `Spawner` (Rust) gives what the operating system would report.
- **HTTP and SDK calls:** datatypes of their possible replies.
- **Parsers:** `strconv.ParseInt`, `strconv.ParseBool`, `net.ParseIP`, `IpAddr::from_str`, `str::parse::<u32>` and `str::parse::<bool>` are function-typed parameters.

The functions and lemmas are where the proofs live. Every changing thing in the source is a
class or a method, and each is ensured equal to a pure step function:

- the updaters' caches;
- the dedup map;
- the environment variable;
- the loops.

The properties are lemmas about those step functions.

Behaviour of the code that the model keeps as written:

- **Go dedup is process-global and never forgets.** `updatedIPs` is shared by all workers and nothing ever clears it.
  - An address the hook has run for never runs it again, by any record.
  - So an address returning after another does not rerun the hook: A, then B, then A runs it for A and B only (`GoWorker.ReturningAddressNotRerun`).
- **No address-family check.** The A/AAAA check in `worker.go:76-84` is commented out, so no address is refused for its family.
- **Rust parses raw output.** `IpAddr::from_str` receives the command's untrimmed output, so a trailing newline makes the parse fail.
- **Rust `update` return type.** The trait in `src/function.rs:6` declares that `update` returns nothing. The `src/cloudflare.rs` implementation returns `bool`. The model uses the implementation's `bool`; `updated` is only printed.
- **Rust PUT body.** An answered PUT whose body cannot be read panics (`text().unwrap()`).

## Model

| member | source | states |
|---|---|---|
| GoConfig.GetStringParam | config.go:55-68 | Ok exactly when the key holds a string, or is absent and not required (then ""); otherwise WrongType for a present non-string, Missing for an absent required key |
| GoConfig.GetInt64Param | config.go:71-92 | absent: 0, or Missing when required; an int64 value is returned; a string is parsed as decimal int64 or fails as unparsable; any other type is WrongType |
| GoConfig.GetBoolParam | config.go:95-117 | absent: false, or Missing when required; a bool is returned; a string goes through ParseBool; any other type is WrongType |
| GoConfig.RequiredOnlyGuardsMissing | config.go:55-117 | for a key that is present, the `required` flag changes none of the three lookups |
| GoConfig.ReadConfig | config.go:34-52 | decode errors pass through; records are kept; the check interval ends positive and is replaced by 60 exactly when it was zero or below |
| GoMain.ResolveConfigPath | main.go:17-43 | a non-empty DDK_CONFIG wins; otherwise `-config` unless it holds the default, then `-c`; whether `-c` was visited never matters |
| GoMain.NoFlagsNoEnv | main.go:14-43 | with no flags and no DDK_CONFIG the path is /etc/ddk/config.toml |
| GoExecutor.CommandArgv | executor.go:13-24 | "" is EmptyCommand, all-white-space is EmptyAfterSplit; otherwise the program and arguments are exactly `strings.Fields` of the command, each non-empty and space-free |
| GoExecutor.RunCommand | executor.go:13-35 | a process is launched exactly when CommandArgv succeeds, with that vector; a failing process returns its raw output and an error, a succeeding one its trimmed output and no error |
| GoExecutor.RunCommandOutputTrimmed | executor.go:27-34 | a successful RunCommand's output has no white space at either end |
| GoExecutor.RunCommandArray | executor.go:38-52 | runs RunCommand on each of ArrayCommands in order, one run per command, and an error does not stop the rest; "" runs nothing |
| GoExecutor.NonEmptyTrimmedShape | executor.go:42-45 | each command kept is non-empty, trimmed, free of ';', and the trim of one of the split pieces |
| GoExecutor.ArrayCommandsAreRunnable | executor.go:42-46 | every command RunCommandArray runs passes RunCommand's emptiness checks |
| GoExecutor.NonEmptyTrimmedKeeps | executor.go:43-45 | non-empty, already trimmed pieces are all kept unchanged |
| GoExecutor.ArrayCommandsOfJoin | executor.go:38-52 | trimmed, non-empty, ';'-free commands joined by ';' are run back exactly, in order |
| GoCloudflare.NewSettings | cloudflare_dns.go:76-111 | succeeds exactly when all eight required parameters are present and well typed, and then carries their values |
| GoCloudflare.MissingParamFails | cloudflare_dns.go:76-111 | an absent required parameter makes construction fail |
| GoCloudflare.FqdnShape | cloudflare_dns.go:138-141 | the queried name ends with the domain; it is the domain itself for "@" or the domain, else `name.domain` |
| GoCloudflare.FetchStepCases | cloudflare_dns.go:136-191 | no error exactly when the list reply is 200, decodable and successful; a failure keeps the cache, an empty result clears it, otherwise the first record's id and content are stored |
| GoCloudflare.NoWriteExactlyWhenCurrent | cloudflare_dns.go:202-211 | no write is sent exactly when, after the re-fetch, a record id is known and its IP equals the new address; then the result is (false, nil) |
| GoCloudflare.WriteTarget | cloudflare_dns.go:213-243 | without a known id the write is a POST to the zone, with one a PUT to that record, carrying type, FQDN, address, ttl and proxied |
| GoCloudflare.WriteResult | cloudflare_dns.go:253-286 | a failed write returns (false, err) and keeps the re-fetched cache; a successful one returns (true, nil), stores the reply's content and adopts the reply's id only when none was known |
| GoCloudflare.UpdatedMeansNoError | cloudflare_dns.go:194-287 | Update never returns true together with an error |
| GoCloudflare.SecondUpdateSendsNothing | cloudflare_dns.go:194-287 | after an acknowledged write of an address with a known id, a second Update for it whose re-fetch fails or lists that record sends nothing |
| GoCloudflare.CloudflareUpdater.constructor | cloudflare_dns.go:113-133 | the new updater holds the settings and the cache its initial fetch leaves |
| GoCloudflare.CloudflareUpdater.FetchDNSRecordDetails | cloudflare_dns.go:136-191 | sends the zone/type/FQDN query and rewrites the cache as FetchStep does |
| GoCloudflare.CloudflareUpdater.Update | cloudflare_dns.go:194-287 | every call sends the re-fetch's zone/type/FQDN list query; the result, the write sent and the new cache are UpdateStep of the old cache |
| GoCloudflare.NewCloudflareUpdater | cloudflare_dns.go:76-134 | fails exactly when NewSettings fails, with its error; a failed initial fetch does not fail construction |
| GoAliyun.OptionalOr | aliyun_dns.go:67-75 | a non-empty string parameter is used, anything else falls back to the default |
| GoAliyun.NewSettingsCases | aliyun_dns.go:27-98 | construction succeeds exactly when the seven required keys hold strings, record_ttl parses and the client is created; line and endpoint default to "default" and "alidns.aliyuncs.com" |
| GoAliyun.IntegerTtlRefused | aliyun_dns.go:58-65 | a record_ttl given as a TOML integer is refused |
| GoAliyun.FetchCurrentRecordIP | aliyun_dns.go:102-128 | Ok exactly when the call succeeds and response, body and value are all non-nil, with that value |
| GoAliyun.UpdateStepCases | aliyun_dns.go:131-185 | no write exactly when the known IP equals the new address, then (false, nil); otherwise the request carries the settings and address, an error returns (false, err) keeping the known IP, success stores the address and returns (true, nil) |
| GoAliyun.KnownIPCases | aliyun_dns.go:136-144 | a failed fetch falls back to the cached IP, a successful one replaces it |
| GoAliyun.FirstUpdateWithFailedFetchWrites | aliyun_dns.go:136-160 | with the initial empty cache, an Update whose fetch fails still writes |
| GoAliyun.StaleCacheSuppressesWrite | aliyun_dns.go:136-184 | after a successful write, an Update for the same address whose fetch fails sends nothing |
| GoAliyun.AliyunUpdater.constructor | aliyun_dns.go:88-97 | the new updater holds the settings and an empty current IP |
| GoAliyun.AliyunUpdater.Update | aliyun_dns.go:131-185 | the result, the request sent and the new current IP are UpdateStep of the old one |
| GoAliyun.NewAliyunUpdater | aliyun_dns.go:27-98 | fails exactly when NewSettings fails, with its error; otherwise a fresh updater with no IP known |
| GoWorker.SelectRegistrar | worker.go:37-45 | Aliyun exactly when the lower-cased name is "aliyun", Cloudflare exactly when it is "cloudflare", None otherwise |
| GoWorker.SelectRegistrarIgnoresAsciiCase | worker.go:37 | upper-casing the name's ASCII letters never changes the choice |
| GoWorker.UpdateOnce | worker.go:86-90 | the call is the chosen registrar's UpdateStep on its settings and cache or current IP, the updater kind is kept, and a reported change never comes with an error |
| GoWorker.InitialState | worker.go:34-50 | None for an unsupported registrar or a failed constructor; Aliyun gives its settings with no known IP, Cloudflare its settings with the cache its initial fetch leaves |
| GoWorker.ResolveAddress | worker.go:59-74 | a command error and an empty output stop the tick; it goes on exactly when the output is non-empty and parses, with the text RunCommand returned |
| GoWorker.ResolveFailureSkipsTick | worker.go:59-74 | an unresolved address calls no Update, runs no hook and changes neither the updater nor the map |
| GoWorker.HookOnlyAfterUpdate | worker.go:86-109 | the hook is run or skipped only after Update returned (true, nil) with a template configured; a failed Update leaves the map |
| GoWorker.HookRunsOnceMarked | worker.go:94-105 | a hook runs only for an address not yet processed, which is then marked, with `${IP_ADDRESS}` replaced by it |
| GoWorker.HookCommandSubstitutes | worker.go:103 | for a template of `$`-free pieces joined by `${IP_ADDRESS}`, the command a tick runs is those pieces joined by the address |
| GoWorker.TickDedup | worker.go:94-105 | only a hook run changes the map, adding an address that was not processed |
| GoWorker.AtMostOncePerIP | worker.go:94-105 | across all workers' ticks the hook addresses are pairwise distinct, none processed before, all processed after, and no mark is cleared |
| GoWorker.UpdatesToTick | worker.go:92-109 | a tick updating to an address runs the hook unless the address was processed, and marks it |
| GoWorker.TwoAddressesBothRun | worker.go:92-109 | updates to two different addresses both run the hook |
| GoWorker.ReturningAddressNotRerun | worker.go:92-109 | updates to A, then B, then A run the hook for A and B and skip A the second time |
| GoWorker.RunTicksIsShared | worker.go:55-119 | one worker's loop is one ordering of ticks on the shared map |
| GoWorker.WorkerRunsHookOncePerIP | worker.go:55-119 | within one worker the hook never runs twice for one address |
| GoWorker.UpdatedIPs.constructor | worker.go:94-100 | the map starts empty |
| GoWorker.UpdatedIPs.CheckAndMark | worker.go:95-100 | reports whether the address was marked and marks it if not |
| GoWorker.Tick | worker.go:58-113 | outcome, updater state and map are TickStep of the old ones; when the hook ran, the on-update runs are RunCommandArray's runs of the substituted command, and none otherwise |
| GoWorker.NewUpdater | worker.go:34-50 | an updater exactly when InitialState gives one, freshly allocated, in that state |
| GoWorker.ProcessRecord | worker.go:29-120 | polls exactly when an updater is built; the outcomes, final state and map are RunTicks over the ticks |
| RustCmd.CommandOf | src/cmd.rs:7-12 | program and arguments are exactly the pieces of the command split on single spaces; the program is empty exactly when the command is empty or starts with a space |
| RustCmd.CommandOfRoundTrip | src/cmd.rs:7-12 | joining program and arguments with single spaces gives the command back |
| RustCmd.CommandOfWords | src/cmd.rs:7-12 | space-free words joined by spaces come back as program and arguments |
| RustCmd.DoubleSpaceGivesEmptyArgument | src/cmd.rs:7-12 | two spaces in a row give an empty argument |
| RustCmd.RunOutcomeOf | src/cmd.rs:14-22 | a spawn error panics; otherwise the untrimmed stdout is Ok on success and Err on failure |
| RustCmd.Run | src/cmd.rs:4-23 | launches CommandOf(command) and returns RunOutcomeOf of what the spawn reports |
| RustCmd.RunArray | src/cmd.rs:25-30 | launches the ';'-pieces in order up to the first spawn failure, and panics exactly when some piece cannot be spawned |
| RustCmd.AttemptsArePieces | src/cmd.rs:25-30 | the launched vectors are the pieces' vectors in order, all of them when nothing fails to spawn |
| RustCmd.RunArrayRunsEveryPiece | src/cmd.rs:25-30 | when no piece fails to spawn, one process per piece is launched, in order, with nothing trimmed or skipped; with a real spawner this needs every piece to start with a program name (see AttemptsStopAtEmptyProgram) |
| RustCmd.AttemptsStopAtEmptyProgram | src/cmd.rs:25-30 | when an empty program cannot be spawned, the first piece that is empty or starts with a space is the last one tried: `run_array` panics there, after launching the pieces before it |
| RustCmd.SpaceAfterSemicolonPanics | src/cmd.rs:25-30 | `"a; b"` runs `a`, then tries the program "" with argument "b" and panics, so `b` never runs |
| RustCloudflare.PutExactlyWhenChanged | src/cloudflare.rs:62-92 | a PUT is sent exactly when the gate passes, the first record reads, its content differs and ttl and proxied parse; it goes to that id with the bare name and the new address |
| RustCloudflare.TrueExactlyWhenPutAnswered | src/cloudflare.rs:86-97 | true exactly when a PUT was sent and answered |
| RustCloudflare.GetFailureReturnsFalse | src/cloudflare.rs:40-55 | a failed GET or an unreadable body returns false and sends no PUT |
| RustCloudflare.NoPutUnlessGatePasses | src/cloudflare.rs:62-99 | without `success: true` and `count: 1` no PUT is sent and true is never returned |
| RustCloudflare.PanicCases | src/cloudflare.rs:60-84 | the unwrap panics: non-JSON body, missing success, missing count after success, unreadable result, unparsable ttl or proxied; `success: false` returns false |
| RustCloudflare.RootNameNotSpecialCased | src/cloudflare.rs:37-38 | a root name "@" is queried as "@.domain", unlike the Go updater's domain |
| RustCoreCloudflare.DesiredContent | src/d2k_core/cloudflare.rs:53-57 | the content wanted is the address of the A or AAAA record |
| RustCoreCloudflare.AgreesWithCloudflareRs | src/d2k_core/cloudflare.rs:23-86 | same GET and same PUT as src/cloudflare.rs for every reply; an unreadable GET body panics here |
| RustCoreCloudflare.PutOnlyWhenContentDiffers | src/d2k_core/cloudflare.rs:45-84 | a PUT is sent exactly when the gate passes, the first record reads, its content differs and ttl and proxied parse, with that body |
| RustCoreCloudflare.GetFailureSendsNothing | src/d2k_core/cloudflare.rs:29-43 | a failed GET returns and an unreadable body panics, neither sending a PUT |
| RustWorker.UpdateOnlyAfterParse | src/worker.rs:20-26 | the updater is called exactly when the command succeeds and its raw output parses, with that address; a missing command key panics; otherwise nothing changes |
| RustWorker.DedupIgnoresUpdated | src/worker.rs:26-41 | whatever update returned, the address is already listed exactly when the test finds it, otherwise recorded unless the hook panics |
| RustWorker.ListedAppends | src/worker.rs:31-41 | only a recorded address changes the environment, appending ";" and the raw output even without a hook; the hook is the substituted template |
| RustWorker.HookSubstitutes | src/worker.rs:36 | for a template of `$`-free pieces joined by `${IP_ADDRESS}`, a recorded address's hook is those pieces joined by the raw output |
| Strings.ReplaceAllPlaceholder | worker.go:103 | replacing a `$`-led placeholder in a template of `$`-free pieces puts the replacement exactly where each placeholder stood and changes nothing else; `src/worker.rs:36` relies on the same fact |
| RustWorker.SeenKept | src/worker.rs:32-40 | recording an address keeps the list holding every address it held |
| RustWorker.RecordedEntries | src/worker.rs:40 | recording a ';'-free address adds exactly that entry |
| RustWorker.SeenAfterRecording | src/worker.rs:32-40 | a recorded address is found in the list afterwards |
| RustWorker.CycleList | src/worker.rs:31-41 | a cycle appends a recorded address to the list and otherwise leaves it |
| RustWorker.CycleRecords | src/worker.rs:31-41 | a recorded address was not found before and is appended |
| RustWorker.HookOncePerIP | src/worker.rs:18-45 | for cycles taken one after another, the recorded addresses are distinct, not found at the start, found at the end, and no address is lost |
| RustWorker.RecordAllSnoc | src/worker.rs:40 | recording one more address appends it after the others |
| RustWorker.ListOnlyGrows | src/worker.rs:31-41 | after any cycles the list is the starting list with each recorded address appended in order |
| RustWorker.RecordAllEntries | src/worker.rs:40 | recording ';'-free addresses adds exactly those entries |
| RustWorker.EntriesAreRecorded | src/worker.rs:31-41 | with the entry test the list's entries are the starting entries then each recorded address |
| RustWorker.SubstringFalsePositive | src/worker.rs:32 | an address found only inside a longer entry counts as listed under the substring test, while the entry test records it |
| RustWorker.SubstringNotEntry | src/worker.rs:32 | "10.0.0.1" is a substring of ";10.0.0.12" but not one of its entries |
| RustWorker.Environment.constructor | src/worker.rs:31 | the environment holds the given variables |
| RustWorker.Cycle | src/worker.rs:19-43 | the outcome, the update call and the new environment are CycleStep of the old one |
| RustWorker.RunCycles | src/worker.rs:18-45 | outcomes and final environment are Cycles over the turns |

## Left out

- RustCmd.RunArray: the `Spawner` is an arbitrary function, so on its own it may report a run for the empty program name, which no operating system starts. The lemmas that need the real behaviour take it as the requirement `EmptyProgramFails`.
- **Timing and concurrency.** This covers goroutines, the WaitGroup, the ticker interval and the Rust threads. The 60-second sleep (`src/worker.rs:44`) is left out.
  - The Go mutex section is one step of `UpdatedIPs.CheckAndMark`.
  - Rust cycles of different threads are taken whole, one after another.
- RustWorker.HookOncePerIP: holds only for cycles taken one after another. The read of `ddk_update_ip_list` (`src/worker.rs:31`) and its `set_var` (line 40) have no lock between them. Two threads that get the same new address can both miss it at line 32 and both run the hook, and one `set_var` can overwrite the other's entry. The model does not capture that race.
- **Environment, I/O and formatting.** Process execution, HTTP, the Aliyun SDK and output decoding are inputs. Logging, printing and the error message texts are not modelled.
  - Reading the configuration file and decoding TOML are an input to `ReadConfig`.
  - Flag parsing and the environment are inputs to `ResolveConfigPath`.
- **Go request building:**
  - `http.NewRequest` failures on the write are not modelled. Its URL is built with `fmt.Sprintf` from the zone id and the cached record id (`cloudflare_dns.go:236-243`), and `url.Parse` rejects it only when one of them holds a control character or a malformed `%` escape. The model does not represent that case: it shows the write as sent, where Go returns `(false, err)` and sends nothing. On the list request (`cloudflare_dns.go:143-146`) the same failure ends the fetch with an error and an unchanged cache, as a failed request does in `FetchStep`.
  - `json.Marshal` failures are not modelled. The payload holds only strings, an int and a bool, which always marshal.
  - Request headers are not modelled.
- **Function-typed parameters.** IP, integer and bool parsing are given partial functions.
  - An address's text form is its `text`, with no IPv6 canonicalisation.
  - The conversion `int(ttlInt64)` in `cloudflare_dns.go:106` is taken as the identity, as on a 64-bit platform.
- **`src/function.rs`, the factory that builds the Rust updater.** Its `Config` is an input of each cycle.
  - A new one is built every cycle (`src/worker.rs:19`), and the Cloudflare updater keeps no state between calls.
  - The factory passes TOML values through `Value::to_string()`, which keeps the quotes around strings. That quoting is not modelled.
  - Its panics are not modelled. It panics every cycle when `domain_registrar` is missing or not a string (`src/function.rs:10`), when `api_param` is missing or not a table (line 12), when any of the eight Cloudflare keys is missing (lines 16-23), and for any `domain_registrar` other than exactly `"cloudflare"` (line 28). That match is case-sensitive, so `"aliyun"` and `"Cloudflare"` panic too.
  - Its signature conflicts with the implementation's `bool`.
- **`src/aliyun.rs`** is not part of this model.
- **CLI and bootstrap glue:** `src/main.rs`, `src/menu.rs`, `src/init.rs`, `src/config.rs`, `src/d2k_core/config.rs`, `src/d2k_core/mod.rs`, `src/d2k_core/function.rs`.
  - The start-up wait and `post_up_cmd` run of `main.go:53-61` are not modelled either; the command list is run by `RunCommandArray`, which is.
- **Case mapping.** `Strings.ToLower` maps ASCII letters and the two non-ASCII runes whose lower case is ASCII. Other runes are left unchanged, which cannot change a comparison with "aliyun" or "cloudflare".

## Findings

| source | as written | input that shows it | evidently intended | confidence | as-written member | corrected member |
|---|---|---|---|---|---|---|
| src/worker.rs:32 | an address is "already processed" when it occurs anywhere in the `;`-joined `ddk_update_ip_list` as a substring | list `";10.0.0.12"` and command output `"10.0.0.1"`: the cycle counts the address as listed, so its on-update command never runs and it is never recorded | an address is processed when it is one of the list's `;`-separated entries | not executed | RustWorker.SubstringFalsePositive | RustWorker.EntriesAreRecorded |

`RustWorker.Seen` takes a `DedupTest`:

- `Substring` is the code as written.
- `Entry` is the corrected test.

`Cycle`, `Cycles` and `RunCycles` are written for both. `HookOncePerIP` holds for both tests. `EntriesAreRecorded` proves that under the entry test the list's entries are exactly the starting entries followed by every recorded address.
