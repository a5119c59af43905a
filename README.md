# mssh: command registry, line interpreter and SSH connection pool

mssh is an interactive shell for running commands across many SSH hosts at once.
This project models three sequential pieces of it and proves properties about them.

- **Command registry** of the vendored `cmdline` package. It maps command names
  to their metadata.
  - The package registers `help`, `clear`, `exit`, `vim` and the script runner `run`
    itself when it starts.
  - `Regist` inserts only if the name is absent, so the first registration wins.
  - `GetFunc` is a lookup that can fail.
  - `Help("")` groups the commands by their group.
  - `Help(name)` prints one line per parameter.
  - `listFuncs` and `GetCompleter` derive tab-completion items from the table.
- **Line interpreter** of the same package.
  - `call` pads missing arguments with `""` and refuses surplus ones.
  - `Interpret` reads lines and classifies each one. It skips blank and `#`
    lines. It dispatches a registered first word. An unregistered line starting
    with `run` runs the other words as scripts. Anything else goes to the
    fallback handler.
  - It stops at end of input, or at an interrupt on an empty line.
  - `Run` interprets a script file. `Setup` replaces the prompt, the history
    file and the fallback handler.
- **Built-in commands** of mssh.
  - The connection pool `cliMap` is filled by `connect` and emptied by
    `release`.
  - A counter of background units (the `WaitGroup`) is waited for by `done`.
  - `put` and `get` start one transfer per connected host, computing their paths
    with Go's `path.Base`, `path.Join` and `strings.Replace`.

The registry, the interpreter's configuration and the pool are classes whose
methods update their fields. The loops of the source are methods with loop
invariants, proved against specification functions:

- `Session` and `Classify` specify the interpreter loop.
- `Coerce` specifies `call`.
- `Drain` specifies the completion of background units.
- `IsGrouping` and `IsCommandItem` specify the help grouping and the completer.

Go's library functions used on the way are modelled in their own modules:
`strings.TrimSpace`, `strings.Replace`, `strconv.Atoi`, `path.Clean`, `path.Base`
and `path.Join`.

Things outside the model are given as inputs:

- The network: each background unit receives an `Outcome`. Either every SSH call
  answered (with the output of `pwd` for a connect), or one stage failed.
- The tokeniser: each line arrives with its words, or with a tokenising error.
- Files: a script file is the sequence of read events its lines produce.
- Close results: `release` is told whether closing the client failed.

Modules, one file each:
- `GoStrings` (gostrings.dfy)
- `GoPath` (gopath.dfy)
- `Registry` (registry.dfy, for cmdline.go)
- `Interpreter` (interpreter.dfy, for interpreter.go)
- `Pool` (pool.dfy, for pkg/cmd/command.go)

## Model

| member | source | states |
|---|---|---|
| GoStrings.TrimSpace | vendor/github.com/tamago-cn/cmdline/interpreter.go:121 | `strings.TrimSpace`: the result is no longer than the line, neither starts nor ends with white space, and is empty exactly when the line is all white space; `TrimSpaceSlice` gives the slice it is |
| GoStrings.TrimSpaceSlice | vendor/github.com/tamago-cn/cmdline/interpreter.go:121 | the trimmed line is a slice of the input, only white space was removed on either side, and it neither starts nor ends with white space |
| GoStrings.TrimSpaceIdempotent | vendor/github.com/tamago-cn/cmdline/interpreter.go:121 | trimming a trimmed line changes nothing |
| GoStrings.TrimSpaceEmpty | vendor/github.com/tamago-cn/cmdline/interpreter.go:121-126 | a line trims to nothing exactly when every character is white space |
| GoStrings.ReplaceAll | pkg/cmd/command.go:174 | a string without the character is unchanged; the character cannot survive a replacement that does not contain it |
| GoStrings.ReplaceAllAppend | pkg/cmd/command.go:174 | replacement distributes over concatenation |
| GoStrings.ReplaceAllOccurrence | pkg/cmd/command.go:174 | each occurrence of the character becomes the replacement text, with the text on either side replaced on its own |
| GoStrings.Atoi | pkg/cmd/command.go:86-90 | a result is a 64-bit integer; the empty string, a lone sign, a bad first character and a non-digit after the first position are errors |
| GoStrings.AtoiDecimal | pkg/cmd/command.go:83-86 | every decimal spelling of a natural number that fits in 64 bits reads back as that number |
| GoPath.CleanIdempotent | pkg/cmd/command.go:167 | cleaning a cleaned path changes nothing |
| GoPath.CleanAppendName | pkg/cmd/command.go:167 | cleaning `d/n` for a plain name `n` attaches `n` to the cleaned `d` |
| GoPath.CleanName | pkg/cmd/command.go:198 | a plain name, alone or under the root, is already clean |
| GoPath.Clean | pkg/cmd/command.go:167 | `path.Clean` as an element-list resolution: never empty, rooted iff the input is; `CleanIdempotent`, `CleanAppendName` and `CleanName` carry its properties |
| GoPath.Base | pkg/cmd/command.go:166 | the base is never empty; it is "/" or has no slash; "" gives "."; a path of slashes gives "/"; a slash-free path is its own base |
| GoPath.BaseOfSuffix | pkg/cmd/command.go:166 | the base of `d/n` is `n` for any `d` when `n` is a non-empty slash-free name |
| GoPath.BaseTrailingSlash | pkg/cmd/command.go:166 | trailing slashes are stripped before the last element is taken: the base of `p/` is the base of `p` |
| GoPath.Join | pkg/cmd/command.go:167 | `path.Join`: empty exactly when every element is, and otherwise already clean; `JoinDirName` and `JoinDotNames` give the shapes the program uses |
| GoPath.JoinDirName | pkg/cmd/command.go:167 | joining a directory and a name gives the name attached to the cleaned directory (or the name alone for an empty directory), whose base is the name |
| GoPath.JoinDotNames | pkg/cmd/command.go:198 | joining ".", `n` and `h` gives `n/h` for plain names |
| Registry.Register | vendor/github.com/tamago-cn/cmdline/cmdline.go:39-52 | the keys gain the name; old entries are kept; a fresh name gets the given metadata; every entry stays filed under its own name |
| Registry.FirstRegistrationWins | vendor/github.com/tamago-cn/cmdline/cmdline.go:39-52 | after a run of registrations a name is present iff it was before or was registered; an old entry survives; a new one is the first registration of that name |
| Registry.GroupingUnique | vendor/github.com/tamago-cn/cmdline/cmdline.go:58-66 | the grouping of a table is unique |
| Registry.CommandTable.constructor | vendor/github.com/tamago-cn/cmdline/cmdline.go:13-18 | the package starts with `make` and its own registrations: exactly `help`, `clear`, `exit`, `vim` and `run`, `run` being the script runner, `help` a one-parameter command and `exit` a command without parameters |
| Registry.PackageInit | vendor/github.com/tamago-cn/cmdline/command.go:11-17 | the package's own registrations in file order (`help` from cmdline.go, `clear`, `exit` and `vim` from command.go, `run` from interpreter.go), field for field; `PackageInitRegistered` carries its properties |
| Registry.PackageInitRegistered | vendor/github.com/tamago-cn/cmdline/interpreter.go:23-25 | registering the package's five commands into an empty table gives exactly those five entries, each as registered, with arities 1, 0, 0 and 1 for `help`, `clear`, `exit` and `vim`, and `run` filed as the script runner |
| Registry.PackageCommandsKept | vendor/github.com/tamago-cn/cmdline/interpreter.go:23-25 | whatever is registered after the package's own commands, `run` stays the script runner and `help` the help command; this is what the interpreter lemmas that assume a registered `run` rely on |
| Registry.CommandTable.Regist | vendor/github.com/tamago-cn/cmdline/cmdline.go:39-52 | the new table is one registration of the old; the name is always present afterwards; a name present before leaves the table unchanged |
| Registry.CommandTable.GetFunc | vendor/github.com/tamago-cn/cmdline/cmdline.go:138-143 | the stored handler is found iff the name is registered, otherwise the error names the function |
| Registry.CommandTable.GroupCommands | vendor/github.com/tamago-cn/cmdline/cmdline.go:58-66 | every command sits in the group named by its group field and nowhere else; no group is empty |
| Registry.CommandTable.DescribeParams | vendor/github.com/tamago-cn/cmdline/cmdline.go:82-88 | one help line per parameter, in declaration order, labelled 必填 iff the parameter is required and 可选 otherwise |
| Registry.CommandTable.Help | vendor/github.com/tamago-cn/cmdline/cmdline.go:55-92 | "" gives the grouping; a registered name gives its help, usage and parameter lines in order; any other name gives the not-registered page |
| Registry.CommandTable.ListFuncs | vendor/github.com/tamago-cn/cmdline/cmdline.go:107-114 | exactly one name per registered command: as many names as entries, all registered, no repeats, none missing |
| Registry.CommandTable.CommandItem | vendor/github.com/tamago-cn/cmdline/cmdline.go:125-131 | a command's item is its name over `<param>` items in order, then the file list, then the command list |
| Registry.CommandTable.GetCompleter | vendor/github.com/tamago-cn/cmdline/cmdline.go:118-135 | the three shell words first, each over the file list, then one well-formed item per registered command, each command exactly once |
| Interpreter.Coerce | vendor/github.com/tamago-cn/cmdline/interpreter.go:47-66 | refused iff there are more arguments than parameters; otherwise the handler gets exactly its arity, the supplied arguments as a prefix and `""` after them |
| Interpreter.CoerceExact | vendor/github.com/tamago-cn/cmdline/interpreter.go:60-66 | an exact count is passed through unchanged, in order |
| Interpreter.Call | vendor/github.com/tamago-cn/cmdline/interpreter.go:47-67 | the padding loop computes the calling convention |
| Interpreter.Classify | vendor/github.com/tamago-cn/cmdline/interpreter.go:121-155 | blank, comment and untokenisable lines are skipped; a registered word is dispatched with the other words, exactly then; an unregistered line starting with "run" runs its other words, exactly then; every other line goes to the fallback, trimmed |
| Interpreter.Session | vendor/github.com/tamago-cn/cmdline/interpreter.go:109-156 | the effects of the read loop over a stream of events, up to the first stop; `SessionStops`, `SessionAppend`, `SkippedLine` and `Shell.Interpret` carry its properties |
| Interpreter.Perform | vendor/github.com/tamago-cn/cmdline/interpreter.go:121-155 | the effects of one classified line: nothing, a refusal or a call, the scripts run one after another, or one fallback call; `Shell.Step` is proved equal to it |
| Interpreter.RunScript | vendor/github.com/tamago-cn/cmdline/interpreter.go:80-88 | `Run` on one path: a missing script is reported, otherwise its lines are one session one level deeper; `Shell.Run`, `NestedScriptInlined` and `SelfRunIsCut` carry its properties |
| Interpreter.SessionStops | vendor/github.com/tamago-cn/cmdline/interpreter.go:109-119 | nothing after EOF or an interrupt on an empty line has any effect |
| Interpreter.SessionAppend | vendor/github.com/tamago-cn/cmdline/interpreter.go:109-156 | with no stop in the first part, reading two streams in a row has the effects of both in order |
| Interpreter.InterruptContinues | vendor/github.com/tamago-cn/cmdline/interpreter.go:111-116 | an interrupt with a partial line is ignored and reading continues |
| Interpreter.SkippedLine | vendor/github.com/tamago-cn/cmdline/interpreter.go:121-130 | a line that trims to nothing or to a comment has no effect |
| Interpreter.RegisteredRunOneFile | vendor/github.com/tamago-cn/cmdline/interpreter.go:137-144 | `run f`, with `run` registered, goes through the calling convention to the script runner |
| Interpreter.NestedScriptInlined | vendor/github.com/tamago-cn/cmdline/interpreter.go:80-88 | a script of a comment, a blank line and `run target` has the effects of the target's lines one level deeper |
| Interpreter.RegisteredRunRefusesTwoFiles | vendor/github.com/tamago-cn/cmdline/interpreter.go:55-58 | `run a b`, with `run` registered, is refused and runs nothing |
| Interpreter.UnregisteredRunPrefix | vendor/github.com/tamago-cn/cmdline/interpreter.go:145-152 | an unregistered word on a line starting with "run" runs every other word as a script, in order, and nothing when there is none |
| Interpreter.FallbackOnce | vendor/github.com/tamago-cn/cmdline/interpreter.go:153-154 | any other unregistered line reaches the fallback handler exactly once, trimmed |
| Interpreter.SelfRunIsCut | vendor/github.com/tamago-cn/cmdline/interpreter.go:80-88 | a script that runs itself ends at the nesting bound |
| Interpreter.Shell.constructor | vendor/github.com/tamago-cn/cmdline/interpreter.go:15-22 | the prompt is "cmdline", the history file "/tmp/cmdline.tmp", and the fallback echoes |
| Interpreter.Shell.Setup | vendor/github.com/tamago-cn/cmdline/interpreter.go:34-38 | the prompt, history file and fallback handler are replaced |
| Interpreter.Shell.Interpret | vendor/github.com/tamago-cn/cmdline/interpreter.go:91-157 | the read loop's effects are exactly those of the session specification |
| Interpreter.Shell.Step | vendor/github.com/tamago-cn/cmdline/interpreter.go:121-155 | one line's effects are those of its classified action |
| Interpreter.Shell.RunAll | vendor/github.com/tamago-cn/cmdline/interpreter.go:150-152 | running each named script in turn gives the effects of the scripts one after another |
| Interpreter.Shell.Run | vendor/github.com/tamago-cn/cmdline/interpreter.go:80-88 | a missing script is reported, otherwise its lines are interpreted one level deeper |
| Pool.ConnectUnit | pkg/cmd/command.go:72-139 | a present host changes nothing; a bad timeout or a failed SSH stage adds nothing; the pool changes iff the host was absent, the timeout parsed and the network answered, and then only the host is added, dialled at `host:port` with the trimmed `pwd` output as its home |
| Pool.ConnectDefaults | pkg/cmd/command.go:80-85 | with no port and no timeout the host is dialled on port 22 with a five-second timeout |
| Pool.ConnectBadTimeout | pkg/cmd/command.go:86-90 | a timeout with a non-digit after its first character reports the error and adds nothing, whatever the network does |
| Pool.PutUnit | pkg/cmd/command.go:161-181 | success is reported iff every SSH call answered, with the `@`-replaced source and the destination computed from the original file; a failed session or copy is reported as such |
| Pool.PutUnitAsWritten | pkg/cmd/command.go:168-181 | success is reported iff opening the session did not fail |
| Pool.PutCopyFailureHidden | pkg/cmd/command.go:176-180 | a failed copy is reported as a success as written and as a failure once corrected |
| Pool.PutUnitsAgreeWithoutCopyFailure | pkg/cmd/command.go:168-181 | the two put units differ only on a failed copy |
| Pool.GetUnit | pkg/cmd/command.go:192-207 | success is reported iff every SSH call answered, with the local path; failures are reported per stage |
| Pool.RunTask | pkg/cmd/command.go:57-63 | only connect units touch the pool; no unit removes or changes a client; the only key a unit can add is its own host |
| Pool.Drain | pkg/cmd/command.go:66-69 | one report per finished unit |
| Pool.DrainGrowsOnlyByConnect | pkg/cmd/command.go:72-139 | finishing units keeps every client, and a host joins the pool only through a connect unit for it |
| Pool.DrainTransfersKeepPool | pkg/cmd/command.go:156-211 | finishing only put and get units leaves the pool as it was |
| Pool.ConnectTwice | pkg/cmd/command.go:75-79 | a second connect to a host the first one left in the pool reports it as connected and changes nothing |
| Pool.Builtins | pkg/cmd/command.go:21-41 | the six registrations with their groups, help texts, usages and parameters; `BuiltinNames` and `BuiltinsRegistered` carry its properties |
| Pool.BuiltinNames | pkg/cmd/command.go:21-41 | the built-ins are registered in the order done, put, get, check, connect, release |
| Pool.BuiltinsRegistered | pkg/cmd/command.go:19-42 | registering the built-ins into a table without them adds exactly their six names with arities 0, 2, 1, 0, 5 and 1, and keeps every earlier entry |
| Pool.ProgramTable | pkg/cmd/command.go:19-42 | the table the program runs with holds exactly the package's five commands and the six built-ins, eleven names, and `run` is still the script runner |
| Pool.GetLocalPath | pkg/cmd/command.go:198-201 | where a get writes the file: the base name joined to the host's download directory; `GetLocalPathShape` and `GetLocalPathUnder` give its shape |
| Pool.PutDestination | pkg/cmd/command.go:162-167 | where a put writes the file: the base name joined to the given directory or the home; `PutDestinationShape` and `PutBackName` give its shape |
| Pool.PutSource | pkg/cmd/command.go:174 | what a put reads: the file with every `@` replaced by `download/<host>`; `PutSourceWithoutAt`, `PutSourceOfAt` and `GetThenPutBack` carry its properties |
| Pool.DownloadDir | pkg/cmd/command.go:198 | the download directory of a plain host name is `download/<host>` |
| Pool.GetLocalPathShape | pkg/cmd/command.go:198-201 | a get writes `download/<host>/<base of the remote path>` |
| Pool.GetLocalPathUnder | pkg/cmd/command.go:198-201 | a get of `<dir>/<name>` writes `download/<host>/<name>`; `/etc/hostname` from `h1` lands in `download/h1/hostname` |
| Pool.PutDestinationShape | pkg/cmd/command.go:162-167 | a put writes the local base name under the given directory, or under the host's home when none is given, cleaned |
| Pool.PutSourceWithoutAt | pkg/cmd/command.go:174 | a local path without `@` is read as it stands |
| Pool.PutSourceOfAt | pkg/cmd/command.go:174 | `@/<name>` is read from `download/<host>/<name>` |
| Pool.GetThenPutBack | pkg/cmd/command.go:174 | a file fetched by get is the file `@/<base>` makes put read, and put writes it back under the same base name |
| Pool.PutBackName | pkg/cmd/command.go:166-167 | the destination of `@/<name>` has base `name` |
| Pool.ConnPool.constructor | pkg/cmd/command.go:50-54 | the pool is empty and nothing is outstanding |
| Pool.ConnPool.Launch | pkg/cmd/command.go:57-63 | the unit is queued and the counter goes up by one; nothing else changes |
| Pool.ConnPool.Done | pkg/cmd/command.go:66-69 | returns with the counter at zero, after every outstanding unit finished in start order, leaving the pool and log the drain specifies |
| Pool.ConnPool.Connect | pkg/cmd/command.go:72-73 | only starts the connect unit; the pool is checked when the unit runs |
| Pool.ConnPool.Release | pkg/cmd/command.go:142-153 | the host leaves the pool whether or not closing failed; an absent host leaves the pool unchanged and is reported |
| Pool.ConnPool.FanOut | pkg/cmd/command.go:158-160 | one unit per host in the pool, each holding that host's client, and the counter goes up by their number |
| Pool.ConnPool.Put | pkg/cmd/command.go:156-185 | one upload per connected host, then a full wait: the counter ends at zero and the log holds every unit's report |
| Pool.ConnPool.Get | pkg/cmd/command.go:188-211 | one download per connected host, then a full wait: the counter ends at zero and the log holds every unit's report |

## Findings

| source | as written | input that shows it | evidently intended | confidence | as-written member | corrected member |
|---|---|---|---|---|---|---|
| pkg/cmd/command.go:176-180 | the error of `scp.CopyToRemote` is dropped. The `err` tested afterwards is the one from `NewSession`, which is nil at that point, so "put file ... success" is logged even when the copy failed | a put to a host whose session opens but whose copy fails (`Broke(Copy)`) | log the copy error and skip the success line, as `get` does for `CopyFromRemote` | medium, not executed | Pool.PutUnitAsWritten, Pool.PutCopyFailureHidden | Pool.PutUnit |

`RunTask` and the pool use the corrected `PutUnit`.

## Left out

- Pool.RunTask: runs the corrected put unit `PutUnit`, so when a copy fails the modelled pool logs `CopyFailed` where the program as written logs success; the as-written behaviour is `PutUnitAsWritten`, shown under "## Findings".
- Network I/O is not modelled. This covers SSH dial, password authentication, the host-key callback that accepts any key, sessions, `session.Output("pwd")` and the scp copies. Each unit instead receives an `Outcome`.
- `time.Duration` is not modelled. The handle keeps the timeout's seconds as they parsed.
- Concurrency is not modelled: goroutines, `sync.Mutex` and the blocking of `WaitGroup.Wait`.
  - Units are queued when they start. `Done` finishes them one after another in start order, which is one legal interleaving.
  - Units that finish in another order are not covered.
  - The unlocked reads of `cliMap` that race with a running connect are not covered.
- Go map iteration order is not modelled. `FanOut`, `GroupCommands`, `ListFuncs` and `GetCompleter` pick keys in an unspecified order. The contracts state contents, not order.
- Pool.ConnPool.Get: does not model the `os.MkdirAll(localDir, 0666)` call or its ignored result. That call is file-system I/O.
- `Check` and `Remote` are not modelled. They only log or stream remote output and change no state.
- Log text and the logger in logger.go are not modelled. The reports carry the same facts without the formatting.
- readline is not modelled: the prompt colours, the history file, the auto-completer wiring, `filterInput` and the rebinding of `readline.Stdin` by every `Interpret` call.
  - The model assumes that after a nested script the outer loop goes on with its own lines.
- `argv.Argv` tokenising is an external library. Each line arrives with its words or with a tokenising error.
- Only the first command of a tokenised line is kept, as the source does.
- `os.Open` in `Run` is not modelled. A script is a lookup in a map from path to read events.
- Help: the printing order of groups and commands is not modelled, because Go map order is unspecified.
- Help: the printed header lines are not modelled. The page carries their contents.
- Interpreter.Session: nested scripts are bounded by a `fuel` depth, and at the bound the effect is `TooDeep`. The Go code has no bound; the recursion ends only when a resource runs out (each level keeps its script file and a readline instance open).
- The interpreter and the pool are not wired together. `Dispatch` produces `Called(name, handler, args)` without running the named built-in, and the pool's methods take the built-ins' arguments directly.
- The handlers of vendor/github.com/tamago-cn/cmdline/command.go are not modelled: `clear` and `vim` run external programs. Their registrations are in the table.
- Interpreter.Perform: a dispatched `exit` ends the whole process in the program (`os.Exit(0)`). The model records the call and reads the next line as it does for any other command.
- main.go is not part of this model. It is start-up wiring, and it calls `Setup` with two arguments while the vendored `Setup` takes three.
- GoStrings.IsSpace: works on characters rather than UTF-8 bytes, so malformed UTF-8 in a line is outside the model.
- GoPath.Join: its contract is proved only for the shapes used here. These are a directory and one name, and "." with two names.
