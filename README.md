# quick-infra: configuration resolution and action sequencing

This project models the core of quick-infra, a command-line wrapper around
terraform, and proves properties of the model. The core has two parts:

- **Configuration** (`contrib/config.py`).
  - `processOptions` parses a `k=v,k=v` string into a dictionary.
  - `processConfig` overlays the parsed options on the per-type table (`APP_DEFAULTS`) and the per-backend table (`BACKEND_DEFAULTS`). It defaults the backend `type` to `local` and fixes `root_dir` and `work_dir`.
  - `buildTerraformTemplate` renders the backend fragment, stores it under `backend_configuration` in the template options, renders `main.tf.template` with those options and writes `main.tf`.
- **Action sequencing** (`entrypoint.py`).
  - `runCreate`, `runPreview` and `runDestroy` each run a fixed list of terraform commands.
  - Each command's stdout is hidden once `quiet` reaches that command's threshold.
  - `runBaseCmd` ends the program with status 1 at the first command that exits nonzero. It first prints that command's stderr and a summary line.
  - `main` hands the resolved configuration to exactly one runner. It runs nothing for `debug`.

Modules, one per file:

- `Results` (`results.dfy`): `Option` and `Result`.
- `Text` (`text.dfy`): Python's `str.split` with a one-character separator, `str.join` and `str.rstrip`.
- `Configuration` (`configuration.dfy`): `contrib/config.py`.
- `Entrypoint` (`entrypoint.dfy`): `entrypoint.py`.

How the source's state and I/O appear in the model:

- Dictionaries are `map<string, string>` values. Each `{**defaults, **user}` is `Overlay`, which builds a new map.
- The three default tables are `const` maps, so resolution cannot change them. Every merge builds a new map. The source updates four dictionaries in place, and each became fresh state in the model. `config` itself is filled key by key (contrib/config.py:81-90 and 101-102); `Resolve` and `ProcessConfig` build it in one step as a `Config` value. `opts_dict[k] = v` (contrib/config.py:118) fills a dictionary the loop itself created; `InsertEntries` and `ProcessOptions` build it as a new map. `backend_opts.setdefault('type', ...)` (line 98) acts on the fresh result of `processOptions`; `ProcessConfig` rebinds its local map with the `type` entry. `template_opts['backend_configuration'] = ...` (line 71) updates a dictionary already stored in `config`; `BuildTerraformTemplate` assigns the new template options to its `Config` out-parameter.
- `processOptions` keeps its loop (`ProcessOptions`). So does `runBaseCmd` (`RunBaseCmd`). Running a list of stages is a loop over that list (`RunStages`). Each loop method is proved equal to a specification function: `ParseOptions`, `CommandOutput` or `RunFrom`. The lemmas beside each function state what the source promises.
- Jinja rendering is a parameter `render: (TemplateRef, OptionMap) -> string`. A `TemplateRef` is the loader directory plus the template name.
- Writing `main.tf` becomes a returned `FileWrite(path, content)` value.
- A terraform child process is an oracle parameter `proc: (nat, seq<string>) -> ProcResult`. It maps the invocation number and the argument vector to an exit code plus stdout and stderr lines.
- A run is recorded as a sequence of events, `Issued(argv)` or `Printed(line)`, together with the program's exit status.

Points where the model follows the code literally, where a reader might expect otherwise:

- The s3 default key is `bucket_region`, not `region`.
- The code has no required-field validator. What the default tables guarantee is proved instead (`ResolveBackendFields`).
- A failed command always ends the program with status 1. The child's exit code is not passed on.
- `processConfig` reads `args.app_options`, but the parser defines `options`. The model takes both option strings as fields of `Args`.

## Model

| member | source | states |
|---|---|---|
| Text.Join | entrypoint.py:23 | `sep.join(parts)`: the parts in order with one separator between neighbours; it is the partner `Split` is proved against |
| Text.Split | contrib/config.py:113 | `str.split` on one character: one piece more than there are separators, no piece contains the separator, and joining the pieces gives back the input |
| Text.SplitJoin | contrib/config.py:113-117 | splitting undoes joining when no part contains the separator; this is the inverse half of `Split`'s contract, and together they make `Split` the unique function with that contract |
| Text.RStrip | entrypoint.py:15-18 | `str.rstrip()`: the result is a prefix of the line, does not end in whitespace, and everything removed is whitespace |
| Configuration.ParseOptions | contrib/config.py:109-120 | what `processOptions` returns or raises: `{}` for the empty string, otherwise the comma-separated entries inserted into an empty dictionary from left to right |
| Configuration.InsertEntries | contrib/config.py:116-118 | the loop over the entries: each entry is split on `=`; a split into other than two pieces is the `ValueError` that the unpacking `k, v = ...` raises, recorded with the entry and its piece count; otherwise the key is set to the value, so a later entry overwrites an earlier one |
| Configuration.ProcessOptions | contrib/config.py:109-120 | the parsing loop returns exactly the `ParseOptions` result, and the empty string gives the empty map |
| Configuration.ParseEmpty | contrib/config.py:110-111 | `processOptions("")` is the empty map |
| Configuration.ParseOptionsMeaning | contrib/config.py:113-118 | a non-empty string parses iff every comma-separated entry holds exactly one `=`; the keys are exactly the entry keys; the last entry with a key gives its value |
| Configuration.ParseOptionsError | contrib/config.py:116-117 | a failed parse names the first entry without exactly one `=`, and the number of pieces it split into |
| Configuration.InsertEntriesOkIff | contrib/config.py:116-118 | inserting entries succeeds iff every entry holds exactly one `=` |
| Configuration.InsertEntriesErrFirst | contrib/config.py:116-117 | the error is raised at the first malformed entry; all entries before it are well formed |
| Configuration.InsertEntriesKeys | contrib/config.py:116-118 | the resulting keys are the starting keys plus every entry's key |
| Configuration.InsertEntriesLastWins | contrib/config.py:116-118 | an entry whose key no later entry repeats decides that key's value |
| Configuration.InsertEntriesUntouched | contrib/config.py:116-118 | a key no entry mentions keeps its value |
| Configuration.WellFormedIffTwoPieces | contrib/config.py:117 | an entry unpacks into `k, v` iff it contains exactly one `=` |
| Configuration.ParseExampleLastWins | contrib/config.py:116-118 | `"a=1,b=2,a=3"` parses to `{a: "3", b: "2"}` |
| Configuration.ParseExampleEmptyEntry | contrib/config.py:113-117 | `"a=1,,b=2"` fails at the empty entry |
| Configuration.ParseExampleMissingEquals | contrib/config.py:117 | `"a=1,b"` fails at `b` (one piece) |
| Configuration.ParseExampleTwoEquals | contrib/config.py:117 | `"a=1=2"` fails (three pieces) |
| Configuration.Overlay | contrib/config.py:94 | `{**defaults, **user}`: its keys are the union of both key sets; the user's value wins on a shared key; otherwise the default's value stays |
| Configuration.BackendKind | contrib/config.py:98 | the backend kind after `setdefault('type', ARG_DEFAULTS['backend'])`: the user's `type` entry if there is one, else `local` |
| Configuration.Resolve | contrib/config.py:84-102 | the dictionary `processConfig` passes to `buildTerraformTemplate`: `quiet`, `root_dir`, `work_dir`, the template overlay and the backend overlay. The `ValueError` of each parse and the `KeyError` of the lookups at lines 94 and 99 become `ConfigError` values, in source order |
| Configuration.ResolveErrors | contrib/config.py:93-99 | resolution fails exactly on a bad app-option string, an unknown type, a bad backend-option string, or an unknown backend kind, and reports the first of these in source order |
| Configuration.ResolvePaths | contrib/config.py:84-90 | `quiet` is copied unchanged, `root_dir` is `/opt/terraform`, and `work_dir` is `root_dir + "/" + type` |
| Configuration.ResolveTemplateOptions | contrib/config.py:93-94 | the template options contain every default key of the type, the user's value wins on a collision, and there are no other keys |
| Configuration.ResolveBackendOptions | contrib/config.py:97-99 | the backend options always contain `type`: the user's value, else `local`. They also contain every default key of that kind, with the user's values winning, and have no keys beyond the user's, the defaults' and `type` |
| Configuration.ResolveBackendFields | contrib/config.py:19-28 | a resolved `local` backend has `path`; a resolved `s3` backend has `bucket`, `state_name` and `bucket_region` |
| Configuration.Composed | contrib/config.py:55-76 | what `buildTerraformTemplate` does to the configuration and the file it writes: everything except the template options is kept; those options gain the rendered backend fragment under `backend_configuration` and otherwise stay as they were; `work_dir/main.tf` holds `main.tf.template` rendered with the new options |
| Configuration.BuildTerraformTemplate | contrib/config.py:55-76 | only the template options change. They gain `backend_configuration`, which is the fragment `<type>.tf.template` under `root_dir/backends` rendered with the backend options and which overrides any user key of that name. Every other key is kept. The root template `work_dir/main.tf.template` is rendered with exactly those options and written to `work_dir/main.tf` |
| Configuration.ComposedRoundTrip | contrib/config.py:64-72 | rendering the fragment by itself and substituting it for `backend_configuration` by hand yields the same template options and the same `main.tf` text |
| Configuration.ProcessConfig | contrib/config.py:80-106 | fails exactly when the resolution above fails, with the same error; otherwise returns the resolved configuration composed by `BuildTerraformTemplate`, together with the `main.tf` it wrote |
| Configuration.ResolvedPaths | contrib/config.py:60-68 | for a resolved configuration, the loader directories are `/opt/terraform/backends` and `/opt/terraform/<type>` |
| Entrypoint.Summary | entrypoint.py:23 | the line `Issue running command: ` followed by the command's words joined with single spaces |
| Entrypoint.CommandOutput | entrypoint.py:13-23 | the lines `runBaseCmd` prints: each stdout line with trailing whitespace stripped, unless suppressed; then, only for a nonzero exit, each stripped stderr line and the summary line |
| Entrypoint.RunBaseCmd | entrypoint.py:9-24 | reports success iff the exit code is 0. Prints the stripped stdout lines unless suppressed. On a nonzero exit it then prints the captured stderr lines and `Issue running command: ` followed by the space-joined command |
| Entrypoint.CommandOutputCases | entrypoint.py:13-23 | on success nothing from stderr is printed; on failure stderr is printed whether or not stdout was suppressed |
| Entrypoint.FailureEndsWithSummary | entrypoint.py:20-23 | a failing command's last printed line is the summary naming the command |
| Entrypoint.RunFrom | entrypoint.py:36-38 | the trace of calling `runBaseCmd` on each stage in order: each stage's start and printed lines; the first stage with a nonzero exit ends the run with status 1 (the `sys.exit(1)` of line 24); status 0 once every stage has run |
| Entrypoint.RunStages | entrypoint.py:36-38 | the loop over the stages produces exactly the `RunFrom` trace: each command is started and its output printed, then the loop stops at the first failure |
| Entrypoint.FirstFailureMeaning | entrypoint.py:20-24 | every stage before the first failure exits 0, and the first failure does not |
| Entrypoint.RunFailFast | entrypoint.py:20-24 | a run starts the stages up to and including the first failing one and no later stage. After a failure it exits with status 1, whatever the child's code, and its last line is that stage's summary. It exits with 0 when every stage succeeds |
| Entrypoint.RunIssued | entrypoint.py:20-24 | the commands started are the argument vectors of the stages up to and including the first failure |
| Entrypoint.RunStatus | entrypoint.py:24 | the run's status is 1 after a failure and 0 otherwise |
| Entrypoint.RunEndsWithSummary | entrypoint.py:23 | a failed run ends with the failing stage's summary line |
| Entrypoint.StageIssues | entrypoint.py:12 | each stage starts exactly its own command once |
| Entrypoint.IssuedOfAppend | entrypoint.py:36-38 | the commands started by two consecutive parts of a trace are those of the first part, then those of the second |
| Entrypoint.WorkDirOf | entrypoint.py:28 | `opts.get('work_dir', '.')`: the configured working directory, else `.` |
| Entrypoint.QuietOf | entrypoint.py:29 | `opts.get('quiet', -1)`: the configured verbosity, else -1 |
| Entrypoint.StagesOf | entrypoint.py:31-62 | each runner's stage list: the argument vectors `[terraform, -chdir=<work_dir>, ...]` in call order, each with the `quiet` threshold of its call (1, 2, 3 for `create`; 1, 2 for `preview` and `destroy`); `debug` has none |
| Entrypoint.RunCreate | entrypoint.py:27-38 | `runCreate` runs init, plan and apply; their stdout is hidden from `quiet` 1, 2 and 3. A missing `work_dir` is `.` and a missing `quiet` is -1 |
| Entrypoint.RunPreview | entrypoint.py:41-50 | `runPreview` runs init and plan; their stdout is hidden from `quiet` 1 and 2 |
| Entrypoint.RunDestroy | entrypoint.py:53-62 | `runDestroy` runs init and `destroy -auto-approve`; their stdout is hidden from `quiet` 1 and 2 |
| Entrypoint.CreateSequence | entrypoint.py:31-38 | `create` runs `[terraform, -chdir=<work_dir>, init]`, then `plan` only if init succeeded, then `apply -auto-approve` only if plan succeeded. It exits 0 only when all three succeed and 1 otherwise |
| Entrypoint.PreviewSequence | entrypoint.py:45-50 | `preview` runs init, then plan only if init succeeded, and never anything else |
| Entrypoint.DestroySequence | entrypoint.py:57-62 | `destroy` runs init, then `destroy -auto-approve` only if init succeeded, and never anything else |
| Entrypoint.ThreeStages | entrypoint.py:36-38 | fail-fast spelled out for three stages: which commands are started, and the status, for each pattern of exit codes |
| Entrypoint.TwoStages | entrypoint.py:49-50 | fail-fast spelled out for two stages |
| Entrypoint.StageThresholds | entrypoint.py:36-62 | the stdout of stage `i` of any action is hidden exactly when `quiet >= i + 1` |
| Entrypoint.SuppressionMonotone | entrypoint.py:36-62 | raising `quiet` never makes a hidden stage visible again |
| Entrypoint.MissingOptions | entrypoint.py:28-29 | a missing `work_dir` is `.`, a missing `quiet` is -1, and with -1 no stage is hidden |
| Entrypoint.CommandsRunInWorkDir | entrypoint.py:31-58 | every command of every action starts with `terraform, -chdir=<work_dir>` |
| Entrypoint.Invoke | entrypoint.py:98-114 | a resolution error ends the program with status 1 before any command starts. Otherwise the configuration and `main.tf` are those of `ProcessConfig`, `debug` starts nothing and exits 0, and every other action runs its own stage list |
| Entrypoint.DispatchIssuesOwnStages | entrypoint.py:101-114 | `debug` starts no command; any other action starts a non-empty prefix of its own stage list and nothing else |

## Left out

- Pipe handling in `runBaseCmd`: the model does not cover the ordering of stdout and stderr reads. It also does not cover the deadlock that occurs when stderr fills while stdout is still being read, or when stdout is suppressed and never drained. The process is an oracle that returns complete line lists.
- Jinja2's `Environment`, `FileSystemLoader` and template syntax are outside the model. Rendering is a parameter. Missing-template errors (`TemplateNotFound`) are not modelled.
- Writing `main.tf` is returned as a value and not performed.
- argparse is outside the model. It limits `action` to four values (modelled as the `Action` datatype) and `type` to `site`; the model accepts any type name and reports `UnknownType` for names not in `APP_DEFAULTS`. argparse also supplies `quiet` as a count.
- `main`'s `debug` branch prints the configuration and the lines of `main.tf`. The model records only that `debug` starts no command and exits 0.
- If the program is run as written, `processConfig` reads the attribute `args.app_options`, which argparse never defines. The model takes the option strings as parameters instead.
- `args.region` is never read, so it is not modelled. `ARG_DEFAULTS['region']` is carried in the `ArgDefaults` constant but, as in the source, never read. The dataclasses `LocalBackendConfig`, `S3BackendConfig`, `SiteConfig` and the class `Config` (contrib/config.py:30-52) are unused and not modelled.
- As written, the program cannot reach `processOptions`. `S3BackendConfig` (contrib/config.py:37-41) declares fields without defaults after the defaulted `template_path`, so `@dataclass` raises `TypeError` when `contrib.config` is imported. Past that, `processConfig` would fail on `args.app_options` (see above). The model describes the evidently intended program, in which neither failure occurs.
- A command that cannot be started at all (`Popen` raising because terraform is not installed) is not modelled: the oracle always yields an exit code.
- An uncaught exception during resolution is modelled as exit status 1 with no command started. Python's traceback text is not modelled.
- `Text.IsSpace` lists the characters Python's `str.isspace()` accepts. Python derives that set from the Unicode database; the model fixes the list.
