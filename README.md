# vscode-tasks in Dafny

This project models the core of `vscode-tasks`, a small command-line tool. The tool finds a
VS Code `.vscode/tasks.json`, decodes it into typed task configurations, and offers each task
as a subcommand named after its normalised label. Running the subcommand spawns the task's
command with its arguments.

The model has two parts:

- **Configuration decoding** (`src/parser.rs`): modules `Json`, `Parser` and `ParserProperties`.
  This is the schema-level decode from an already-lexed JSON value into `TaskConfiguration`.
  It covers:
  - the per-field defaults of the `Default` impls, with `version` defaulting to `"2.0.0"`;
  - `tasks` being required;
  - the `string_or_struct` decoder of `group`, with `Group::from_str` for the shorthand;
  - the strict lowercase names of the `type` and `kind` enums;
  - the camelCase key names of the derived decoders;
  - the serializer, used for a round-trip property.
- **Command-line layer** (`src/main.rs`): module `Cli`. It covers:
  - `task_name`;
  - the upward search `find_in_parents`, over a path buffer that `pop`s in place;
  - `find_config_path`, where a set `VSCODE_TASKS_CONFIG_PATH` wins over the search;
  - the argument vector built in `execute_task`;
  - the list / select / help dispatch in `main`;
  - one whole invocation (`RunCli`): locate, open, decode, dispatch. Each failure of the
    first three steps ends the run in a panic, as `unwrap`/`expect` do in the source.

The operating system is a set of parameters:

- the canonical working directory, as a sequence of path components;
- the set of paths that are regular files;
- the map of documents that can be opened;
- the optional value of the override variable;
- the set of names the argument parser reports present. This set stands for clap's
  `matches.is_present`.

JSON objects are modelled as maps. So the model fixes exactly which documents decode, and to
what value. When a document has several faults, the error reported is the one for the first
field in declaration order.

Three behaviours of the code are easy to miss, and the model keeps them:

- An object-form `group` needs both `kind` and `isDefault` (src/parser.rs:188-193). `Group` has
  no field defaults, so `{}` is an error, not `{Build, false}`.
- `task_name` replaces only the space character (src/main.rs:15). Tabs and other whitespace
  are kept.
- `execute_task` never passes `options.cwd` to the spawned process (src/main.rs:18-24). The
  option is decoded and then ignored.

## Model

| member | source | states |
|---|---|---|
| `Parser.DecodeStrings` | src/parser.rs:165 | an array of strings decodes exactly when every element is a string, and the result has the same elements in the same order |
| `Parser.DecodeUnitVariant` | src/parser.rs:209-221 | a unit enum decodes from its name as a string, or from a one-entry map of that name to null; it fails on every other value |
| `Parser.DecodeTaskType` | src/parser.rs:216-221 | `type` decodes exactly from the names `shell` and `process`, each to its own variant |
| `Parser.DecodeGroupKind` | src/parser.rs:209-214 | `kind` decodes exactly from the names `build` and `test`, each to its own variant |
| `Parser.GroupFromStr` | src/parser.rs:194-207 | `Group::from_str` never sets `is_default`, and its kind is Test exactly for `"test"` |
| `Parser.DecodeGroup` | src/parser.rs:87-128 | `string_or_struct` for `group`: a string never fails and goes through `from_str`; a map succeeds exactly when both `kind` and `isDefault` are present and well typed, and then it yields them; every other JSON value fails |
| `Parser.DecodeCommandOptions` | src/parser.rs:223-234 | options decode from any map whose `cwd`, if present, is a string; a missing `cwd` gives the default empty string |
| `Parser.DecodeTask` | src/parser.rs:153-186 | a task object decodes exactly when each present key has a value of the right shape; each field comes from its camelCase key when present and from the `Default` impl otherwise |
| `Parser.DecodeTaskList` | src/parser.rs:134 | the task array decodes exactly when every element does; the result keeps their number and their order |
| `Parser.Decode` | src/parser.rs:130-151 | a document decodes exactly when it is an object with a well-typed optional `version` and a `tasks` array of decodable tasks; a missing `version` is `"2.0.0"`; a missing `tasks` is the error `MissingField("tasks")` |
| `Parser.EncodeGroup` | src/parser.rs:188-193 | the derived serializer writes a group as a map with exactly the keys `kind` (lower-case name) and `isDefault`, in the form the group decoder accepts and reads back as that group |
| `Parser.EncodeTask` | src/parser.rs:153-168 | the derived serializer writes all nine camelCase keys (`type`, `isBackground`, `problemMatcher`, ...), none omitted; every entry is well typed for the decoder and denotes the task's own field |
| `Parser.Encode` | src/parser.rs:130-151 | the derived serializer writes exactly `version`, as a bare string, and `tasks`, one encoded task per task in order |
| `ParserProperties.GroupShorthand` | src/parser.rs:197-206 | the shorthands `"build"` and `"test"` give their kind with `isDefault` false; any other string gives Build |
| `ParserProperties.GroupObjectNeedsBothKeys` | src/parser.rs:188-193 | an object-form group missing `kind` or `isDefault` is an error; `{}` fails with `MissingField("kind")` |
| `ParserProperties.GroupRejectsOtherJson` | src/parser.rs:104-106 | null, booleans, numbers and arrays are refused as a group |
| `ParserProperties.GroupRoundTrip` | src/parser.rs:188-193 | serializing a group as `{kind, isDefault}` and decoding it gives the same group |
| `ParserProperties.TaskTypeIsStrict` | src/parser.rs:216-221 | a `type` string decodes exactly when it is `"shell"` or `"process"` |
| `ParserProperties.GroupKindIsStrict` | src/parser.rs:209-214 | a `kind` string decodes exactly when it is `"build"` or `"test"` |
| `ParserProperties.ShorthandLenientKindStrict` | src/parser.rs:197-214 | `"Test"` is a valid group shorthand meaning Build, but it is refused as an object's `kind` |
| `ParserProperties.EmptyTaskIsDefault` | src/parser.rs:169-186 | the empty task object decodes to the `Default` task |
| `ParserProperties.LabelAndCommandOnly` | src/parser.rs:153-186 | a task with only `label` and `command` has type Shell, group {Build, false}, no args, empty cwd, and is not a background task |
| `ParserProperties.UnknownTaskKeyIgnored` | src/parser.rs:153-168 | adding a key the schema does not know, such as snake_case `is_background`, does not change the decode of a task |
| `ParserProperties.VersionDefaultTasksRequired` | src/parser.rs:130-151 | without `version`, the version is `"2.0.0"`; without `tasks`, decoding fails with `MissingField("tasks")`, so `{}` is not read as the `Default` configuration |
| `ParserProperties.EmptyTaskListAccepted` | src/parser.rs:130-135 | an empty task list is a valid document |
| `ParserProperties.ExampleDecodes` | src/parser.rs:20-66 | the crate's documented example decodes to exactly the documented struct |
| `ParserProperties.TaskRoundTrip` | src/parser.rs:153-168 | a task serialized under its camelCase keys decodes back to itself |
| `ParserProperties.RoundTrip` | src/parser.rs:130-135 | serializing any configuration and decoding it gives it back |
| `Cli.ReplaceSpaces` | src/main.rs:15 | `replace(" ", "_")` keeps the length, turns each space into `_` and keeps every other character |
| `Cli.ToLowerAscii` | src/main.rs:15 | `to_lowercase` keeps the length and lower-cases each ASCII letter in place |
| `Cli.TaskName` | src/main.rs:14-16 | a task name has its label's length and holds no space and no upper-case ASCII letter |
| `Cli.TaskNameAt` | src/main.rs:14-16 | per position: a space becomes `_`, an upper-case letter its lower case, and any other character, other whitespace included, stays |
| `Cli.TaskNameIdempotent` | src/main.rs:14-16 | normalising a task name again changes nothing |
| `Cli.TaskNameConcat` | src/main.rs:14-16 | the name of a concatenation is the concatenation of the names |
| `Cli.TaskNameExample` | src/main.rs:14-16 | `"Emit Greeting"` becomes `"emit_greeting"`, and `"emit_greeting"` is its own name |
| `Cli.PathBuf.Pop` | src/main.rs:36 | `pop` truncates to the parent and returns true; at the root it returns false and changes nothing |
| `Cli.NearestAncestor` | src/main.rs:26-39 | the chosen depth is the deepest directory between the start and the root whose child is a file; none exists exactly when no such directory exists, the root included |
| `Cli.FindInParents` | src/main.rs:26-39 | the loop returns `start[..k] + child` for the nearest such ancestor `k`, or NotFound after checking the root; it terminates because each pop shortens the path |
| `Cli.FindConfigPath` | src/main.rs:41-55 | a set override is returned verbatim with no search; otherwise the result is the rendered path found by the upward search for `.vscode/tasks.json` |
| `Cli.ConfigLocationExample` | src/main.rs:41-55 | override `/a/b/tasks.json` gives exactly that path; from `/x/y/z` with only `/x/.vscode/tasks.json` present, the search finds `/x/.vscode/tasks.json` |
| `Cli.Command.Arg` | src/main.rs:21 | each `arg` appends one argument after those already given |
| `Cli.ExecuteTask` | src/main.rs:18-24 | the spawned argument vector is the command followed by the task's `args` in list order |
| `Cli.ListTasks` | src/main.rs:95-100 | `--list` prints a header, then one line per task in document order, pairing its name with its type |
| `Cli.FirstSelected` | src/main.rs:102-115 | the selected task is the first, in document order, whose name is present; none is selected exactly when no task's name is present |
| `Cli.Dispatch` | src/main.rs:95-119 | with `list` present, the tasks are listed and none runs; otherwise the first selected task runs with its argument vector; with no selection, help is shown and nothing runs |
| `Cli.ShadowedTaskNeverRuns` | src/main.rs:102-115 | of two tasks whose labels normalise to the same name, the later one never runs |
| `Cli.RunCli` | src/main.rs:57-60 | an invocation that cannot locate, open or decode the configuration ends in a panic with that reason; otherwise it dispatches on the decoded tasks |

## Left out

- JSON text lexing and reading the file (`File::open`, `BufReader`, `serde_json::from_reader`) are not modelled. Decoding starts from a JSON value, and an unopenable file is the `ConfigUnreadable` panic of `RunCli`.
- Decode, DecodeTask, DecodeCommandOptions, DecodePresentation, DecodeProblemMatcher: serde_json also accepts a struct written as a JSON array of its fields in declaration order (so `[]` for the two structs without fields). The model refuses that form.
- Duplicate keys in a JSON object cannot be represented. serde reports `duplicate field` for a repeated key of a declared field and ignores a repeated unknown key.
- Error messages are kept only as a kind: missing field, invalid type or unknown variant. When a document has several faults, the model reports the one for the first field in declaration order. serde reports a badly typed value as soon as it reads it, in document order, and a missing field only after every present key has been read. So for `group: {"isDefault": 5}` serde reports an invalid type and the model reports `MissingField("kind")`.
- Cli.ToLowerAscii: only ASCII letters are lower-cased. Rust's `to_lowercase` also folds non-ASCII letters.
- `env::current_dir` and `env::var` are OS calls. Their results are parameters: the working directory and the optional override. A failing `env::var` (unset or not Unicode) selects the upward search (src/main.rs:49-53), which is the `None` case of the override parameter. The panics of `env::current_dir().expect(...)` (src/main.rs:50) and of `cwd.to_str().unwrap()` on a working directory that is not UTF-8 (src/main.rs:51) are not modelled: the working directory is always given as components. `canonicalize().unwrap()` (src/main.rs:30) is not modelled either: the start of the search is given already canonical, so its panic on a missing path is left out.
- Spawning the process (`Command::output`) is not modelled, and neither is relaying its stdout and stderr. The `expect` on a spawn failure and the `assert!` on a non-zero exit status are not modelled either. `ExecuteTask` returns the argument vector that would be spawned.
- Building the clap `App`, matching arguments and rendering help are a foreign library. The names it reports present are the parameter `present`, and help is the `Help` outcome. Because `is_present` also answers for the flags `list` and `v`, a task named `list` always lists, and a task named `v` runs when `-v` is given. The model captures this.
- `PresentationOptions` and `ProblemMatcher` carry no data. They are unit datatypes that decode from any JSON object, and, as noted above, not from the array form.
