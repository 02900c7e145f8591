# bitbar-composite-plugin, verified model

bitbar-composite-plugin is a BitBar/xbar menu-bar plugin that runs several
other plugins and merges their output into one report. This project models
its two core pieces in Dafny and proves what they promise.

- **The executor** (`src/exec.rs`). It runs every configured plugin once and
  classifies each run as an `ExecutionResult`. A run is an error if the
  command cannot be started, if its stdout is not valid UTF-8, or if its
  stderr is not valid UTF-8, checked in that order. Otherwise it is a success
  that carries both decoded streams. The runs are concurrent, so results come
  back in completion order.
- **The formatter** (`src/output.rs`). It prints the header
  `Bit | color=orange`, then one block per configured plugin, in
  configuration order. Each block comes from the first result whose name is
  that plugin's display name. It uses a green title and then either
  stdout+stderr or a red `Error:` line.

Modules:

- `Wrappers` (`Option`, `Result`).
- `Error`: `CliError` and its derived `Debug` text.
- `Config`: `PluginConfig`, `Config`.
- `Sequences`: completion orders as permutations of indices, and picking along them.
- `Exec`: per-plugin classification and `Execute`.
- `Output`: result lookup, block text, and the `Formatter` class whose
  `Format` method keeps the source's push loop.

External effects are parameters:

- `launch: Launcher` spawns a plugin's command and waits for it. On failure it
  gives the `Debug` text of the `io::Error`, which `ExecuteSinglePlugin` wraps
  in `CliError::IO`, as the `From<io::Error>` impl does (src/error.rs:9-13).
- `decode: Decoder` is `String::from_utf8` followed by the conversion into `CliError`.
- `completion: seq<nat>` is the order in which the concurrent runs finish. It
  is any permutation of the configuration indices (`IsCompletionOrder`).

The formatter's output is a vector of lines. `JoinLines` is the
`join("\n")` the caller applies before printing.

Two facts about the code that the model keeps:

- `PluginConfig` has a `show_in_sub_menu` flag (src/config.rs:16-17), but
  `Formatter::format` never reads it. So there is no sub-menu layout: every
  block uses the plain layout, in the code and in the model.
- The title line of an error block is built from the result's own `plugin`
  field, as the code does (src/output.rs:29-31). Since that result was found
  by display name, it is the same text.

## Model

| member | source | states |
|---|---|---|
| Exec.NewExecutionResultWithOutput | src/exec.rs:20-32 | the result names the given plugin and is `Ok` with exactly the given stdout and stderr |
| Exec.ExecuteSinglePlugin | src/exec.rs:53-91 | the result always carries the plugin's display name; it is `Ok` iff launch, stdout decoding and stderr decoding all succeed; a launch failure gives `IO` of the launch error, then a stdout failure, then a stderr failure each give exactly the decoder's error; an `Ok` holds the two decoded streams |
| Exec.LaunchFailureIgnoresDecoder | src/exec.rs:59-64 | a plugin that cannot be started is an error whatever the decoder would do, so its streams are never decoded |
| Exec.InvalidStdoutIgnoresStderr | src/exec.rs:68-74 | once stdout fails to decode the result no longer depends on how stderr would decode |
| Exec.ExitStatusIgnored | src/exec.rs:54-66 | two runs with the same streams but any exit statuses give the same result, so a failing command still yields `Ok` |
| Exec.SuccessIsResultWithOutput | src/exec.rs:84-90 | a run that starts and decodes cleanly equals `new_execution_result_with_output` of the name and the decoded streams |
| Exec.Classified | src/exec.rs:44-47 | mapping the classification over the plugins gives plugin i's own result at position i |
| Exec.Execute | src/exec.rs:43-51 | exactly one result per configured plugin: same length, the same multiset as the per-plugin results, and position k holds the result of the plugin that finished k-th |
| Exec.ExecuteNames | src/exec.rs:43-51 | the multiset of result names equals the multiset of configured display names |
| Exec.ExecuteCovers | src/exec.rs:128-143 | every configured plugin's own result is among the results, whatever the completion order |
| Exec.PluginIsolation | src/exec.rs:47 | a plugin's result depends only on its own launch: changing what the launcher does for other plugins, or the completion order, leaves it unchanged |
| Output.Find | src/output.rs:19-22 | a found result carries the looked-up name |
| Output.FindSpec | src/output.rs:19-22 | the lookup is `None` exactly when no result has the name; otherwise it returns the earliest result that has it, which is a member of the results |
| Output.FindUnique | src/output.rs:19-22 | when result names are unique, looking up a result's name finds that result |
| Output.Matched | src/output.rs:18-22 | for plugins that all have a match, the matched results in configuration order: entry i is the first result named like plugin i |
| Output.Render | src/output.rs:13-37 | the report has one line more than there are plugins, line 0 is the orange `Bit` header, and line i+1 is the block of configured plugin i's first matching result |
| Output.Formatter.constructor | src/output.rs:8-10 | the formatter keeps the configuration it is given |
| Output.Formatter.Format | src/output.rs:13-37 | the push loop returns exactly `Render` of the configured plugins, given that every plugin has a matching result (otherwise `unwrap` panics) |
| Output.OkBlockText | src/output.rs:25-28 | a success block is `---`, newline, the name coloured green, newline, `---`, newline, then stdout immediately followed by stderr |
| Output.ErrBlockText | src/output.rs:29-31 | an error block is `---`, newline, the name coloured green, newline, `Error: ` and the error's debug text coloured red, with no second `---` |
| Output.SameMatchesSameReport | src/output.rs:18-34 | two result lists that answer every configured lookup alike produce the same report |
| Output.FormatPermutationInvariant | src/output.rs:66-72 | when result names are unique, any permutation of the results leaves the report unchanged |
| Output.ExecuteAllMatched | src/main.rs:12-15 | for any configuration, repeated display names included, every configured plugin finds a result in `execute`'s output, so `format(execute())` never panics at the `unwrap` |
| Output.ReportInConfigurationOrder | src/output.rs:18-34 | for an actual execution with unique display names, line i+1 of the report is the block of plugin i's own result, whatever the completion order |
| Output.ReportIndependentOfCompletion | src/exec.rs:43-51 | with unique display names, the report of an execution is the same for every completion order |
| Output.SuccessfulRunReported | src/exec.rs:128-143 | with unique display names, a plugin that starts and decodes cleanly is found by its name and carries exactly its decoded streams |
| Output.FailedLaunchReported | src/exec.rs:183-185 | with unique display names, a plugin that cannot be started is still found by its name, its result is `IO` of that launch error, and its block ends in the red line `Error: IO(<error>)` |
| Output.ThreePluginRender | src/output.rs:47-72 | for any three distinct names configured as [1, 3, 2] with results given as [3, 2, 1], the report lines are the header and then the blocks of 1, 3 and 2, in that order |
| Output.ThreePluginReport | src/output.rs:72-88 | the same report joined with newlines is the header followed by the lines of the three blocks in configuration order |
| Output.FormatFixture | src/output.rs:74-88 | for the formatter test's own names and outputs, the joined report is exactly the expected thirteen-line text |

## Left out

- Process spawning (src/exec.rs:54-57) is the parameter `launch`. The model
  only relies on it being a function of the plugin's configuration.
- Concurrency: `FuturesUnordered` and the async `collect`
  (src/exec.rs:48-50) become a completion order given as a parameter. No
  scheduling is modelled.
- UTF-8 validation inside `String::from_utf8` is the parameter `decode`. The
  conversion of its error into `CliError` (`.into()` at src/exec.rs:72 and
  src/exec.rs:80) is done inside `decode`. src/error.rs has no `From` impl for
  that error type.
- The `Debug` text of the wrapped `io::Error` and `serde_yaml::Error` values
  is kept as an opaque string (`cause`). Only the derived `Variant(...)`
  wrapper around it is modelled.
- The `From` conversions of src/error.rs (src/error.rs:9-19) are not
  modelled as functions. The one the executor uses, `io::Error` into `IO`,
  is the wrapping in `ExecuteSinglePlugin`.
- Configuration loading (`config::from_file`, src/config.rs:20-23) is file
  I/O and YAML deserialisation. Its serde aliases and defaults are not
  modelled either; only the `PluginConfig` and `Config` shapes are.
- Of src/main.rs only the call `format(execute())` is modelled
  (`ExecuteAllMatched`). The path of the configuration file, the panic on a
  bad configuration and printing the joined report are not.
- tests/config_integration_tests.rs reads a real file and is not modelled.
- `exec::new` and the `Executor` struct only borrow the configuration.
  `Execute` takes the configuration directly.
- The formatter test's `PluginConfig` literals (src/output.rs:49-61) omit
  `show_in_sub_menu`. The fixture in `FixturePlugins` sets it to `false`.
- `Output.Find`: its own contract states only that a found result carries the
  name. The full lookup specification is the lemma `FindSpec`, so that
  proofs which mention a lookup do not carry its quantifiers.
- Sub-menu rendering by `show_in_sub_menu` is not modelled, because the
  formatter's code never reads the flag.
