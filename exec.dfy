/**
 * The executor (src/exec.rs): runs every configured plugin once and turns each
 * run into an `ExecutionResult`, without letting one plugin's failure touch
 * another's result.
 *
 * Launching a process and decoding UTF-8 are not modelled; they are the
 * parameters `launch` and `decode`. The order in which the concurrent runs
 * complete is the parameter `completion`.
 */
module Exec {
  import opened Wrappers
  import opened Error
  import opened Config
  import opened Sequences

  newtype byte = x: int | 0 <= x < 256

  /** What a finished child process hands back: its exit status and both raw streams. */
  datatype ProcessOutput = ProcessOutput(status: int, stdout: seq<byte>, stderr: seq<byte>)

  /**
   * Spawns the plugin's command with its arguments and waits for it; fails,
   * with the `Debug` text of the `io::Error`, if it cannot start.
   */
  type Launcher = PluginConfig -> Result<ProcessOutput, string>

  /** UTF-8 decoding of one captured stream; fails on invalid bytes. */
  type Decoder = seq<byte> -> Result<string, CliError>

  datatype ExecutionOutput = ExecutionOutput(stdout: string, stderr: string)

  datatype ExecutionResult = ExecutionResult(plugin: string, result: Result<ExecutionOutput, CliError>)

  /** A successful result built directly from its parts. */
  function NewExecutionResultWithOutput(plugin: string, stdout: string, stderr: string): (r: ExecutionResult)
    ensures r.plugin == plugin && r.result.Ok?
    ensures r.result.value.stdout == stdout && r.result.value.stderr == stderr
  {
    ExecutionResult(plugin, Ok(ExecutionOutput(stdout, stderr)))
  }

  /**
   * One plugin's run: a launch failure, then an undecodable stdout, then an
   * undecodable stderr each end it with that error; otherwise both decoded
   * streams are the result. The exit status is never looked at.
   */
  function ExecuteSinglePlugin(p: PluginConfig, launch: Launcher, decode: Decoder): (r: ExecutionResult)
    ensures r.plugin == p.displayName
    ensures r.result.Ok? <==>
      launch(p).Ok? && decode(launch(p).value.stdout).Ok? && decode(launch(p).value.stderr).Ok?
    ensures launch(p).Err? ==> r.result == Err(IO(launch(p).error))
    ensures launch(p).Ok? && decode(launch(p).value.stdout).Err? ==>
      r.result == Err(decode(launch(p).value.stdout).error)
    ensures launch(p).Ok? && decode(launch(p).value.stdout).Ok? && decode(launch(p).value.stderr).Err? ==>
      r.result == Err(decode(launch(p).value.stderr).error)
    ensures r.result.Ok? ==>
      r.result.value.stdout == decode(launch(p).value.stdout).value &&
      r.result.value.stderr == decode(launch(p).value.stderr).value
  {
    var outputResult := launch(p);
    if outputResult.Err? then
      ExecutionResult(p.displayName, Err(IO(outputResult.error)))
    else
      var output := outputResult.value;
      var stdoutResult := decode(output.stdout);
      if stdoutResult.Err? then
        ExecutionResult(p.displayName, Err(stdoutResult.error))
      else
        var stderrResult := decode(output.stderr);
        if stderrResult.Err? then
          ExecutionResult(p.displayName, Err(stderrResult.error))
        else
          ExecutionResult(p.displayName, Ok(ExecutionOutput(stdoutResult.value, stderrResult.value)))
  }

  /** Each plugin's result, in configuration order. */
  function Classified(plugins: seq<PluginConfig>, launch: Launcher, decode: Decoder): (r: seq<ExecutionResult>)
    ensures |r| == |plugins|
    ensures forall i :: 0 <= i < |plugins| ==> r[i] == ExecuteSinglePlugin(plugins[i], launch, decode)
  {
    Map((p: PluginConfig) => ExecuteSinglePlugin(p, launch, decode), plugins)
  }

  /**
   * All plugins' results, in the order their runs completed. `completion`
   * lists the configuration index of each run as it finished.
   */
  function Execute(config: Config, launch: Launcher, decode: Decoder, completion: seq<nat>): (r: seq<ExecutionResult>)
    requires IsCompletionOrder(completion, |config.plugins|)
    ensures |r| == |config.plugins|
    ensures multiset(r) == multiset(Classified(config.plugins, launch, decode))
    ensures forall k :: 0 <= k < |r| ==>
      r[k] == ExecuteSinglePlugin(config.plugins[completion[k]], launch, decode)
  {
    PickPermutes(Classified(config.plugins, launch, decode), completion);
    Pick(Classified(config.plugins, launch, decode), completion)
  }

  /** The `plugin` names of `results`, in order. */
  function ResultNames(results: seq<ExecutionResult>): (names: seq<string>)
    ensures |names| == |results|
    ensures forall i :: 0 <= i < |results| ==> names[i] == results[i].plugin
  {
    Map((r: ExecutionResult) => r.plugin, results)
  }

  /** The result names are the configured display names, each exactly as often. */
  lemma ExecuteNames(config: Config, launch: Launcher, decode: Decoder, completion: seq<nat>)
    requires IsCompletionOrder(completion, |config.plugins|)
    ensures multiset(ResultNames(Execute(config, launch, decode, completion))) == multiset(DisplayNames(config.plugins))
  {
    var classified := Classified(config.plugins, launch, decode);
    assert ResultNames(classified) == DisplayNames(config.plugins);
    assert ResultNames(Execute(config, launch, decode, completion)) == Pick(ResultNames(classified), completion);
    PickPermutes(ResultNames(classified), completion);
  }

  /** Every configured plugin's own result is among those `Execute` returns. */
  lemma ExecuteCovers(config: Config, launch: Launcher, decode: Decoder, completion: seq<nat>, i: nat)
    requires IsCompletionOrder(completion, |config.plugins|) && i < |config.plugins|
    ensures ExecuteSinglePlugin(config.plugins[i], launch, decode) in Execute(config, launch, decode, completion)
  {
    OrderCovers(completion, |config.plugins|, i);
    var k :| 0 <= k < |completion| && completion[k] == i;
    assert Execute(config, launch, decode, completion)[k] == ExecuteSinglePlugin(config.plugins[i], launch, decode);
  }

  /** A plugin that fails to launch never has its streams decoded. */
  lemma LaunchFailureIgnoresDecoder(p: PluginConfig, launch: Launcher, decode1: Decoder, decode2: Decoder)
    requires launch(p).Err?
    ensures ExecuteSinglePlugin(p, launch, decode1) == ExecuteSinglePlugin(p, launch, decode2)
    ensures ExecuteSinglePlugin(p, launch, decode1).result.Err?
  {
  }

  /** Stdout is checked first: once it fails to decode, stderr is never examined. */
  lemma InvalidStdoutIgnoresStderr(p: PluginConfig, launch: Launcher, decode1: Decoder, decode2: Decoder)
    requires launch(p).Ok?
    requires decode1(launch(p).value.stdout).Err?
    requires decode1(launch(p).value.stdout) == decode2(launch(p).value.stdout)
    ensures ExecuteSinglePlugin(p, launch, decode1) == ExecuteSinglePlugin(p, launch, decode2)
  {
  }

  /** Only the captured streams matter, not the exit status: a failing command still yields `Ok`. */
  lemma ExitStatusIgnored(p: PluginConfig, launch1: Launcher, launch2: Launcher, decode: Decoder)
    requires launch1(p).Ok? && launch2(p).Ok?
    requires launch1(p).value.stdout == launch2(p).value.stdout
    requires launch1(p).value.stderr == launch2(p).value.stderr
    ensures ExecuteSinglePlugin(p, launch1, decode) == ExecuteSinglePlugin(p, launch2, decode)
  {
  }

  /** A run that starts and decodes cleanly is exactly the result the test helper builds. */
  lemma SuccessIsResultWithOutput(p: PluginConfig, launch: Launcher, decode: Decoder, stdout: string, stderr: string)
    requires launch(p).Ok?
    requires decode(launch(p).value.stdout) == Ok(stdout)
    requires decode(launch(p).value.stderr) == Ok(stderr)
    ensures ExecuteSinglePlugin(p, launch, decode) == NewExecutionResultWithOutput(p.displayName, stdout, stderr)
  {
  }

  /**
   * Isolation: whatever the launcher does for the other plugins, plugin i's
   * result, wherever it lands in the completion order, is unchanged.
   */
  lemma PluginIsolation(config: Config, launch1: Launcher, launch2: Launcher, decode: Decoder,
                        completion1: seq<nat>, completion2: seq<nat>, k1: nat, k2: nat)
    requires IsCompletionOrder(completion1, |config.plugins|) && IsCompletionOrder(completion2, |config.plugins|)
    requires k1 < |config.plugins| && k2 < |config.plugins| && completion1[k1] == completion2[k2]
    requires launch1(config.plugins[completion1[k1]]) == launch2(config.plugins[completion1[k1]])
    ensures Execute(config, launch1, decode, completion1)[k1] == Execute(config, launch2, decode, completion2)[k2]
  {
  }
}
