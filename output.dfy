/**
 * The report formatter (src/output.rs): one header line, then one block per
 * configured plugin, in configuration order, each block rendered from the
 * first execution result that carries the plugin's display name.
 */
module Output {
  import opened Wrappers
  import opened Error
  import opened Config
  import opened Sequences
  import opened Exec

  const Header: string := "Bit | color=orange"

  /** The first result whose `plugin` is `name`, as Rust's `Iterator::find` returns it. */
  function Find(results: seq<ExecutionResult>, name: string): (r: Option<ExecutionResult>)
    ensures r.Some? ==> r.value.plugin == name
  {
    if results == [] then None
    else if results[0].plugin == name then Some(results[0])
    else Find(results[1..], name)
  }

  /**
   * `Find` answers `None` exactly when no result carries the name, and
   * otherwise the earliest result that does.
   */
  lemma {:induction false} FindSpec(results: seq<ExecutionResult>, name: string)
    ensures Find(results, name).None? <==> forall k :: 0 <= k < |results| ==> results[k].plugin != name
    ensures forall k ::
      (0 <= k < |results| && results[k].plugin == name && forall j :: 0 <= j < k ==> results[j].plugin != name)
      ==> Find(results, name) == Some(results[k])
    ensures Find(results, name).Some? ==> Find(results, name).value in results
  {
    if results != [] && results[0].plugin != name {
      FindSpec(results[1..], name);
      assert forall k :: 0 < k < |results| ==> results[k] == results[1..][k - 1];
    }
  }

  /** Every configured plugin has a result to render; `format` panics otherwise. */
  predicate AllMatched(plugins: seq<PluginConfig>, results: seq<ExecutionResult>)
  {
    forall i :: 0 <= i < |plugins| ==> Find(results, plugins[i].displayName).Some?
  }

  /**
   * The lines of one plugin's block: the plugin's title under a `---`
   * separator, then either a second separator and stdout run into stderr, or
   * a single red error line.
   */
  function BlockLines(r: ExecutionResult): seq<string>
  {
    match r.result
    case Ok(output) => ["---", r.plugin + " | color=green", "---", output.stdout + output.stderr]
    case Err(e) => ["---", r.plugin + " | color=green", "Error: " + Debug(e) + " | color=red"]
  }

  /** One plugin's block of text. */
  function Block(r: ExecutionResult): string
  {
    JoinLines(BlockLines(r))
  }

  /** Joins lines with a newline between each two, as `join("\n")` on a vector of strings does. */
  function JoinLines(lines: seq<string>): string
  {
    if |lines| == 0 then ""
    else if |lines| == 1 then lines[0]
    else lines[0] + "\n" + JoinLines(lines[1..])
  }

  /** The result each configured plugin finds, in configuration order. */
  function Matched(plugins: seq<PluginConfig>, results: seq<ExecutionResult>): (matched: seq<ExecutionResult>)
    requires AllMatched(plugins, results)
    ensures |matched| == |plugins|
    ensures forall i :: 0 <= i < |plugins| ==> matched[i] == Find(results, plugins[i].displayName).value
  {
    if plugins == [] then []
    else [Find(results, plugins[0].displayName).value] + Matched(plugins[1..], results)
  }

  /** Looking up one more configured plugin appends exactly its result. */
  lemma MatchedAppend(plugins: seq<PluginConfig>, results: seq<ExecutionResult>, i: nat)
    requires AllMatched(plugins, results) && i < |plugins|
    ensures AllMatched(plugins[..i], results) && AllMatched(plugins[..i + 1], results)
    ensures Matched(plugins[..i + 1], results) ==
      Matched(plugins[..i], results) + [Find(results, plugins[i].displayName).value]
  {
    var shorter, longer := plugins[..i], plugins[..i + 1];
    forall k | 0 <= k < |longer|
      ensures longer[k] == plugins[k] && Find(results, longer[k].displayName).Some?
    {
    }
    forall k | 0 <= k < |shorter|
      ensures shorter[k] == plugins[k] && Find(results, shorter[k].displayName).Some?
    {
    }
    var m, n := Matched(longer, results), Matched(shorter, results) + [Find(results, plugins[i].displayName).value];
    forall k | 0 <= k < |m|
      ensures m[k] == n[k]
    {
      if k < i {
        assert n[k] == Matched(shorter, results)[k];
      }
    }
  }

  /** What `format` returns: the header, then block i for configured plugin i. */
  function Render(plugins: seq<PluginConfig>, results: seq<ExecutionResult>): (lines: seq<string>)
    requires AllMatched(plugins, results)
    ensures |lines| == |plugins| + 1
    ensures lines[0] == Header
    ensures forall i :: 1 <= i < |lines| ==> lines[i] == Block(Find(results, plugins[i - 1].displayName).value)
  {
    [Header] + Map(Block, Matched(plugins, results))
  }

  class Formatter {
    const config: Config

    constructor (config: Config)
      ensures this.config == config
    {
      this.config := config;
    }

    method Format(executionResults: seq<ExecutionResult>) returns (output: seq<string>)
      requires AllMatched(config.plugins, executionResults)
      ensures output == Render(config.plugins, executionResults)
    {
      output := [];
      output := output + [Header];
      for i := 0 to |config.plugins|
        invariant AllMatched(config.plugins[..i], executionResults)
        invariant output == [Header] + Map(Block, Matched(config.plugins[..i], executionResults))
      {
        var plugin := config.plugins[i];
        var pluginExecutionResult := Find(executionResults, plugin.displayName).value;
        var formatted := Block(pluginExecutionResult);
        MatchedAppend(config.plugins, executionResults, i);
        MapAppend(Block, Matched(config.plugins[..i], executionResults), pluginExecutionResult);
        output := output + [formatted];
      }
      assert config.plugins[..|config.plugins|] == config.plugins;
    }
  }

  /** Three lines joined: two newlines between them. */
  lemma JoinThree(a: string, b: string, c: string)
    ensures JoinLines([a, b, c]) == a + "\n" + b + "\n" + c
  {
    assert [a, b, c][1..][1..] == [c];
    assert JoinLines([a, b, c][1..]) == b + "\n" + c;
  }

  /** Four lines joined: three newlines between them. */
  lemma JoinFour(a: string, b: string, c: string, d: string)
    ensures JoinLines([a, b, c, d]) == a + "\n" + b + "\n" + c + "\n" + d
  {
    assert [a, b, c, d][1..] == [b, c, d];
    JoinThree(b, c, d);
  }

  /**
   * A success block is exactly the source's template: the title under a
   * `---` line, a second `---` line, then stdout and stderr with nothing
   * between them.
   */
  lemma OkBlockText(r: ExecutionResult)
    requires r.result.Ok?
    ensures Block(r) ==
      "---" + "\n" + (r.plugin + " | color=green") + "\n" + "---" + "\n" + (r.result.value.stdout + r.result.value.stderr)
  {
    JoinFour("---", r.plugin + " | color=green", "---", r.result.value.stdout + r.result.value.stderr);
  }

  /**
   * An error block is exactly the source's template: the title under a
   * `---` line, then one red line with the error's debug form.
   */
  lemma ErrBlockText(r: ExecutionResult)
    requires r.result.Err?
    ensures Block(r) ==
      "---" + "\n" + (r.plugin + " | color=green") + "\n" + ("Error: " + Debug(r.result.error) + " | color=red")
  {
    JoinThree("---", r.plugin + " | color=green", "Error: " + Debug(r.result.error) + " | color=red");
  }

  lemma NameOfMember(results: seq<ExecutionResult>, x: ExecutionResult)
    requires x in results
    ensures x.plugin in ResultNames(results)
  {
    var j :| 0 <= j < |results| && results[j] == x;
    assert ResultNames(results)[j] == x.plugin;
  }

  /** With unique names, the first match for a result's name is that result itself. */
  lemma {:induction false} FindUnique(results: seq<ExecutionResult>, x: ExecutionResult)
    requires NoDuplicates(ResultNames(results)) && x in results
    ensures Find(results, x.plugin) == Some(x)
  {
    if results[0] != x {
      var names := ResultNames(results);
      assert names == [results[0].plugin] + ResultNames(results[1..]);
      NoDuplicatesTail(names);
      NameOfMember(results[1..], x);
      FindUnique(results[1..], x);
    }
  }

  /** Two result lists that answer every configured lookup alike give the same report. */
  lemma SameMatchesSameReport(plugins: seq<PluginConfig>, a: seq<ExecutionResult>, b: seq<ExecutionResult>)
    requires AllMatched(plugins, a)
    requires forall i :: 0 <= i < |plugins| ==> Find(b, plugins[i].displayName) == Find(a, plugins[i].displayName)
    ensures AllMatched(plugins, b) && Render(plugins, b) == Render(plugins, a)
  {
    assert Matched(plugins, b) == Matched(plugins, a);
  }

  lemma NamesOfPick(results: seq<ExecutionResult>, order: seq<nat>)
    requires InRange(order, |results|)
    ensures ResultNames(Pick(results, order)) == Pick(ResultNames(results), order)
  {
  }

  /** Picking results along a completion order keeps their multiset and their names unique. */
  lemma PermutedResults(results: seq<ExecutionResult>, order: seq<nat>)
    requires NoDuplicates(ResultNames(results)) && IsCompletionOrder(order, |results|)
    ensures multiset(Pick(results, order)) == multiset(results)
    ensures NoDuplicates(ResultNames(Pick(results, order)))
  {
    PickPermutes(results, order);
    NamesOfPick(results, order);
    PickPermutes(ResultNames(results), order);
    NoDuplicatesOfPermutation(ResultNames(results), ResultNames(Pick(results, order)));
  }

  /**
   * When result names are unique, permuting the results (here, picking them
   * along any completion order) leaves the formatted report unchanged.
   */
  lemma FormatPermutationInvariant(plugins: seq<PluginConfig>, results: seq<ExecutionResult>, order: seq<nat>)
    requires AllMatched(plugins, results) && NoDuplicates(ResultNames(results))
    requires IsCompletionOrder(order, |results|)
    ensures AllMatched(plugins, Pick(results, order))
    ensures Render(plugins, Pick(results, order)) == Render(plugins, results)
  {
    var permuted := Pick(results, order);
    PermutedResults(results, order);
    forall i | 0 <= i < |plugins|
      ensures Find(permuted, plugins[i].displayName) == Find(results, plugins[i].displayName)
    {
      var x := Find(results, plugins[i].displayName).value;
      FindSpec(results, plugins[i].displayName);
      FindUnique(results, x);
      assert x in multiset(permuted);
      FindUnique(permuted, x);
    }
    SameMatchesSameReport(plugins, results, permuted);
  }

  /**
   * Every configured plugin finds a result among those of an execution, so
   * the `unwrap` in `format` never panics on `execute`'s output, whether or
   * not display names repeat.
   */
  lemma ExecuteAllMatched(config: Config, launch: Launcher, decode: Decoder, completion: seq<nat>)
    requires IsCompletionOrder(completion, |config.plugins|)
    ensures AllMatched(config.plugins, Execute(config, launch, decode, completion))
  {
    var results := Execute(config, launch, decode, completion);
    forall i | 0 <= i < |config.plugins|
      ensures Find(results, config.plugins[i].displayName).Some?
    {
      ExecuteCovers(config, launch, decode, completion, i);
      FindSpec(results, config.plugins[i].displayName);
      var x := ExecuteSinglePlugin(config.plugins[i], launch, decode);
      var k :| 0 <= k < |results| && results[k] == x;
    }
  }

  /**
   * The report of an execution lists every plugin's own result in
   * configuration order, whatever order the runs completed in, provided the
   * display names are unique.
   */
  lemma ReportInConfigurationOrder(config: Config, launch: Launcher, decode: Decoder, completion: seq<nat>)
    requires IsCompletionOrder(completion, |config.plugins|)
    requires NoDuplicates(DisplayNames(config.plugins))
    ensures AllMatched(config.plugins, Execute(config, launch, decode, completion))
    ensures forall i :: 0 <= i < |config.plugins| ==>
      Render(config.plugins, Execute(config, launch, decode, completion))[i + 1] ==
      Block(ExecuteSinglePlugin(config.plugins[i], launch, decode))
  {
    var results := Execute(config, launch, decode, completion);
    ExecuteAllMatched(config, launch, decode, completion);
    ExecuteNames(config, launch, decode, completion);
    NoDuplicatesOfPermutation(DisplayNames(config.plugins), ResultNames(results));
    forall i | 0 <= i < |config.plugins|
      ensures Find(results, config.plugins[i].displayName) == Some(ExecuteSinglePlugin(config.plugins[i], launch, decode))
    {
      ExecuteCovers(config, launch, decode, completion, i);
      FindUnique(results, ExecuteSinglePlugin(config.plugins[i], launch, decode));
    }
  }

  /** Hence the report does not depend on the completion order at all. */
  lemma ReportIndependentOfCompletion(config: Config, launch: Launcher, decode: Decoder,
                                      completion1: seq<nat>, completion2: seq<nat>)
    requires IsCompletionOrder(completion1, |config.plugins|) && IsCompletionOrder(completion2, |config.plugins|)
    requires NoDuplicates(DisplayNames(config.plugins))
    ensures AllMatched(config.plugins, Execute(config, launch, decode, completion1))
    ensures AllMatched(config.plugins, Execute(config, launch, decode, completion2))
    ensures Render(config.plugins, Execute(config, launch, decode, completion1)) ==
            Render(config.plugins, Execute(config, launch, decode, completion2))
  {
    ReportInConfigurationOrder(config, launch, decode, completion1);
    ReportInConfigurationOrder(config, launch, decode, completion2);
  }

  /**
   * A plugin that starts and whose streams decode can be looked up in the
   * execution's results by its display name, and carries exactly those
   * decoded streams.
   */
  lemma SuccessfulRunReported(config: Config, launch: Launcher, decode: Decoder, completion: seq<nat>, i: nat,
                              stdout: string, stderr: string)
    requires IsCompletionOrder(completion, |config.plugins|) && i < |config.plugins|
    requires NoDuplicates(DisplayNames(config.plugins))
    requires launch(config.plugins[i]).Ok?
    requires decode(launch(config.plugins[i]).value.stdout) == Ok(stdout)
    requires decode(launch(config.plugins[i]).value.stderr) == Ok(stderr)
    ensures Find(Execute(config, launch, decode, completion), config.plugins[i].displayName) ==
      Some(NewExecutionResultWithOutput(config.plugins[i].displayName, stdout, stderr))
  {
    var results := Execute(config, launch, decode, completion);
    ExecuteNames(config, launch, decode, completion);
    NoDuplicatesOfPermutation(DisplayNames(config.plugins), ResultNames(results));
    ExecuteCovers(config, launch, decode, completion, i);
    FindUnique(results, ExecuteSinglePlugin(config.plugins[i], launch, decode));
  }

  /**
   * A plugin whose command cannot be started is still in the results, as an
   * `IO` error, and its block ends in the red line `Error: IO(..)`.
   */
  lemma FailedLaunchReported(config: Config, launch: Launcher, decode: Decoder, completion: seq<nat>, i: nat)
    requires IsCompletionOrder(completion, |config.plugins|) && i < |config.plugins|
    requires NoDuplicates(DisplayNames(config.plugins))
    requires launch(config.plugins[i]).Err?
    ensures Find(Execute(config, launch, decode, completion), config.plugins[i].displayName).Some?
    ensures Find(Execute(config, launch, decode, completion), config.plugins[i].displayName).value.result ==
      Err(IO(launch(config.plugins[i]).error))
    ensures Block(Find(Execute(config, launch, decode, completion), config.plugins[i].displayName).value) ==
      "---" + "\n" + (config.plugins[i].displayName + " | color=green") + "\n" +
      ("Error: " + ("IO(" + launch(config.plugins[i]).error + ")") + " | color=red")
  {
    var results := Execute(config, launch, decode, completion);
    ExecuteNames(config, launch, decode, completion);
    NoDuplicatesOfPermutation(DisplayNames(config.plugins), ResultNames(results));
    ExecuteCovers(config, launch, decode, completion, i);
    FindUnique(results, ExecuteSinglePlugin(config.plugins[i], launch, decode));
    ErrBlockText(ExecuteSinglePlugin(config.plugins[i], launch, decode));
  }

  /** Joining two non-empty line lists puts exactly one newline between their texts. */
  lemma {:induction false} JoinLinesAppend(a: seq<string>, b: seq<string>)
    requires a != [] && b != []
    ensures JoinLines(a + b) == JoinLines(a) + "\n" + JoinLines(b)
  {
    assert (a + b)[1..] == a[1..] + b;
    if |a| > 1 {
      JoinLinesAppend(a[1..], b);
    }
  }

  /** A successful block with empty stderr, as the lines of text it consists of. */
  lemma OkBlockLines(name: string, out: string)
    ensures Block(NewExecutionResultWithOutput(name, out, "")) ==
      JoinLines(["---", name + " | color=green", "---", out])
  {
    assert out + "" == out;
  }

  /** Joining already joined groups of lines is joining all their lines. */
  lemma JoinGroups(head: string, a: seq<string>, b: seq<string>, c: seq<string>)
    requires a != [] && b != [] && c != []
    ensures JoinLines([head, JoinLines(a), JoinLines(b), JoinLines(c)]) == JoinLines([head] + a + b + c)
  {
    JoinFour(head, JoinLines(a), JoinLines(b), JoinLines(c));
    JoinLinesAppend(b, c);
    JoinLinesAppend(a, b + c);
    JoinLinesAppend([head], a + (b + c));
    assert [head] + a + b + c == [head] + (a + (b + c));
  }

  /** In the shape of the formatter's test, every configured name finds its own result. */
  lemma ThreePluginMatches(p1: PluginConfig, p2: PluginConfig, p3: PluginConfig, r1: ExecutionResult,
                           r2: ExecutionResult, r3: ExecutionResult)
    requires p1.displayName != p2.displayName && p1.displayName != p3.displayName && p2.displayName != p3.displayName
    requires r1.plugin == p1.displayName && r2.plugin == p2.displayName && r3.plugin == p3.displayName
    ensures Find([r3, r2, r1], p1.displayName) == Some(r1)
    ensures Find([r3, r2, r1], p2.displayName) == Some(r2)
    ensures Find([r3, r2, r1], p3.displayName) == Some(r3)
  {
    var results := [r3, r2, r1];
    assert results[1..] == [r2, r1] && results[1..][1..] == [r1];
    assert Find(results[1..][1..], p1.displayName) == Some(r1);
  }

  /**
   * The shape of the formatter's test, for any three distinct names: plugins
   * configured as [1, 3, 2] and results arriving as [3, 2, 1] are rendered
   * as [1, 3, 2].
   */
  lemma ThreePluginRender(p1: PluginConfig, p2: PluginConfig, p3: PluginConfig, out1: string, out2: string, out3: string)
    requires p1.displayName != p2.displayName && p1.displayName != p3.displayName && p2.displayName != p3.displayName
    ensures AllMatched([p1, p3, p2], [NewExecutionResultWithOutput(p3.displayName, out3, ""),
                                      NewExecutionResultWithOutput(p2.displayName, out2, ""),
                                      NewExecutionResultWithOutput(p1.displayName, out1, "")])
    ensures Render([p1, p3, p2], [NewExecutionResultWithOutput(p3.displayName, out3, ""),
                                  NewExecutionResultWithOutput(p2.displayName, out2, ""),
                                  NewExecutionResultWithOutput(p1.displayName, out1, "")]) ==
      [Header,
       JoinLines(["---", p1.displayName + " | color=green", "---", out1]),
       JoinLines(["---", p3.displayName + " | color=green", "---", out3]),
       JoinLines(["---", p2.displayName + " | color=green", "---", out2])]
  {
    var r1 := NewExecutionResultWithOutput(p1.displayName, out1, "");
    var r2 := NewExecutionResultWithOutput(p2.displayName, out2, "");
    var r3 := NewExecutionResultWithOutput(p3.displayName, out3, "");
    ThreePluginMatches(p1, p2, p3, r1, r2, r3);
    OkBlockLines(p1.displayName, out1);
    OkBlockLines(p3.displayName, out3);
    OkBlockLines(p2.displayName, out2);
  }

  /** The same report, joined with newlines as the command line prints it. */
  lemma ThreePluginReport(p1: PluginConfig, p2: PluginConfig, p3: PluginConfig, out1: string, out2: string, out3: string)
    requires p1.displayName != p2.displayName && p1.displayName != p3.displayName && p2.displayName != p3.displayName
    ensures AllMatched([p1, p3, p2], [NewExecutionResultWithOutput(p3.displayName, out3, ""),
                                      NewExecutionResultWithOutput(p2.displayName, out2, ""),
                                      NewExecutionResultWithOutput(p1.displayName, out1, "")])
    ensures JoinLines(Render([p1, p3, p2], [NewExecutionResultWithOutput(p3.displayName, out3, ""),
                                           NewExecutionResultWithOutput(p2.displayName, out2, ""),
                                           NewExecutionResultWithOutput(p1.displayName, out1, "")])) ==
      JoinLines([Header,
                 "---", p1.displayName + " | color=green", "---", out1,
                 "---", p3.displayName + " | color=green", "---", out3,
                 "---", p2.displayName + " | color=green", "---", out2])
  {
    ThreePluginRender(p1, p2, p3, out1, out2, out3);
    var lines1 := ["---", p1.displayName + " | color=green", "---", out1];
    var lines3 := ["---", p3.displayName + " | color=green", "---", out3];
    var lines2 := ["---", p2.displayName + " | color=green", "---", out2];
    JoinGroups(Header, lines1, lines3, lines2);
    assert [Header] + lines1 + lines3 + lines2 == [Header,
      "---", p1.displayName + " | color=green", "---", out1,
      "---", p3.displayName + " | color=green", "---", out3,
      "---", p2.displayName + " | color=green", "---", out2];
  }

  /** The configuration [1, 3, 2] of the formatter's test. */
  function FixturePlugins(): seq<PluginConfig>
  {
    [PluginConfig("Plugin 1", "bash", ["-c", "echo -n 'plugin-1'"], false),
     PluginConfig("Plugin 3", "bash", ["-c", "echo -n 'plugin-3'"], false),
     PluginConfig("Plugin 2", "bash", ["-c", "echo -n 'plugin-2'"], false)]
  }

  /** The test's results, given in the order [3, 2, 1]. */
  function FixtureResults(): seq<ExecutionResult>
  {
    [NewExecutionResultWithOutput("Plugin 3", "plugin-3", ""),
     NewExecutionResultWithOutput("Plugin 2", "plugin-2", ""),
     NewExecutionResultWithOutput("Plugin 1", "plugin-1", "")]
  }

  lemma FixtureTitles()
    ensures "Plugin 1" != "Plugin 2" && "Plugin 1" != "Plugin 3" && "Plugin 2" != "Plugin 3"
    ensures "Plugin 1" + " | color=green" == "Plugin 1 | color=green"
    ensures "Plugin 3" + " | color=green" == "Plugin 3 | color=green"
    ensures "Plugin 2" + " | color=green" == "Plugin 2 | color=green"
  {
    assert "Plugin 1"[7] != "Plugin 2"[7] && "Plugin 1"[7] != "Plugin 3"[7] && "Plugin 2"[7] != "Plugin 3"[7];
  }

  /** The formatter's test: joined with newlines, the report is exactly the expected text. */
  lemma FormatFixture()
    ensures AllMatched(FixturePlugins(), FixtureResults())
    ensures JoinLines(Render(FixturePlugins(), FixtureResults())) == JoinLines([
      "Bit | color=orange",
      "---", "Plugin 1 | color=green", "---", "plugin-1",
      "---", "Plugin 3 | color=green", "---", "plugin-3",
      "---", "Plugin 2 | color=green", "---", "plugin-2"])
  {
    FixtureTitles();
    var plugins := FixturePlugins();
    ThreePluginReport(plugins[0], plugins[2], plugins[1], "plugin-1", "plugin-2", "plugin-3");
  }
}
