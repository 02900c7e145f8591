/** The plugin list as loaded from the configuration file (src/config.rs). */
module Config {
  import opened Sequences

  datatype PluginConfig = PluginConfig(
    displayName: string,
    command: string,
    args: seq<string>,
    showInSubMenu: bool)

  datatype Config = Config(plugins: seq<PluginConfig>)

  /** The display names of `plugins`, in configuration order. */
  function DisplayNames(plugins: seq<PluginConfig>): (names: seq<string>)
    ensures |names| == |plugins|
    ensures forall i :: 0 <= i < |plugins| ==> names[i] == plugins[i].displayName
  {
    Map((p: PluginConfig) => p.displayName, plugins)
  }
}
