/**
 * The earlier plugin manager. Its list, `new`, `add_plugin` and
 * `handle_plugin` are the same as the current manager's, and its help
 * plugin is the same as the current help plugin; only its `run` differs.
 */
module LegacyPlugin {
  import opened Plugin
  import opened PluginType

  /** `run` of the earlier manager: only the help plugin is registered before start-up. */
  method Run(m: PluginManager) returns (spawned: seq<PluginWrapper>)
    modifies m.plugins
    ensures m.plugins.entries == old(m.plugins.entries) + [HelpWrapper()]
    ensures spawned == m.plugins.entries
  {
    m.AddPlugin(HelpWrapper());
    var _, s := m.HandlePlugin();
    spawned := s;
  }
}
