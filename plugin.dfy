/**
 * The plugin manager: a shared, growable list of plugin wrappers, the two
 * plugins the bot registers, and the start-up pass that loads every
 * registered plugin and spawns its run loop.
 */
module Plugin {
  import opened PluginType

  /** The list behind `Arc<RwLock<Vec<..>>>`, shared with the help plugin. */
  class PluginList {
    var entries: seq<PluginWrapper>

    constructor ()
      ensures entries == []
    {
      entries := [];
    }
  }

  /** The help plugin's wrapper as `run` registers it. */
  function HelpWrapper(): (w: PluginWrapper)
    ensures w.inner == Help && w.name == "GetHelpList" && w.description == "/help"
    ensures w.version == "0.0.0" && w.author == "None"
  {
    WithDescription(WithName(New(Help), "GetHelpList"), "/help")
  }

  /** The chat plugin's wrapper as `run` registers it, around the configured token. */
  function AiChatWrapper(token: string): (w: PluginWrapper)
    ensures w.inner == AiChat(token) && w.name == "Ai Chat In QQ" && w.description == "Any Triggle"
    ensures w.version == "0.0.0" && w.author == "None"
  {
    WithDescription(WithName(New(AiChat(token)), "Ai Chat In QQ"), "Any Triggle")
  }

  class PluginManager {
    const plugins: PluginList

    /** `PluginManager::new`: an empty plugin list. */
    constructor ()
      ensures fresh(plugins) && plugins.entries == []
    {
      plugins := new PluginList();
    }

    /** `add_plugin`: appends, keeping registration order. */
    method AddPlugin(w: PluginWrapper)
      modifies plugins
      ensures plugins.entries == old(plugins.entries) + [w]
    {
      plugins.entries := plugins.entries + [w];
    }

    /**
     * `handle_plugin`: over a snapshot of the list, in order, each plugin's
     * `on_load` is awaited (`loaded` names them) and then its run loop is
     * spawned (`spawned`). The run loop starts with `on_load` again, so every
     * plugin is loaded twice.
     */
    method HandlePlugin() returns (loaded: seq<string>, spawned: seq<PluginWrapper>)
      ensures spawned == plugins.entries
      ensures |loaded| == |spawned| && forall i :: 0 <= i < |loaded| ==> loaded[i] == spawned[i].name
    {
      var snapshot := plugins.entries;
      loaded, spawned := [], [];
      for i := 0 to |snapshot|
        invariant spawned == snapshot[..i]
        invariant |loaded| == i && forall j :: 0 <= j < i ==> loaded[j] == snapshot[j].name
      {
        loaded := loaded + [snapshot[i].name];
        spawned := spawned + [snapshot[i]];
      }
    }

    /**
     * `run`: registers the help plugin, then the chat plugin with the
     * configured token, then starts them all.
     */
    method Run(token: string) returns (spawned: seq<PluginWrapper>)
      modifies plugins
      ensures plugins.entries == old(plugins.entries) + [HelpWrapper(), AiChatWrapper(token)]
      ensures spawned == plugins.entries
    {
      AddPlugin(HelpWrapper());
      AddPlugin(AiChatWrapper(token));
      var _, s := HandlePlugin();
      spawned := s;
    }
  }
}
