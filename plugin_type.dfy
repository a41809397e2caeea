/**
 * The plugin wrapper: a plugin together with its name, description,
 * version and author, built by value, and the life cycle it drives.
 */
module PluginType {

  /** The plugins the bot ships, and any other plugin by a tag of its own. */
  datatype Plugin = Help | AiChat(token: string) | Custom(tag: string)

  datatype PluginWrapper = PluginWrapper(
    name: string, description: string, version: string, author: string, inner: Plugin)

  /** The hooks a plugin offers. */
  datatype Hook = OnLoad | OnUpdate | OnUnload

  /** `PluginWrapper::new`: placeholder metadata around the plugin. */
  function New(inner: Plugin): (w: PluginWrapper)
    ensures w.name == "None" && w.description == "None"
    ensures w.version == "0.0.0" && w.author == "None"
    ensures w.inner == inner
  {
    PluginWrapper("None", "None", "0.0.0", "None", inner)
  }

  function WithName(w: PluginWrapper, name: string): (r: PluginWrapper)
    ensures r.name == name && r.inner == w.inner
    ensures r.description == w.description && r.version == w.version && r.author == w.author
  {
    w.(name := name)
  }

  function WithDescription(w: PluginWrapper, description: string): (r: PluginWrapper)
    ensures r.description == description && r.inner == w.inner
    ensures r.name == w.name && r.version == w.version && r.author == w.author
  {
    w.(description := description)
  }

  function WithVersion(w: PluginWrapper, version: string): (r: PluginWrapper)
    ensures r.version == version && r.inner == w.inner
    ensures r.name == w.name && r.description == w.description && r.author == w.author
  {
    w.(version := version)
  }

  function WithAuthor(w: PluginWrapper, author: string): (r: PluginWrapper)
    ensures r.author == author && r.inner == w.inner
    ensures r.name == w.name && r.description == w.description && r.version == w.version
  {
    w.(author := author)
  }

  /**
   * `get_info_str`: the name in brackets after "->", a newline, then the
   * description after "-->"; name and description can be read back from
   * their positions.
   */
  function GetInfoStr(w: PluginWrapper): (s: string)
    ensures |s| == |w.name| + |w.description| + 8
    ensures s[..3] == "->[" && s[3..3 + |w.name|] == w.name
    ensures s[3 + |w.name|..8 + |w.name|] == "]\n-->"
    ensures s[8 + |w.name|..] == w.description
  {
    "->[" + w.name + "]\n-->" + w.description
  }

  /** Version and author never show in the info string; name and description always do. */
  lemma InfoIgnoresVersionAndAuthor(w: PluginWrapper, version: string, author: string)
    ensures GetInfoStr(WithAuthor(WithVersion(w, version), author)) == GetInfoStr(w)
  {
  }

  /** Two wrappers with the same info string and name length agree on name and description. */
  lemma GetInfoStrDetermines(a: PluginWrapper, b: PluginWrapper)
    requires GetInfoStr(a) == GetInfoStr(b) && |a.name| == |b.name|
    ensures a.name == b.name && a.description == b.description
  {
    var s := GetInfoStr(a);
    assert a.name == s[3..3 + |a.name|];
    assert a.description == s[8 + |a.name|..];
  }

  /**
   * `run` for a given number of rounds: the plugin's `on_load`, then
   * `on_update` again and again. The loop never ends, so `on_unload` is
   * never reached.
   */
  method Run(w: PluginWrapper, rounds: nat) returns (trace: seq<Hook>)
    ensures |trace| == rounds + 1 && trace[0] == OnLoad
    ensures forall i :: 1 <= i < |trace| ==> trace[i] == OnUpdate
    ensures OnUnload !in trace
  {
    trace := [OnLoad];
    var i := 0;
    while i < rounds
      invariant i <= rounds
      invariant |trace| == i + 1 && trace[0] == OnLoad
      invariant forall j :: 1 <= j < |trace| ==> trace[j] == OnUpdate
    {
      trace := trace + [OnUpdate];
      i := i + 1;
    }
  }
}
