/**
 * Where the shader sources live: the fixed logical names of each stage and
 * the paths they resolve to, from an INI file or from built-in defaults.
 */
module ShaderConfig {
  import opened Wrappers

  /** The vertex shader names, in the order the loader lists them. */
  const VertexNames: seq<string> := ["normal", "wave", "breathing"]

  /** The fragment shader names, in the order the loader lists them. */
  const FragmentNames: seq<string> := ["normal", "pulse", "rainbow"]

  const VertexNameSet: set<string> := set n | n in VertexNames
  const FragmentNameSet: set<string> := set n | n in FragmentNames

  /** The paths used when the INI file cannot be loaded. */
  const DefaultVertexPaths: map<string, string> := map[
    "normal" := "shaders/vertex/normal.vert",
    "wave" := "shaders/vertex/wave.vert",
    "breathing" := "shaders/vertex/breathing.vert"]

  const DefaultFragmentPaths: map<string, string> := map[
    "normal" := "shaders/fragment/normal.frag",
    "pulse" := "shaders/fragment/pulse.frag",
    "rainbow" := "shaders/fragment/rainbow.frag"]

  /** A loaded INI file: the value stored under each (section, key). */
  type Ini = map<(string, string), string>

  /** SimpleIni's GetValue with "" as the default for a missing key. */
  function GetValue(ini: Ini, section: string, key: string): (value: string)
    ensures (section, key) in ini ==> value == ini[(section, key)]
    ensures (section, key) !in ini ==> value == ""
  {
    if (section, key) in ini then ini[(section, key)] else ""
  }

  /**
   * The paths the INI loader writes for `names`, one after the other: the
   * directory stored under `dirKey` in section ShaderPaths, a slash, and the
   * file name stored under the shader's name in `section`. A path is
   * written for exactly the listed names.
   */
  function IniPaths(ini: Ini, dirKey: string, section: string, names: seq<string>): (m: map<string, string>)
    ensures m.Keys == set n | n in names
    ensures forall n :: n in names ==>
              m[n] == GetValue(ini, "ShaderPaths", dirKey) + "/" + GetValue(ini, section, n)
  {
    if names == [] then map[]
    else
      var init := names[..|names| - 1];
      var last := names[|names| - 1];
      assert (set n | n in names) == (set n | n in init) + {last} by {
        assert forall n :: n in names ==> n in init || n == last;
      }
      IniPaths(ini, dirKey, section, init)[last := GetValue(ini, "ShaderPaths", dirKey) + "/" + GetValue(ini, section, last)]
  }

  /** The vertex paths that initialisation adds: from the INI file if it loaded, else the defaults. */
  function VertexPathsFor(config: Option<Ini>): (m: map<string, string>)
    ensures m.Keys == VertexNameSet
  {
    match config
    case None => DefaultVertexPaths
    case Some(ini) => IniPaths(ini, "vertex_shaders_dir", "VertexShaders", VertexNames)
  }

  /** The fragment paths that initialisation adds: from the INI file if it loaded, else the defaults. */
  function FragmentPathsFor(config: Option<Ini>): (m: map<string, string>)
    ensures m.Keys == FragmentNameSet
  {
    match config
    case None => DefaultFragmentPaths
    case Some(ini) => IniPaths(ini, "fragment_shaders_dir", "FragmentShaders", FragmentNames)
  }
}
