/**
 * The shader program registry: the path maps, the map from composite key to
 * program, the current program (0 for none) and the GL calls made so far.
 */
module ShaderRegistry {
  import opened Wrappers
  import opened Gl
  import opened ShaderConfig
  import opened ShaderPrograms

  /** The argument of one of the setUniform overloads. */
  datatype UniformValue =
    | Mat4Value(matrix: Mat4)
    | Vec3Value(vector: Vec3)
    | FloatValue(x: real)
    | IntValue(n: int)
    | BoolValue(b: bool)

  /** The GL call each setUniform overload makes at a location; a bool is written as 1 or 0. */
  function UploadCall(location: int, value: UniformValue): (c: Call)
    ensures c.UniformMatrix4fv? || c.Uniform3fv? || c.Uniform1f? || c.Uniform1i?
    ensures c.location == location
    ensures value.Mat4Value? ==> c == UniformMatrix4fv(location, value.matrix)
    ensures value.Vec3Value? ==> c == Uniform3fv(location, value.vector)
    ensures value.FloatValue? ==> c == Uniform1f(location, value.x)
    ensures value.IntValue? ==> c == Uniform1i(location, value.n)
    ensures value.BoolValue? ==> c == Uniform1i(location, if value.b then 1 else 0)
  {
    match value
    case Mat4Value(m) => UniformMatrix4fv(location, m)
    case Vec3Value(v) => Uniform3fv(location, v)
    case FloatValue(x) => Uniform1f(location, x)
    case IntValue(n) => Uniform1i(location, n)
    case BoolValue(b) => Uniform1i(location, if b then 1 else 0)
  }

  /** The value as GL receives it: a bool becomes the int 1 or 0, anything else is passed as it is. */
  function AsSent(value: UniformValue): UniformValue {
    if value.BoolValue? then IntValue(if value.b then 1 else 0) else value
  }

  /**
   * Two uploads make the same GL call exactly when they write to the same
   * location and GL receives the same value: no two overloads collide, except
   * that a bool and the int 1 or 0 are written alike.
   */
  lemma UploadCallsAgree(location: int, value: UniformValue, location': int, value': UniformValue)
    ensures UploadCall(location, value) == UploadCall(location', value')
        <==> location == location' && AsSent(value) == AsSent(value')
  {
  }

  /** Updating a union updates its right operand. */
  lemma UpdateUnion(a: map<string, string>, b: map<string, string>, k: string, v: string)
    ensures (a + b)[k := v] == a + b[k := v]
  {
  }

  /** The paths for the first i + 1 names are those for the first i and the path of name i. */
  lemma IniPathsSnoc(ini: Ini, dirKey: string, section: string, names: seq<string>, i: nat)
    requires i < |names|
    ensures IniPaths(ini, dirKey, section, names[..i + 1])
         == IniPaths(ini, dirKey, section, names[..i])[names[i] := GetValue(ini, "ShaderPaths", dirKey) + "/" + GetValue(ini, section, names[i])]
  {
    assert names[..i + 1][..i] == names[..i];
  }

  /** The loader's next write extends the paths written so far by one. */
  lemma IniPathsNext(before: map<string, string>, paths: map<string, string>,
                     ini: Ini, dirKey: string, section: string, names: seq<string>, i: nat)
    requires i < |names|
    requires paths == before + IniPaths(ini, dirKey, section, names[..i])
    ensures paths[names[i] := GetValue(ini, "ShaderPaths", dirKey) + "/" + GetValue(ini, section, names[i])]
         == before + IniPaths(ini, dirKey, section, names[..i + 1])
  {
    IniPathsSnoc(ini, dirKey, section, names, i);
    UpdateUnion(before, IniPaths(ini, dirKey, section, names[..i]), names[i],
                GetValue(ini, "ShaderPaths", dirKey) + "/" + GetValue(ini, section, names[i]));
  }

  /**
   * One loop of loadShaderPathsFromIni: writes into `paths`, name by name,
   * the directory stored under `dirKey`, a slash and the file stored under
   * the name in `section`.
   */
  method WritePaths(paths: map<string, string>, ini: Ini, dirKey: string, section: string, names: seq<string>)
    returns (result: map<string, string>)
    ensures result == paths + IniPaths(ini, dirKey, section, names)
  {
    var dir := GetValue(ini, "ShaderPaths", dirKey);
    result := paths;
    var i := 0;
    while i < |names|
      invariant 0 <= i <= |names|
      invariant result == paths + IniPaths(ini, dirKey, section, names[..i])
    {
      var path := dir + "/" + GetValue(ini, section, names[i]);
      IniPathsNext(paths, result, ini, dirKey, section, names, i);
      result := result[names[i] := path];
      i := i + 1;
    }
    assert names[..i] == names;
  }

  /** The pairs still to build at the start of outer iteration `i`: the row of entry `i`, then the later rows. */
  lemma NextRow(vs: seq<Entry>, fs: seq<Entry>, i: nat)
    requires i < |vs|
    ensures Pairs(vs[i..], fs) == Row(vs[i], fs) + Pairs(vs[i + 1..], fs)
  {
    assert vs[i..][1..] == vs[i + 1..];
  }

  /** Building the pairs left in a row starts with one step for its next pair. */
  lemma NextPair(d: Driver, s: BuildState, v: Entry, fs: seq<Entry>, j: nat, later: seq<(Entry, Entry)>)
    requires j < |fs| && s.failed.None?
    ensures BuildAll(d, s, Row(v, fs[j..]) + later)
         == BuildAll(d, Step(d, s, (v, fs[j])), Row(v, fs[j + 1..]) + later)
  {
    var rest := Row(v, fs[j + 1..]) + later;
    assert fs[j..][1..] == fs[j + 1..];
    assert Row(v, fs[j..]) + later == [(v, fs[j])] + rest;
    assert ([(v, fs[j])] + rest)[1..] == rest;
  }

  /** Once a row is exhausted only the later rows are left. */
  lemma RowDone(v: Entry, fs: seq<Entry>, later: seq<(Entry, Entry)>)
    ensures Row(v, fs[|fs|..]) + later == later
  {
    assert fs[|fs|..] == [];
  }

  class Shader {
    /** The GL driver and file system the registry works against. */
    const driver: Driver

    var currentProgram: Handle
    var shaderPrograms: map<string, Handle>
    var vertexShaderPaths: map<string, string>
    var fragmentShaderPaths: map<string, string>
    /** Every GL call that bound, deleted or wrote into an object, oldest first. */
    var calls: seq<Call>

    /** The path maps hold only the fixed names, and every registry key is a vertex name, "_" and a fragment name. */
    ghost predicate Valid()
      reads this
    {
      && vertexShaderPaths.Keys <= VertexNameSet
      && fragmentShaderPaths.Keys <= FragmentNameSet
      && shaderPrograms.Keys <= GridKeys
    }

    constructor (driver: Driver)
      ensures Valid()
      ensures this.driver == driver
      ensures currentProgram == 0 && shaderPrograms == map[] && calls == []
      ensures vertexShaderPaths == map[] && fragmentShaderPaths == map[]
    {
      this.driver := driver;
      currentProgram := 0;
      shaderPrograms := map[];
      vertexShaderPaths := map[];
      fragmentShaderPaths := map[];
      calls := [];
    }

    /**
     * Loads the shader paths from a configuration file; `config` is None when
     * the file cannot be loaded, and then nothing changes.
     */
    method LoadShaderPathsFromIni(config: Option<Ini>) returns (loaded: bool)
      modifies this`vertexShaderPaths, this`fragmentShaderPaths
      ensures loaded == config.Some?
      ensures !loaded ==> vertexShaderPaths == old(vertexShaderPaths) && fragmentShaderPaths == old(fragmentShaderPaths)
      ensures loaded ==> vertexShaderPaths == old(vertexShaderPaths) + VertexPathsFor(config)
      ensures loaded ==> fragmentShaderPaths == old(fragmentShaderPaths) + FragmentPathsFor(config)
    {
      if config.None? {
        return false;
      }
      var ini := config.value;
      vertexShaderPaths := WritePaths(vertexShaderPaths, ini, "vertex_shaders_dir", "VertexShaders", VertexNames);
      fragmentShaderPaths := WritePaths(fragmentShaderPaths, ini, "fragment_shaders_dir", "FragmentShaders", FragmentNames);
      return true;
    }

    /** The paths initialisation falls back to when the INI file cannot be loaded. */
    method SetDefaultPaths()
      modifies this`vertexShaderPaths, this`fragmentShaderPaths
      ensures vertexShaderPaths == old(vertexShaderPaths) + VertexPathsFor(None)
      ensures fragmentShaderPaths == old(fragmentShaderPaths) + FragmentPathsFor(None)
    {
      vertexShaderPaths := vertexShaderPaths + DefaultVertexPaths;
      fragmentShaderPaths := fragmentShaderPaths + DefaultFragmentPaths;
    }

    /**
     * The inner build loop of initialisation for the vertex shader entry
     * `vEntry`: a program for each fragment shader entry of `fEntries`,
     * stored under its key, stopping at the first program that is 0, whose
     * key is returned. The result is the fold over this row followed by the
     * `later` rows.
     */
    method BuildRow(vEntry: Entry, fEntries: seq<Entry>, ghost later: seq<(Entry, Entry)>) returns (failed: Option<string>)
      modifies this`shaderPrograms, this`calls
      ensures var whole := BuildAll(driver, BuildState(old(shaderPrograms), old(calls), None), Row(vEntry, fEntries) + later);
              if failed.Some? then whole == BuildState(shaderPrograms, calls, failed)
              else whole == BuildAll(driver, BuildState(shaderPrograms, calls, None), later)
    {
      ghost var whole := BuildAll(driver, BuildState(shaderPrograms, calls, None), Row(vEntry, fEntries) + later);
      assert fEntries[0..] == fEntries;
      var j := 0;
      while j < |fEntries|
        invariant 0 <= j <= |fEntries|
        invariant whole == BuildAll(driver, BuildState(shaderPrograms, calls, None), Row(vEntry, fEntries[j..]) + later)
      {
        var fEntry := fEntries[j];
        NextPair(driver, BuildState(shaderPrograms, calls, None), vEntry, fEntries, j, later);
        var name := vEntry.0 + "_" + fEntry.0;
        var created := CreateShader(driver, vEntry.1, fEntry.1);
        shaderPrograms := shaderPrograms[name := created.program];
        calls := calls + created.calls;
        if shaderPrograms[name] == 0 {
          return Some(name);
        }
        j := j + 1;
      }
      RowDone(vEntry, fEntries, later);
      return None;
    }

    /**
     * The build loops of initialisation: a program for every pair of
     * `vEntries` x `fEntries` (the path maps in their iteration order),
     * stored under its key, stopping at the first program that is 0, whose
     * key is returned. The registry and the result are those of the source's
     * loops; the calls are theirs followed by the release of the failing
     * pair's two stages.
     */
    method BuildPrograms(vEntries: seq<Entry>, fEntries: seq<Entry>) returns (failed: Option<string>)
      modifies this`shaderPrograms, this`calls
      ensures BuildState(shaderPrograms, calls, failed)
           == BuildAll(driver, BuildState(old(shaderPrograms), old(calls), None), Pairs(vEntries, fEntries))
      ensures var w := BuildAllAsWritten(driver, BuildState(old(shaderPrograms), old(calls), None), Pairs(vEntries, fEntries));
              && shaderPrograms == w.programs && failed == w.failed
              && calls == w.calls + LeakedStages(driver, Pairs(vEntries, fEntries))
    {
      AsWrittenBuildDiffers(driver, BuildState(shaderPrograms, calls, None), Pairs(vEntries, fEntries));
      ghost var final := BuildAll(driver, BuildState(shaderPrograms, calls, None), Pairs(vEntries, fEntries));
      assert vEntries[0..] == vEntries;
      var i := 0;
      while i < |vEntries|
        invariant 0 <= i <= |vEntries|
        invariant final == BuildAll(driver, BuildState(shaderPrograms, calls, None), Pairs(vEntries[i..], fEntries))
      {
        ghost var later := Pairs(vEntries[i + 1..], fEntries);
        NextRow(vEntries, fEntries, i);
        failed := BuildRow(vEntries[i], fEntries, later);
        if failed.Some? {
          return;
        }
        i := i + 1;
      }
      assert vEntries[i..] == [];
      return None;
    }

    /** The first step of initialisation: the paths from the INI file, or the defaults when it cannot be loaded. */
    method ResolvePaths(config: Option<Ini>)
      modifies this`vertexShaderPaths, this`fragmentShaderPaths
      ensures vertexShaderPaths == old(vertexShaderPaths) + VertexPathsFor(config)
      ensures fragmentShaderPaths == old(fragmentShaderPaths) + FragmentPathsFor(config)
      ensures vertexShaderPaths.Keys == old(vertexShaderPaths).Keys + VertexNameSet
      ensures fragmentShaderPaths.Keys == old(fragmentShaderPaths).Keys + FragmentNameSet
      ensures old(Valid()) ==> Valid()
    {
      var loaded := LoadShaderPathsFromIni(config);
      if !loaded {
        SetDefaultPaths();
      }
    }

    /**
     * The rest of initialisation: builds a program for every (vertex,
     * fragment) entry pair, the path maps visiting their names in the order
     * `vOrder` and `fOrder`, stopping at the first program that is 0; when
     * every program links, "normal_normal" becomes current.
     */
    method BuildRegistry(vOrder: seq<string>, fOrder: seq<string>)
      requires GridOrders(vertexShaderPaths, fragmentShaderPaths, vOrder, fOrder)
      requires Valid()
      modifies this`shaderPrograms, this`calls, this`currentProgram
      ensures Valid()
      ensures Initialised(driver, Grid(vertexShaderPaths, fragmentShaderPaths, vOrder, fOrder),
                          old(shaderPrograms), old(calls), old(currentProgram), shaderPrograms, calls, currentProgram)
    {
      ghost var start := BuildState(shaderPrograms, calls, None);
      ghost var grid := Grid(vertexShaderPaths, fragmentShaderPaths, vOrder, fOrder);
      GridBuildKeys(driver, vertexShaderPaths, fragmentShaderPaths, start, vOrder, fOrder);
      OrdersWithin(vertexShaderPaths, fragmentShaderPaths, vOrder, fOrder);
      var vEntries := Entries(vOrder, vertexShaderPaths);
      var fEntries := Entries(fOrder, fragmentShaderPaths);
      assert grid == Pairs(vEntries, fEntries);
      var failed := BuildPrograms(vEntries, fEntries);
      assert BuildState(shaderPrograms, calls, failed) == BuildAll(driver, start, grid);
      if failed.None? {
        currentProgram := shaderPrograms[DefaultProgram];
      }
    }

    /**
     * Resolves the paths, then builds a program for every (vertex, fragment)
     * entry pair, the path maps visiting their names in the order `vOrder`
     * and `fOrder`, stopping at the first program that is 0. When every
     * program links, the "normal_normal" program becomes current.
     */
    method Init(config: Option<Ini>, vOrder: seq<string>, fOrder: seq<string>)
      requires Valid()
      requires Enumerates(vOrder, VertexNameSet) && Enumerates(fOrder, FragmentNameSet)
      modifies this
      ensures Valid()
      ensures vertexShaderPaths == old(vertexShaderPaths) + VertexPathsFor(config)
      ensures fragmentShaderPaths == old(fragmentShaderPaths) + FragmentPathsFor(config)
      ensures Initialised(driver, Grid(vertexShaderPaths, fragmentShaderPaths, vOrder, fOrder),
                          old(shaderPrograms), old(calls), old(currentProgram), shaderPrograms, calls, currentProgram)
    {
      ResolvePaths(config);
      BuildRegistry(vOrder, fOrder);
    }

    /** Deletes every program (one per registry entry, in the map's order `order`), empties the registry and clears the current program. */
    method Cleanup(order: seq<string>)
      requires Enumerates(order, shaderPrograms.Keys)
      modifies this`shaderPrograms, this`currentProgram, this`calls
      ensures old(Valid()) ==> Valid()
      ensures shaderPrograms == map[] && currentProgram == 0
      ensures calls == old(calls) + DeleteAll(old(shaderPrograms), order)
      ensures old(shaderPrograms) == map[] ==> calls == old(calls)
    {
      assert shaderPrograms == map[] ==> order == [] by {
        if order != [] {
          assert order[0] in order;
        }
      }
      var i := 0;
      while i < |order|
        invariant 0 <= i <= |order|
        invariant shaderPrograms == old(shaderPrograms)
        invariant calls == old(calls) + DeleteAll(shaderPrograms, order[..i])
      {
        DeleteAllNext(shaderPrograms, order, i);
        calls := calls + [DeleteProgram(shaderPrograms[order[i]])];
        i := i + 1;
      }
      assert order[..i] == order;
      shaderPrograms := map[];
      currentProgram := 0;
    }

    /** Binds the current program, unless there is none. */
    method Use()
      modifies this`calls
      ensures currentProgram == 0 ==> calls == old(calls)
      ensures currentProgram != 0 ==> calls == old(calls) + [UseProgram(currentProgram)]
    {
      if currentProgram != 0 {
        calls := calls + [UseProgram(currentProgram)];
      }
    }

    /**
     * Writes a uniform of the current program; nothing is written when there
     * is no current program or the program has no such uniform.
     */
    method SetUniform(name: string, value: UniformValue)
      modifies this`calls
      ensures currentProgram == 0 || driver.uniformLocation(currentProgram, name) == -1 ==> calls == old(calls)
      ensures currentProgram != 0 && driver.uniformLocation(currentProgram, name) != -1 ==>
                calls == old(calls) + [UploadCall(driver.uniformLocation(currentProgram, name), value)]
    {
      if currentProgram != 0 {
        var location := driver.uniformLocation(currentProgram, name);
        if location != -1 {
          calls := calls + [UploadCall(location, value)];
        }
      }
    }

    /**
     * Makes the program stored under `name` current and binds it; an unknown
     * name changes nothing.
     */
    method SetCurrentProgram(name: string)
      modifies this`currentProgram, this`calls
      ensures name !in shaderPrograms ==> currentProgram == old(currentProgram) && calls == old(calls)
      ensures name in shaderPrograms ==> currentProgram == shaderPrograms[name]
      ensures name in shaderPrograms && shaderPrograms[name] != 0 ==> calls == old(calls) + [UseProgram(shaderPrograms[name])]
      ensures name in shaderPrograms && shaderPrograms[name] == 0 ==> calls == old(calls)
    {
      if name in shaderPrograms {
        currentProgram := shaderPrograms[name];
        Use();
      }
    }

    /**
     * Selects the program of the vertex shader at index `vertexIndex` and the
     * fragment shader at index `fragmentIndex`, an index outside 0..2 standing
     * for 0.
     */
    method UseShaderProgram(vertexIndex: int, fragmentIndex: int)
      modifies this`currentProgram, this`calls
      ensures var name := VertexNames[Fallback(vertexIndex)] + "_" + FragmentNames[Fallback(fragmentIndex)];
              && name == ProgramName(vertexIndex, fragmentIndex)
              && (name !in shaderPrograms ==> currentProgram == old(currentProgram) && calls == old(calls))
              && (name in shaderPrograms ==> currentProgram == shaderPrograms[name])
              && (name in shaderPrograms && shaderPrograms[name] != 0 ==> calls == old(calls) + [UseProgram(shaderPrograms[name])])
              && (name in shaderPrograms && shaderPrograms[name] == 0 ==> calls == old(calls))
    {
      var vertexKey := VertexKey(vertexIndex);
      var fragmentKey := FragmentKey(fragmentIndex);
      var programName := vertexKey + "_" + fragmentKey;
      SetCurrentProgram(programName);
    }
  }
}
