/**
 * Building shader programs: createShader over the driver oracle, the
 * composite registry key, the cross product that initialisation walks, and
 * the index-to-name mapping the UI uses to select a program.
 */
module ShaderPrograms {
  import opened Wrappers
  import opened Gl
  import opened ShaderConfig

  // ---------------------------------------------------------------------
  // Composite keys
  // ---------------------------------------------------------------------

  /** The registry key of the program linking vertex shader `v` with fragment shader `f`. */
  function Key(v: string, f: string): string {
    v + "_" + f
  }

  /** Every key a vertex name and a fragment name can form. */
  const GridKeys: set<string> := set v, f | v in VertexNameSet && f in FragmentNameSet :: Key(v, f)

  /** The index of the first underscore in `s`, or |s| when there is none. */
  function UnderscoreIndex(s: string): (n: nat)
    ensures n <= |s|
    ensures forall i :: 0 <= i < n ==> s[i] != '_'
    ensures n < |s| ==> s[n] == '_'
  {
    if s == [] then 0 else if s[0] == '_' then 0 else 1 + UnderscoreIndex(s[1..])
  }

  /** Splits a key at its first underscore into a vertex and a fragment name. */
  function SplitKey(key: string): (string, string) {
    var n := UnderscoreIndex(key);
    if n < |key| then (key[..n], key[n + 1..]) else (key, "")
  }

  /** A key splits back into the names it was made of when the vertex name has no underscore. */
  lemma KeyRoundTrip(v: string, f: string)
    requires '_' !in v
    ensures SplitKey(Key(v, f)) == (v, f)
  {
    var k := Key(v, f);
    assert k[|v|] == '_';
    assert forall i :: 0 <= i < |v| ==> k[i] == v[i];
    assert k[..|v|] == v;
    assert k[|v| + 1..] == f;
  }

  lemma NamesHaveNoUnderscore()
    ensures forall v :: v in VertexNameSet ==> '_' !in v
    ensures forall f :: f in FragmentNameSet ==> '_' !in f
  {
  }

  // ---------------------------------------------------------------------
  // createShader
  // ---------------------------------------------------------------------

  /** What createShader returns, with the GL calls it makes that release objects. */
  datatype Created = Created(program: Handle, calls: seq<Call>)

  function VertexObject(d: Driver, path: string): Handle {
    d.compile(VertexStage, d.readSource(path))
  }

  function FragmentObject(d: Driver, path: string): Handle {
    d.compile(FragmentStage, d.readSource(path))
  }

  /** Whether the program built from the two stage files links. */
  predicate Links(d: Driver, vertexPath: string, fragmentPath: string) {
    d.linkStatus(VertexObject(d, vertexPath), FragmentObject(d, fragmentPath))
  }

  /** Every stage object that compiled is deleted by `calls`. */
  predicate StagesReleased(d: Driver, vertexPath: string, fragmentPath: string, calls: seq<Call>) {
    && (VertexObject(d, vertexPath) != 0 ==> DeleteShader(VertexObject(d, vertexPath)) in calls)
    && (FragmentObject(d, fragmentPath) != 0 ==> DeleteShader(FragmentObject(d, fragmentPath)) in calls)
  }

  /**
   * createShader as the source has it: the compile results are not checked,
   * and when linking fails only the program is deleted.
   */
  function CreateShaderAsWritten(d: Driver, vertexPath: string, fragmentPath: string): (r: Created)
    ensures r.program == 0 <==> !Links(d, vertexPath, fragmentPath)
    ensures r.program != 0 ==> r.program == d.createProgram(VertexObject(d, vertexPath), FragmentObject(d, fragmentPath))
    ensures r.program != 0 ==> StagesReleased(d, vertexPath, fragmentPath, r.calls)
  {
    var vertexShader := VertexObject(d, vertexPath);
    var fragmentShader := FragmentObject(d, fragmentPath);
    var program := d.createProgram(vertexShader, fragmentShader);
    if d.linkStatus(vertexShader, fragmentShader) then
      Created(program, [DeleteShader(vertexShader), DeleteShader(fragmentShader)])
    else
      Created(0, [DeleteProgram(program)])
  }

  /** When linking fails, createShader as written deletes no stage object at all. */
  lemma AsWrittenLeaksStages(d: Driver, vertexPath: string, fragmentPath: string)
    requires !Links(d, vertexPath, fragmentPath)
    requires VertexObject(d, vertexPath) != 0 || FragmentObject(d, fragmentPath) != 0
    ensures !StagesReleased(d, vertexPath, fragmentPath, CreateShaderAsWritten(d, vertexPath, fragmentPath).calls)
  {
    var r := CreateShaderAsWritten(d, vertexPath, fragmentPath);
    assert r.calls == [DeleteProgram(d.createProgram(VertexObject(d, vertexPath), FragmentObject(d, fragmentPath)))];
  }

  /**
   * createShader with the stage objects released on both paths; this is the
   * version initialisation uses.
   */
  function CreateShader(d: Driver, vertexPath: string, fragmentPath: string): (r: Created)
    ensures r.program == 0 <==> !Links(d, vertexPath, fragmentPath)
    ensures r.program != 0 ==> r.program == d.createProgram(VertexObject(d, vertexPath), FragmentObject(d, fragmentPath))
    ensures StagesReleased(d, vertexPath, fragmentPath, r.calls)
    ensures r.program == 0 ==> DeleteProgram(d.createProgram(VertexObject(d, vertexPath), FragmentObject(d, fragmentPath))) in r.calls
    ensures r.program != 0 ==> forall c :: c in r.calls ==> !c.DeleteProgram?
  {
    var vertexShader := VertexObject(d, vertexPath);
    var fragmentShader := FragmentObject(d, fragmentPath);
    var program := d.createProgram(vertexShader, fragmentShader);
    if d.linkStatus(vertexShader, fragmentShader) then
      Created(program, [DeleteShader(vertexShader), DeleteShader(fragmentShader)])
    else
      Created(0, [DeleteProgram(program), DeleteShader(vertexShader), DeleteShader(fragmentShader)])
  }

  // ---------------------------------------------------------------------
  // The cross product that initialisation builds
  // ---------------------------------------------------------------------

  /** A path map entry as the loops see it: a shader's name and its path. */
  type Entry = (string, string)

  /** Every key `order` visits is a key of `m`. */
  predicate Within(order: seq<string>, m: map<string, string>) {
    forall k :: k in order ==> k in m
  }

  /** The entries of `m`, in the order in which `order` visits its keys. */
  function Entries(order: seq<string>, m: map<string, string>): (r: seq<Entry>)
    requires Within(order, m)
    ensures |r| == |order|
    ensures forall i :: 0 <= i < |order| ==> r[i] == (order[i], m[order[i]])
  {
    if order == [] then [] else [(order[0], m[order[0]])] + Entries(order[1..], m)
  }

  /** An entry is listed exactly when its name is visited, and then its path is the map's. */
  lemma EntriesMembers(order: seq<string>, m: map<string, string>)
    requires Within(order, m)
    ensures forall e: Entry :: e in Entries(order, m) <==> e.0 in order && e.1 == m[e.0]
  {
    var r := Entries(order, m);
    forall e: Entry | e in r ensures e.0 in order && e.1 == m[e.0] {
      var i :| 0 <= i < |r| && r[i] == e;
      assert order[i] == e.0;
    }
    forall e: Entry | e.0 in order && e.1 == m[e.0] ensures e in r {
      var i :| 0 <= i < |order| && order[i] == e.0;
      assert r[i] == e;
    }
  }

  /** The pairs (v, f) for f in `fs`, in order: one pass of the inner loop. */
  function Row<T>(v: T, fs: seq<T>): seq<(T, T)> {
    if fs == [] then [] else [(v, fs[0])] + Row(v, fs[1..])
  }

  /** Every pair (v, f), v from `vs` in the outer loop and f from `fs` in the inner one. */
  function Pairs<T>(vs: seq<T>, fs: seq<T>): seq<(T, T)> {
    if vs == [] then [] else Row(vs[0], fs) + Pairs(vs[1..], fs)
  }

  /** One pass of the inner loop visits |fs| pairs: v with each f of `fs`. */
  lemma {:induction false} RowMembers<T(!new)>(v: T, fs: seq<T>)
    decreases |fs|
    ensures |Row(v, fs)| == |fs|
    ensures forall p :: p in Row(v, fs) <==> p.0 == v && p.1 in fs
  {
    if fs != [] {
      RowMembers(v, fs[1..]);
      assert forall f :: f in fs <==> f == fs[0] || f in fs[1..];
    }
  }

  /** The nested loops visit exactly the pairs (v, f) with v in `vs` and f in `fs`. */
  lemma {:induction false} PairsMembers<T(!new)>(vs: seq<T>, fs: seq<T>)
    decreases |vs|
    ensures forall p :: p in Pairs(vs, fs) <==> p.0 in vs && p.1 in fs
  {
    if vs != [] {
      RowMembers(vs[0], fs);
      PairsMembers(vs[1..], fs);
      assert forall v :: v in vs <==> v == vs[0] || v in vs[1..];
    }
  }

  /** No element of `s` occurs twice: the head is not in the tail, and so on down the tail. */
  predicate Distinct<T(==)>(s: seq<T>)
    decreases |s|
  {
    s == [] || (s[0] !in s[1..] && Distinct(s[1..]))
  }

  /** The nested loops visit |vs| x |fs| pairs. */
  lemma {:induction false} PairsLength<T(!new)>(vs: seq<T>, fs: seq<T>)
    ensures |Pairs(vs, fs)| == |vs| * |fs|
  {
    if vs != [] {
      PairsLength(vs[1..], fs);
      RowMembers(vs[0], fs);
      assert |vs| * |fs| == |fs| + (|vs| - 1) * |fs|;
    }
  }

  /** `order` visits every element of `keys` exactly once, as an unordered_map iteration does. */
  predicate Enumerates(order: seq<string>, keys: set<string>) {
    && Distinct(order)
    && (forall k :: k in order ==> k in keys)
    && (forall k :: k in keys ==> k in order)
  }

  /** The registry key of the program built from a vertex entry and a fragment entry. */
  function PairKey(p: (Entry, Entry)): string {
    Key(p.0.0, p.1.0)
  }

  function PairKeys(ps: seq<(Entry, Entry)>): set<string> {
    set p | p in ps :: PairKey(p)
  }

  lemma PairKeysCons(p: (Entry, Entry), ps: seq<(Entry, Entry)>)
    ensures PairKeys([p] + ps) == {PairKey(p)} + PairKeys(ps)
  {
    assert forall q :: q in [p] + ps <==> q == p || q in ps;
  }

  /** No two different pairs of `ps` share a key. */
  predicate KeyDetermines(ps: seq<(Entry, Entry)>) {
    forall p, q :: p in ps && q in ps && PairKey(p) == PairKey(q) ==> p == q
  }

  /** A prefix of a non-empty sequence is its head followed by a prefix of its tail. */
  lemma PrefixCons<T>(ps: seq<T>, k: nat)
    requires k < |ps|
    ensures ps[..k + 1] == [ps[0]] + ps[1..][..k]
  {
  }

  // ---------------------------------------------------------------------
  // The build loops as a fold
  // ---------------------------------------------------------------------

  /** The registry, the GL calls made so far, and the key whose program failed, if any. */
  datatype BuildState = BuildState(programs: map<string, Handle>, calls: seq<Call>, failed: Option<string>)

  /** The program createShader makes for a pair of entries. */
  function HandleOf(d: Driver, p: (Entry, Entry)): Handle {
    CreateShader(d, p.0.1, p.1.1).program
  }

  /** One iteration of the inner loop: store the new program under its key, and note the key if it is 0. */
  function Step(d: Driver, s: BuildState, p: (Entry, Entry)): BuildState {
    var created := CreateShader(d, p.0.1, p.1.1);
    BuildState(s.programs[PairKey(p) := created.program], s.calls + created.calls,
               if created.program == 0 then Some(PairKey(p)) else None)
  }

  /**
   * One iteration adds the pair's key, maps it to the pair's program, keeps
   * every other entry, fails exactly when that program is 0, and only
   * appends to the call log.
   */
  lemma StepFacts(d: Driver, s: BuildState, p: (Entry, Entry))
    ensures var r := Step(d, s, p);
            && r.programs.Keys == s.programs.Keys + {PairKey(p)}
            && r.programs[PairKey(p)] == HandleOf(d, p)
            && (forall k :: k in s.programs && k != PairKey(p) ==> r.programs[k] == s.programs[k])
            && (r.failed.Some? <==> HandleOf(d, p) == 0)
            && s.calls <= r.calls
  {
  }

  /** Steps through `pairs` in order, stopping after the first pair whose program is 0. */
  function BuildAll(d: Driver, s: BuildState, pairs: seq<(Entry, Entry)>): (r: BuildState)
    decreases |pairs|
    ensures s.failed.Some? ==> r == s
  {
    if pairs == [] || s.failed.Some? then s
    else BuildAll(d, Step(d, s, pairs[0]), pairs[1..])
  }

  /** Building only adds to the registry and only appends to the GL call log. */
  lemma {:induction false} BuildAppends(d: Driver, s: BuildState, pairs: seq<(Entry, Entry)>)
    decreases |pairs|
    ensures s.programs.Keys <= BuildAll(d, s, pairs).programs.Keys
    ensures s.calls <= BuildAll(d, s, pairs).calls
  {
    if pairs != [] && s.failed.None? {
      var next := Step(d, s, pairs[0]);
      StepFacts(d, s, pairs[0]);
      BuildAppends(d, next, pairs[1..]);
      var r := BuildAll(d, next, pairs[1..]);
      assert r.calls[..|s.calls|] == r.calls[..|next.calls|][..|s.calls|];
    }
  }

  /** The index of the first pair whose program is 0, or |pairs| when every pair links. */
  function FirstFailure(d: Driver, pairs: seq<(Entry, Entry)>): (n: nat)
    ensures n <= |pairs|
    ensures forall m :: 0 <= m < n ==> HandleOf(d, pairs[m]) != 0
    ensures n < |pairs| ==> HandleOf(d, pairs[n]) == 0
  {
    if pairs == [] then 0
    else if HandleOf(d, pairs[0]) == 0 then 0
    else 1 + FirstFailure(d, pairs[1..])
  }

  /** How many pairs are built when the first failure is at `n`: up to and including it. */
  function Processed(n: nat, len: nat): nat {
    if n < len then n + 1 else n
  }

  /** Building stops exactly at the first pair whose program is 0, and reports that pair's key. */
  lemma {:induction false} BuildOutcome(d: Driver, s: BuildState, pairs: seq<(Entry, Entry)>)
    requires s.failed.None?
    decreases |pairs|
    ensures var r := BuildAll(d, s, pairs);
            var n := FirstFailure(d, pairs);
            && (r.failed.None? <==> n == |pairs|)
            && (n < |pairs| ==> r.failed == Some(PairKey(pairs[n])))
  {
    if pairs != [] && HandleOf(d, pairs[0]) != 0 {
      var rest := pairs[1..];
      StepFacts(d, s, pairs[0]);
      BuildOutcome(d, Step(d, s, pairs[0]), rest);
      assert FirstFailure(d, pairs) == FirstFailure(d, rest) + 1;
    }
  }

  /** Set algebra for one more key in front of the keys added after it. */
  lemma UnionRegroup(before: set<string>, mid: set<string>, after: set<string>, key: string, later: set<string>, added: set<string>)
    requires mid == before + {key} && after == mid + later && added == {key} + later
    ensures after == before + added
  {
  }

  /** The keys building adds are exactly those of the pairs up to and including the first failure. */
  lemma {:induction false} BuildKeys(d: Driver, s: BuildState, pairs: seq<(Entry, Entry)>)
    requires s.failed.None?
    decreases |pairs|
    ensures BuildAll(d, s, pairs).programs.Keys
         == s.programs.Keys + PairKeys(pairs[..Processed(FirstFailure(d, pairs), |pairs|)])
  {
    if pairs != [] {
      var p := pairs[0];
      if HandleOf(d, p) == 0 {
        StepFacts(d, s, p);
        assert BuildAll(d, s, pairs) == Step(d, s, p);
        assert Processed(FirstFailure(d, pairs), |pairs|) == 1;
        assert pairs[..1] == [p] + [];
        PairKeysCons(p, []);
        assert PairKeys(pairs[..1]) == {PairKey(p)};
      } else {
        var rest := pairs[1..];
        var next := Step(d, s, p);
        StepFacts(d, s, p);
        assert BuildAll(d, s, pairs) == BuildAll(d, next, rest);
        BuildKeys(d, next, rest);
        var k := Processed(FirstFailure(d, rest), |rest|);
        assert Processed(FirstFailure(d, pairs), |pairs|) == k + 1 by {
          assert FirstFailure(d, pairs) == FirstFailure(d, rest) + 1;
        }
        PrefixCons(pairs, k);
        PairKeysCons(p, rest[..k]);
        UnionRegroup(s.programs.Keys, next.programs.Keys, BuildAll(d, next, rest).programs.Keys,
                     PairKey(p), PairKeys(rest[..k]), PairKeys(pairs[..k + 1]));
      }
    }
  }

  /** Every entry of the registry whose key no built pair has is kept. */
  lemma {:induction false} BuildKept(d: Driver, s: BuildState, pairs: seq<(Entry, Entry)>)
    requires s.failed.None?
    decreases |pairs|
    ensures var r := BuildAll(d, s, pairs);
            var done := pairs[..Processed(FirstFailure(d, pairs), |pairs|)];
            forall k :: k in s.programs && k !in PairKeys(done) ==> k in r.programs && r.programs[k] == s.programs[k]
  {
    if pairs != [] {
      var p := pairs[0];
      var r := BuildAll(d, s, pairs);
      var done := pairs[..Processed(FirstFailure(d, pairs), |pairs|)];
      if HandleOf(d, p) == 0 {
        StepFacts(d, s, p);
        assert r == Step(d, s, p);
        assert done == [p];
      } else {
        var rest := pairs[1..];
        var next := Step(d, s, p);
        StepFacts(d, s, p);
        assert r == BuildAll(d, next, rest);
        BuildKept(d, next, rest);
        var k := Processed(FirstFailure(d, rest), |rest|);
        assert Processed(FirstFailure(d, pairs), |pairs|) == k + 1 by {
          assert FirstFailure(d, pairs) == FirstFailure(d, rest) + 1;
        }
        PrefixCons(pairs, k);
        PairKeysCons(p, rest[..k]);
      }
    }
  }

  /**
   * Every pair built up to and including the first failure maps to the
   * program created for it; every other entry of the registry is kept.
   */
  lemma {:induction false} BuildValues(d: Driver, s: BuildState, pairs: seq<(Entry, Entry)>)
    requires s.failed.None? && KeyDetermines(pairs)
    decreases |pairs|
    ensures var r := BuildAll(d, s, pairs);
            var done := pairs[..Processed(FirstFailure(d, pairs), |pairs|)];
            && (forall p :: p in done ==> PairKey(p) in r.programs && r.programs[PairKey(p)] == HandleOf(d, p))
            && (forall k :: k in s.programs && k !in PairKeys(done) ==> k in r.programs && r.programs[k] == s.programs[k])
  {
    BuildKept(d, s, pairs);
    if pairs != [] {
      var p := pairs[0];
      var r := BuildAll(d, s, pairs);
      var done := pairs[..Processed(FirstFailure(d, pairs), |pairs|)];
      if HandleOf(d, p) == 0 {
        StepFacts(d, s, p);
        assert r == Step(d, s, p);
        assert done == [p];
      } else {
        var rest := pairs[1..];
        var next := Step(d, s, p);
        StepFacts(d, s, p);
        assert r == BuildAll(d, next, rest);
        BuildValues(d, next, rest);
        BuildKept(d, next, rest);
        var k := Processed(FirstFailure(d, rest), |rest|);
        var done' := rest[..k];
        assert Processed(FirstFailure(d, pairs), |pairs|) == k + 1 by {
          assert FirstFailure(d, pairs) == FirstFailure(d, rest) + 1;
        }
        PrefixCons(pairs, k);
        assert done == [p] + done';
        forall q | q in done
          ensures PairKey(q) in r.programs && r.programs[PairKey(q)] == HandleOf(d, q)
        {
          if q !in done' {
            assert q == p;
            assert PairKey(p) !in PairKeys(done');
          }
        }
      }
    }
  }


  /** The pairs before the first failure all have nonzero programs. */
  lemma BeforeFailureNonzero(d: Driver, pairs: seq<(Entry, Entry)>)
    ensures forall p :: p in pairs[..FirstFailure(d, pairs)] ==> HandleOf(d, p) != 0
  {
    var n := FirstFailure(d, pairs);
    forall p | p in pairs[..n] ensures HandleOf(d, p) != 0 {
      var m :| 0 <= m < n && pairs[..n][m] == p;
      assert pairs[m] == p;
    }
  }

  /** When building does not fail, every pair is stored under its key with its nonzero program. */
  lemma BuildComplete(d: Driver, s: BuildState, pairs: seq<(Entry, Entry)>)
    requires s.failed.None? && KeyDetermines(pairs)
    requires BuildAll(d, s, pairs).failed.None?
    ensures var r := BuildAll(d, s, pairs);
            forall p :: p in pairs ==> PairKey(p) in r.programs && r.programs[PairKey(p)] == HandleOf(d, p) != 0
  {
    BuildOutcome(d, s, pairs);
    BuildValues(d, s, pairs);
    BeforeFailureNonzero(d, pairs);
    var n := FirstFailure(d, pairs);
    assert pairs[..Processed(n, |pairs|)] == pairs;
    assert pairs[..n] == pairs;
  }

  /** When building fails, it fails at a pair whose program is 0, and that pair's key is stored with 0. */
  lemma BuildFailure(d: Driver, s: BuildState, pairs: seq<(Entry, Entry)>)
    requires s.failed.None? && KeyDetermines(pairs)
    requires BuildAll(d, s, pairs).failed.Some?
    ensures var r := BuildAll(d, s, pairs);
            exists p :: p in pairs && r.failed == Some(PairKey(p)) && HandleOf(d, p) == 0 &&
                        PairKey(p) in r.programs && r.programs[PairKey(p)] == 0
  {
    var n := FirstFailure(d, pairs);
    BuildOutcome(d, s, pairs);
    BuildValues(d, s, pairs);
    var p := pairs[n];
    assert p in pairs[..Processed(n, |pairs|)];
  }

  // ---------------------------------------------------------------------
  // The build with createShader as written
  // ---------------------------------------------------------------------

  /** One iteration of the inner loop with createShader as the source has it. */
  function StepAsWritten(d: Driver, s: BuildState, p: (Entry, Entry)): BuildState {
    var created := CreateShaderAsWritten(d, p.0.1, p.1.1);
    BuildState(s.programs[PairKey(p) := created.program], s.calls + created.calls,
               if created.program == 0 then Some(PairKey(p)) else None)
  }

  /** The build loops as the source has them. */
  function BuildAllAsWritten(d: Driver, s: BuildState, pairs: seq<(Entry, Entry)>): BuildState
    decreases |pairs|
  {
    if pairs == [] || s.failed.Some? then s
    else BuildAllAsWritten(d, StepAsWritten(d, s, pairs[0]), pairs[1..])
  }

  /**
   * The glDeleteShader calls for the stages of the first pair that fails
   * to link: the calls the corrected createShader adds to the source's.
   */
  function LeakedStages(d: Driver, pairs: seq<(Entry, Entry)>): seq<Call> {
    var n := FirstFailure(d, pairs);
    if n < |pairs| then [DeleteShader(VertexObject(d, pairs[n].0.1)), DeleteShader(FragmentObject(d, pairs[n].1.1))]
    else []
  }

  /**
   * Building with the corrected createShader gives the registry and the
   * failed key of the source's build, and the source's GL calls followed by
   * the two glDeleteShader calls of the failing pair, if any.
   */
  lemma {:induction false} AsWrittenBuildDiffers(d: Driver, s: BuildState, pairs: seq<(Entry, Entry)>)
    requires s.failed.None?
    decreases |pairs|
    ensures var r := BuildAll(d, s, pairs);
            var w := BuildAllAsWritten(d, s, pairs);
            && r.programs == w.programs && r.failed == w.failed
            && r.calls == w.calls + LeakedStages(d, pairs)
  {
    if pairs != [] {
      var p := pairs[0];
      var rest := pairs[1..];
      if HandleOf(d, p) == 0 {
        StepFacts(d, s, p);
        assert BuildAll(d, s, pairs) == Step(d, s, p);
        assert BuildAllAsWritten(d, s, pairs) == StepAsWritten(d, s, p);
      } else {
        assert Step(d, s, p) == StepAsWritten(d, s, p);
        AsWrittenBuildDiffers(d, Step(d, s, p), rest);
        assert FirstFailure(d, pairs) == FirstFailure(d, rest) + 1;
      }
    }
  }

  // ---------------------------------------------------------------------
  // The build over the fixed names
  // ---------------------------------------------------------------------

  /** The loops visit exactly the fixed names, each of which has a path. */
  predicate GridOrders(vp: map<string, string>, fp: map<string, string>, vOrder: seq<string>, fOrder: seq<string>) {
    && Enumerates(vOrder, VertexNameSet) && Enumerates(fOrder, FragmentNameSet)
    && VertexNameSet <= vp.Keys && FragmentNameSet <= fp.Keys
  }

  /** Under those orders every visited name has a path. */
  lemma OrdersWithin(vp: map<string, string>, fp: map<string, string>, vOrder: seq<string>, fOrder: seq<string>)
    requires GridOrders(vp, fp, vOrder, fOrder)
    ensures Within(vOrder, vp) && Within(fOrder, fp)
  {
  }

  /** The pairs of entries initialisation builds, visiting the names in the orders `vOrder` and `fOrder`. */
  function Grid(vp: map<string, string>, fp: map<string, string>, vOrder: seq<string>, fOrder: seq<string>): seq<(Entry, Entry)>
    requires GridOrders(vp, fp, vOrder, fOrder)
  {
    assert Within(vOrder, vp) && Within(fOrder, fp);
    Pairs(Entries(vOrder, vp), Entries(fOrder, fp))
  }

  /**
   * The grid holds one pair for each vertex name and fragment name, with
   * the paths the maps give them, and distinct pairs have distinct keys.
   */
  lemma GridFacts(vp: map<string, string>, fp: map<string, string>, vOrder: seq<string>, fOrder: seq<string>)
    requires GridOrders(vp, fp, vOrder, fOrder)
    ensures forall p :: p in Grid(vp, fp, vOrder, fOrder) <==>
              && p.0.0 in VertexNameSet && p.1.0 in FragmentNameSet
              && p.0.1 == vp[p.0.0] && p.1.1 == fp[p.1.0]
    ensures KeyDetermines(Grid(vp, fp, vOrder, fOrder))
  {
    assert Within(vOrder, vp) && Within(fOrder, fp);
    EntriesMembers(vOrder, vp);
    EntriesMembers(fOrder, fp);
    var grid := Grid(vp, fp, vOrder, fOrder);
    PairsMembers(Entries(vOrder, vp), Entries(fOrder, fp));
    NamesHaveNoUnderscore();
    forall p, q | p in grid && q in grid && PairKey(p) == PairKey(q) ensures p == q {
      KeyRoundTrip(p.0.0, p.1.0);
      KeyRoundTrip(q.0.0, q.1.0);
    }
  }

  /** Two sequences without repeats, sharing no element, concatenate to one without repeats. */
  lemma {:induction false} ConcatDistinct<T>(a: seq<T>, b: seq<T>)
    requires Distinct(a) && Distinct(b)
    requires forall x :: x in a ==> x !in b
    decreases |a|
    ensures Distinct(a + b)
  {
    if a == [] {
      assert a + b == b;
    } else {
      ConcatDistinct(a[1..], b);
      assert (a + b)[1..] == a[1..] + b;
      assert a[0] !in b;
    }
  }

  /** Entries visited without repeats are themselves without repeats. */
  lemma {:induction false} EntriesDistinct(order: seq<string>, m: map<string, string>)
    requires Within(order, m) && Distinct(order)
    decreases |order|
    ensures Distinct(Entries(order, m))
  {
    if order != [] {
      var r := Entries(order, m);
      EntriesDistinct(order[1..], m);
      assert r[1..] == Entries(order[1..], m);
      forall e | e in r[1..] ensures e != r[0] {
        var k :| 0 <= k < |r[1..]| && r[1..][k] == e;
        assert e.0 == order[1..][k];
      }
    }
  }

  lemma {:induction false} RowDistinct<T(!new)>(v: T, fs: seq<T>)
    requires Distinct(fs)
    decreases |fs|
    ensures Distinct(Row(v, fs))
  {
    if fs != [] {
      RowDistinct(v, fs[1..]);
      RowMembers(v, fs[1..]);
      ConcatDistinct([(v, fs[0])], Row(v, fs[1..]));
    }
  }

  /** Distinct vertex entries and distinct fragment entries make each pair occur once. */
  lemma {:induction false} PairsDistinct<T(!new)>(vs: seq<T>, fs: seq<T>)
    requires Distinct(vs) && Distinct(fs)
    decreases |vs|
    ensures Distinct(Pairs(vs, fs))
  {
    if vs != [] {
      RowDistinct(vs[0], fs);
      PairsDistinct(vs[1..], fs);
      RowMembers(vs[0], fs);
      PairsMembers(vs[1..], fs);
      ConcatDistinct(Row(vs[0], fs), Pairs(vs[1..], fs));
    }
  }

  /** An order that enumerates the names of a list without repeats is as long as the list. */
  lemma EnumerationLength(order: seq<string>, names: seq<string>)
    requires Distinct(names) && Enumerates(order, set n | n in names)
    ensures |order| == |names|
  {
    DistinctCount(order);
    DistinctCount(names);
    assert (set k | k in order) == (set n | n in names);
  }

  /**
   * Initialisation visits 3 x 3 pairs and none of them twice, so with
   * GridFacts each vertex name and fragment name meet exactly once.
   */
  lemma GridOncePerPair(vp: map<string, string>, fp: map<string, string>, vOrder: seq<string>, fOrder: seq<string>)
    requires GridOrders(vp, fp, vOrder, fOrder)
    ensures |Grid(vp, fp, vOrder, fOrder)| == |VertexNames| * |FragmentNames|
    ensures Distinct(Grid(vp, fp, vOrder, fOrder))
  {
    OrdersWithin(vp, fp, vOrder, fOrder);
    var vs := Entries(vOrder, vp);
    var fs := Entries(fOrder, fp);
    EnumerationLength(vOrder, VertexNames);
    EnumerationLength(fOrder, FragmentNames);
    PairsLength(vs, fs);
    EntriesDistinct(vOrder, vp);
    EntriesDistinct(fOrder, fp);
    PairsDistinct(vs, fs);
  }

  /**
   * When initialisation over the fixed names (in any iteration order) does
   * not fail, every one of the 3 x 3 keys maps to the nonzero program
   * created from the two paths.
   */
  lemma GridBuildComplete(d: Driver, vp: map<string, string>, fp: map<string, string>, s: BuildState,
                          vOrder: seq<string>, fOrder: seq<string>)
    requires GridOrders(vp, fp, vOrder, fOrder) && s.failed.None?
    requires BuildAll(d, s, Grid(vp, fp, vOrder, fOrder)).failed.None?
    ensures var r := BuildAll(d, s, Grid(vp, fp, vOrder, fOrder));
            forall v, f :: v in VertexNameSet && f in FragmentNameSet ==>
              Key(v, f) in r.programs && r.programs[Key(v, f)] == CreateShader(d, vp[v], fp[f]).program != 0
  {
    var grid := Grid(vp, fp, vOrder, fOrder);
    GridFacts(vp, fp, vOrder, fOrder);
    BuildComplete(d, s, grid);
    forall v, f | v in VertexNameSet && f in FragmentNameSet
      ensures var r := BuildAll(d, s, grid);
              Key(v, f) in r.programs && r.programs[Key(v, f)] == CreateShader(d, vp[v], fp[f]).program != 0
    {
      var p := ((v, vp[v]), (f, fp[f]));
      assert p in grid;
      assert PairKey(p) == Key(v, f);
    }
  }

  /**
   * When initialisation over the fixed names fails, it failed at a key of
   * the grid whose program is 0, and that key is stored with 0.
   */
  lemma GridBuildFailure(d: Driver, vp: map<string, string>, fp: map<string, string>, s: BuildState,
                         vOrder: seq<string>, fOrder: seq<string>)
    requires GridOrders(vp, fp, vOrder, fOrder) && s.failed.None?
    requires BuildAll(d, s, Grid(vp, fp, vOrder, fOrder)).failed.Some?
    ensures var r := BuildAll(d, s, Grid(vp, fp, vOrder, fOrder));
            exists v, f :: && v in VertexNameSet && f in FragmentNameSet && r.failed == Some(Key(v, f))
                           && CreateShader(d, vp[v], fp[f]).program == 0
                           && Key(v, f) in r.programs && r.programs[Key(v, f)] == 0
  {
    var grid := Grid(vp, fp, vOrder, fOrder);
    GridFacts(vp, fp, vOrder, fOrder);
    BuildFailure(d, s, grid);
    var r := BuildAll(d, s, grid);
    var p :| p in grid && r.failed == Some(PairKey(p)) && HandleOf(d, p) == 0 &&
             PairKey(p) in r.programs && r.programs[PairKey(p)] == 0;
    assert p.0.0 in VertexNameSet && p.1.0 in FragmentNameSet;
  }

  /** The key initialisation makes current when every program links: "normal_normal". */
  const DefaultProgram: string := Key("normal", "normal")

  /**
   * Initialisation over the fixed names adds no key outside the grid, and
   * when it does not fail it stores a program under "normal_normal".
   */
  lemma GridBuildKeys(d: Driver, vp: map<string, string>, fp: map<string, string>, s: BuildState,
                      vOrder: seq<string>, fOrder: seq<string>)
    requires GridOrders(vp, fp, vOrder, fOrder)
    requires s.failed.None? && s.programs.Keys <= GridKeys
    ensures BuildAll(d, s, Grid(vp, fp, vOrder, fOrder)).programs.Keys <= GridKeys
    ensures BuildAll(d, s, Grid(vp, fp, vOrder, fOrder)).failed.None? ==>
              DefaultProgram in BuildAll(d, s, Grid(vp, fp, vOrder, fOrder)).programs
  {
    var grid := Grid(vp, fp, vOrder, fOrder);
    var done := grid[..Processed(FirstFailure(d, grid), |grid|)];
    GridFacts(vp, fp, vOrder, fOrder);
    BuildOutcome(d, s, grid);
    BuildKeys(d, s, grid);
    forall k | k in PairKeys(done) ensures k in GridKeys {
      var p :| p in done && PairKey(p) == k;
      assert p in grid;
    }
    if BuildAll(d, s, grid).failed.None? {
      assert done == grid;
      assert "normal" in VertexNameSet && "normal" in FragmentNameSet;
      assert (("normal", vp["normal"]), ("normal", fp["normal"])) in grid;
    }
  }

  // ---------------------------------------------------------------------
  // Selection by index
  // ---------------------------------------------------------------------

  /** The vertex shader useShaderProgram picks for index `i`; any index outside 0..2 picks "normal". */
  function VertexKey(i: int): (name: string)
    ensures name == VertexNames[Fallback(i)]
  {
    match i
    case 1 => "wave"
    case 2 => "breathing"
    case _ => "normal"
  }

  /** The fragment shader useShaderProgram picks for index `j`; any index outside 0..2 picks "normal". */
  function FragmentKey(j: int): (name: string)
    ensures name == FragmentNames[Fallback(j)]
  {
    match j
    case 1 => "pulse"
    case 2 => "rainbow"
    case _ => "normal"
  }

  /** The key useShaderProgram looks up for a pair of indices. */
  function ProgramName(i: int, j: int): (key: string)
    ensures key in GridKeys
  {
    assert VertexKey(i) in VertexNameSet && FragmentKey(j) in FragmentNameSet;
    Key(VertexKey(i), FragmentKey(j))
  }

  /** An index outside 0..2 selects what index 0 selects. */
  function Fallback(i: int): int {
    if 0 <= i <= 2 then i else 0
  }

  /** Two index pairs select the same program exactly when they agree after the fallback to 0. */
  lemma ProgramNameInjective(i: int, j: int, i': int, j': int)
    ensures ProgramName(i, j) == ProgramName(i', j') <==> Fallback(i) == Fallback(i') && Fallback(j) == Fallback(j')
  {
    NamesHaveNoUnderscore();
    KeyRoundTrip(VertexKey(i), FragmentKey(j));
    KeyRoundTrip(VertexKey(i'), FragmentKey(j'));
    assert ProgramName(i, j) == Key(VertexKey(i), FragmentKey(j));
    assert ProgramName(i', j') == Key(VertexKey(i'), FragmentKey(j'));
  }

  // ---------------------------------------------------------------------
  // Teardown
  // ---------------------------------------------------------------------

  /** The glDeleteProgram calls cleanup makes, one per key of `order`, in that order. */
  function DeleteAll(m: map<string, Handle>, order: seq<string>): (r: seq<Call>)
    requires forall k :: k in order ==> k in m
    ensures |r| == |order|
    ensures forall i :: 0 <= i < |order| ==> r[i] == DeleteProgram(m[order[i]])
  {
    if order == [] then []
    else DeleteAll(m, order[..|order| - 1]) + [DeleteProgram(m[order[|order| - 1]])]
  }

  /** Deleting one more key of `order` appends one glDeleteProgram call. */
  lemma DeleteAllNext(m: map<string, Handle>, order: seq<string>, i: nat)
    requires i < |order|
    requires forall k :: k in order ==> k in m
    ensures DeleteAll(m, order[..i + 1]) == DeleteAll(m, order[..i]) + [DeleteProgram(m[order[i]])]
  {
    assert order[..i + 1][..i] == order[..i];
  }

  /** |order| distinct elements make a set of |order| elements. */
  lemma {:induction false} DistinctCount(order: seq<string>)
    requires Distinct(order)
    ensures |set k | k in order| == |order|
  {
    if order != [] {
      var tail := order[1..];
      DistinctCount(tail);
      assert (set k | k in order) == {order[0]} + (set k | k in tail) by {
        assert forall k :: k in order ==> k == order[0] || k in tail;
      }
    }
  }

  /** Cleanup deletes every registered program, one call per registry entry. */
  lemma DeleteAllCoversRegistry(m: map<string, Handle>, order: seq<string>)
    requires Enumerates(order, m.Keys)
    ensures |DeleteAll(m, order)| == |m|
    ensures forall k :: k in m ==> DeleteProgram(m[k]) in DeleteAll(m, order)
  {
    DistinctCount(order);
    assert (set k | k in order) == m.Keys;
    forall k | k in m ensures DeleteProgram(m[k]) in DeleteAll(m, order) {
      var i :| 0 <= i < |order| && order[i] == k;
      assert DeleteAll(m, order)[i] == DeleteProgram(m[k]);
    }
  }

  /**
   * What initialisation leaves, from the registry, call log and current
   * program it starts with: the registry and log of the build over `grid`,
   * and, when every program linked, the default program as the current one.
   */
  ghost predicate Initialised(d: Driver, grid: seq<(Entry, Entry)>,
                              programs0: map<string, Handle>, calls0: seq<Call>, current0: Handle,
                              programs: map<string, Handle>, calls: seq<Call>, current: Handle)
  {
    var r := BuildAll(d, BuildState(programs0, calls0, None), grid);
    && programs == r.programs && calls == r.calls
    && (r.failed.Some? ==> current == current0)
    && (r.failed.None? ==> DefaultProgram in programs && current == programs[DefaultProgram])
  }
}
