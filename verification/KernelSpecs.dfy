/** The kernels of conda-style environments, added to the kernels that are registered
    (core/src/kernelspec.rs: add_conda_kernels, synthesize_env_kernel, disambiguated). What the
    directories hold is given. */
module KernelSpecs {
  import opened Decimal
  import opened Json
  import opened Sets

  /** An absolute path, by its names. */
  type Place = seq<string>

  datatype KernelSpec = KernelSpec(
    name: string,
    path: Place,
    argv: seq<string>,
    displayName: string,
    language: string,
    metadata: Value
  )

  /** One entry of an environment's kernels dir: its name, if that is text, and what load_one makes
      of it. */
  datatype Entry = Entry(isDir: bool, base: Option<string>, loaded: Option<KernelSpec>)

  /** An environment: what its kernels dir holds, if it has one, and which of bin/python and
      bin/python3 are files. */
  datatype Env = Env(prefix: Place, kernels: Option<seq<Entry>>, python: bool, python3: bool)

  type Specs = map<string, KernelSpec>

  // ---- paths and labels ----

  function FileName(p: Place): Option<string> {
    if p == [] then None else Some(p[|p| - 1])
  }

  function Parent(p: Place): Option<Place> {
    if p == [] then None else Some(p[..|p| - 1])
  }

  function Text(p: Place): string {
    if p == [] then "" else Text(p[..|p| - 1]) + "/" + p[|p| - 1]
  }

  /** is_pixi_env: `<project>/.pixi/envs/<name>` */
  predicate IsPixiEnv(p: Place) {
    |p| >= 3 && p[|p| - 2] == "envs" && p[|p| - 3] == ".pixi"
  }

  /** env_label */
  function EnvLabel(p: Place): string {
    var base := if p == [] then "env" else p[|p| - 1];
    if IsPixiEnv(p) then
      var pixi := if |p| >= 4 then p[|p| - 4] + "-pixi" else "pixi";
      if base == "default" then pixi else pixi + "-" + base
    else
      var generic := base == ".venv" || base == "venv" || base == "env";
      var version := base != "" && '0' <= base[0] <= '9';
      if (generic || version) && |p| >= 2 && p[|p| - 2] != "envs" && p[|p| - 2] != ".conda" then p[|p| - 2] + "-" + base
      else base
  }

  /** An environment is called by its own name, a project's by the project's too. */
  lemma EnvLabels(above: Place, project: string, name: string)
    ensures EnvLabel(above + [project, ".pixi", "envs", "default"]) == project + "-pixi"
    ensures name != "default" ==> EnvLabel(above + [project, ".pixi", "envs", name]) == project + "-pixi" + ("-" + name)
    ensures project != "envs" && project != ".conda" ==> EnvLabel(above + [project, ".venv"]) == project + "-.venv"
    ensures name != "" && !('0' <= name[0] <= '9') && name != ".venv" && name != "venv" && name != "env" && project != ".pixi"
            ==> EnvLabel(above + [project, "envs", name]) == name
  {
    var p := above + [project, ".pixi", "envs", name];
    assert p[|p| - 4] == project && p[|p| - 3] == ".pixi" && p[|p| - 2] == "envs" && p[|p| - 1] == name;
    var q := above + [project, "envs", name];
    assert q[|q| - 2] == "envs" && q[|q| - 3] == project && q[|q| - 1] == name;
    assert project + "-" + ".venv" == project + "-.venv";
  }

  /** The name of the nearest dir above `p` that says something. */
  function NearestName(p: Place): Option<string>
    decreases |p|
  {
    if p == [] then None
    else
      var above := p[..|p| - 1];
      if above == [] then None
      else if above[|above| - 1] != "envs" && above[|above| - 1] != ".conda" then Some(above[|above| - 1])
      else NearestName(above)
  }

  function Lower(s: string): string {
    seq(|s|, i requires 0 <= i < |s| => if 'A' <= s[i] <= 'Z' then (s[i] as int + 32) as char else s[i])
  }

  predicate IsPython(spec: KernelSpec) {
    Lower(spec.language) == "python"
  }

  predicate Contains(s: string, part: string) {
    exists i | 0 <= i <= |s| :: part <= s[i..]
  }

  // ---- a free key ----

  function Numbered(base: string, shown: string, n: nat): string {
    base + "-" + (shown + "-" + Digits(n))
  }

  function NumberedKeys(base: string, shown: string, n: nat): set<string>
    requires n >= 2
  {
    set m | 2 <= m < n :: Numbered(base, shown, m)
  }

  lemma NumberedOnce(base: string, shown: string, m: nat, n: nat)
    ensures Numbered(base, shown, m) == Numbered(base, shown, n) <==> m == n
  {
    PrintedOnce(m, n);
    var stem := base + "-" + (shown + "-");
    assert Numbered(base, shown, m)[|stem|..] == Digits(m);
    assert Numbered(base, shown, n)[|stem|..] == Digits(n);
  }

  /** As many keys as numbers. */
  lemma {:induction false} NumberedCount(base: string, shown: string, n: nat)
    requires n >= 2
    ensures |NumberedKeys(base, shown, n)| == n - 2
  {
    if n == 2 {
      assert NumberedKeys(base, shown, n) == {};
    } else {
      NumberedCount(base, shown, n - 1);
      forall m | 2 <= m < n - 1 ensures Numbered(base, shown, m) != Numbered(base, shown, n - 1) {
        NumberedOnce(base, shown, m, n - 1);
      }
      assert NumberedKeys(base, shown, n) == NumberedKeys(base, shown, n - 1) + {Numbered(base, shown, n - 1)};
    }
  }

  /** The numbers run out of taken keys before they pass the number of kernels. */
  lemma NumbersBounded(found: Specs, base: string, shown: string, n: nat)
    requires n >= 2 && NumberedKeys(base, shown, n) <= found.Keys
    ensures n - 2 <= |found|
  {
    NumberedCount(base, shown, n);
    SubsetSize(NumberedKeys(base, shown, n), found.Keys);
    assert |found.Keys| == |found|;
  }

  /** disambiguated: a key no kernel has, plain when it is free. */
  method Disambiguated(found: Specs, base: string, prefix: Place, shown: string) returns (key: string, lab: string)
    ensures key !in found
    ensures base !in found ==> key == base && lab == shown
    ensures base in found ==> key == base + "-" + lab
    ensures base in found && base + "-" + shown !in found ==> lab == shown
    ensures base in found && base + "-" + shown in found && lab != shown
            && (NearestName(prefix).None? || lab != NearestName(prefix).value + "-" + shown) ==>
              exists n | 2 <= n <= |found| + 2 :: lab == shown + "-" + Digits(n) && NumberedKeys(base, shown, n) <= found.Keys
  {
    if base !in found {
      return base, shown;
    }
    lab := shown;
    key := base + "-" + lab;
    if key in found {
      var name := Ancestor(prefix);
      if name.Some? {
        lab := name.value + "-" + shown;
        key := base + "-" + lab;
      }
    }
    ghost var first := lab;
    var n := 2;
    while key in found
      invariant n >= 2 && NumberedKeys(base, shown, n) <= found.Keys + {key}
      invariant n > 2 ==> NumberedKeys(base, shown, n - 1) <= found.Keys
      invariant key == base + "-" + lab
      invariant if n == 2 then lab == first else lab == shown + "-" + Digits(n - 1)
      invariant base + "-" + shown !in found ==> n == 2 && lab == shown
      invariant n - 3 <= |found|
      decreases |found| + 3 - n
    {
      NumbersBounded(found, base, shown, n);
      lab := shown + "-" + Digits(n);
      key := base + "-" + lab;
      n := n + 1;
    }
    if n > 2 {
      assert 2 <= n - 1 <= |found| + 2 && lab == shown + "-" + Digits(n - 1);
    }
  }

  method Ancestor(prefix: Place) returns (name: Option<string>)
    ensures name == NearestName(prefix)
  {
    var anc := Parent(prefix);
    ghost var below := prefix;
    while anc.Some?
      invariant anc.Some? ==> below != [] && anc.value == below[..|below| - 1]
      invariant NearestName(below) == NearestName(prefix)
      invariant anc.None? ==> NearestName(prefix) == None
      decreases if anc.Some? then |anc.value| + 1 else 0
    {
      var n := FileName(anc.value);
      if n.Some? && n.value != "envs" && n.value != ".conda" {
        return n;
      }
      below := anc.value;
      anc := Parent(anc.value);
    }
    name := None;
  }

  // ---- adding kernels ----

  function Argv0(spec: KernelSpec): Option<string> {
    if spec.argv == [] then None else Some(spec.argv[0])
  }

  /** A listed kernel runs this program. */
  predicate Listed(found: Specs, program: string) {
    exists k <- found :: Argv0(found[k]) == Some(program)
  }

  /** What adding kernels to `was` keeps: the kernels there were are as they were, a new one is
      named by its key, and runs a program no other kernel runs. */
  ghost predicate Added(was: Specs, found: Specs) {
    && (forall k <- was :: k in found && found[k] == was[k])
    && (forall k <- found | k !in was :: found[k].name == k)
    && (forall k, l | k in found && k !in was && l in found && l != k && found[k].argv != [] ::
          Argv0(found[k]) != Argv0(found[l]))
  }

  /** The programs the kernels run. */
  ghost predicate Known(found: Specs, known: set<string>) {
    forall p :: p in known <==> Listed(found, p)
  }

  lemma AddedOne(was: Specs, found: Specs, known: set<string>, key: string, spec: KernelSpec)
    requires Added(was, found) && Known(found, known) && key !in found && spec.name == key
    requires spec.argv != [] ==> spec.argv[0] !in known
    ensures Added(was, found[key := spec])
    ensures Known(found[key := spec], if spec.argv == [] then known else known + {spec.argv[0]})
    ensures forall p :: Listed(found, p) ==> Listed(found[key := spec], p)
    ensures spec.argv != [] ==> Listed(found[key := spec], spec.argv[0])
  {
    var more := found[key := spec];
    forall p | Listed(found, p) ensures Listed(more, p) {
      var k :| k in found && Argv0(found[k]) == Some(p);
      assert Argv0(more[k]) == Some(p);
    }
    if spec.argv != [] { assert Argv0(more[key]) == Some(spec.argv[0]); }
    assert spec.argv != [] ==> !Listed(found, spec.argv[0]);
    forall p | Listed(more, p) ensures p in known || (spec.argv != [] && p == spec.argv[0]) {
      var k :| k in more && Argv0(more[k]) == Some(p);
      if k != key { assert Listed(found, p); }
    }
  }

  function PythonOf(env: Env): Option<string> {
    if env.python then Some(Text(env.prefix + ["bin", "python"]))
    else if env.python3 then Some(Text(env.prefix + ["bin", "python3"]))
    else None
  }

  /** The program a kernel of the environment runs: a plain python is the environment's own. */
  function Resolved(env: Env, spec: KernelSpec): KernelSpec {
    if spec.argv != [] && (spec.argv[0] == "python" || spec.argv[0] == "python3") && PythonOf(env).Some?
    then spec.(argv := spec.argv[0 := PythonOf(env).value])
    else spec
  }

  predicate Loads(e: Entry) {
    e.isDir && e.base.Some? && e.loaded.Some?
  }

  /** The program that a kernel of the environment asks for by this word: a plain python is the file
      of the environment, if it has one. */
  function Program(env: Env, word: string): string {
    if (word == "python" || word == "python3") && env.python then Text(env.prefix) + "/bin/python"
    else if (word == "python" || word == "python3") && env.python3 then Text(env.prefix) + "/bin/python3"
    else word
  }

  lemma TextOfBin(prefix: Place, name: string)
    ensures Text(prefix + ["bin", name]) == Text(prefix) + ("/bin/" + name)
  {
    var bin := prefix + ["bin"];
    assert bin[..|bin| - 1] == prefix;
    assert (prefix + ["bin", name])[..|bin|] == bin;
    assert "/" + "bin" + ("/" + name) == "/bin/" + name;
  }

  /** Only the first word of the command changes, and it becomes that program. */
  lemma ResolvedIs(env: Env, spec: KernelSpec)
    ensures var r := Resolved(env, spec);
            && r == spec.(argv := r.argv) && |r.argv| == |spec.argv|
            && (spec.argv != [] ==> r.argv[0] == Program(env, spec.argv[0]) && r.argv[1..] == spec.argv[1..])
  {
    TextOfBin(env.prefix, "python");
    TextOfBin(env.prefix, "python3");
  }

  /** Every kernel an environment has is listed, by the program it runs. */
  predicate EntryListed(found: Specs, env: Env, e: Entry) {
    Loads(e) && e.loaded.value.argv != [] ==> Listed(found, Program(env, e.loaded.value.argv[0]))
  }

  /** A kernel of the environment as it is added under a key: it is named by the key, its command
      runs the environment's program, its display name may say the environment after what it was,
      and everything else is as in its own spec. */
  predicate AddedAs(env: Env, e: Entry, key: string, spec: KernelSpec)
    requires Loads(e)
  {
    var own := e.loaded.value;
    && spec == own.(name := key, argv := spec.argv, displayName := spec.displayName)
    && own.displayName <= spec.displayName && |spec.argv| == |own.argv|
    && (own.argv != [] ==> spec.argv[0] == Program(env, own.argv[0]) && spec.argv[1..] == own.argv[1..])
  }

  /** The kernel offered for an environment's python that has no kernel of its own. */
  ghost predicate OfferedAs(env: Env, key: string, spec: KernelSpec) {
    && spec.name == key && spec.path == env.prefix && spec.language == "python"
    && spec.argv == [Program(env, "python"), "-m", "ipykernel_launcher", "-f", "{connection_file}"]
    && "Python (" <= spec.displayName
    && Get(spec.metadata, "jupynvim").Some?
    && Get(Get(spec.metadata, "jupynvim").value, "ensure_ipykernel") == Some(Bool(true))
    && Get(Get(spec.metadata, "jupynvim").value, "prefix") == Some(Str(Text(env.prefix)))
  }

  lemma PythonIs(env: Env)
    ensures PythonOf(env).Some? <==> env.python || env.python3
    ensures PythonOf(env).Some? ==> PythonOf(env).value == Program(env, "python")
  {
    TextOfBin(env.prefix, "python");
    TextOfBin(env.prefix, "python3");
  }

  /** ... and its python is, when it has no kernels dir or no python kernel in it, unless Pixi
      manages it. */
  predicate EnvListed(found: Specs, env: Env) {
    && (env.kernels.Some? ==> forall e <- env.kernels.value :: EntryListed(found, env, e))
    && (!IsPixiEnv(env.prefix) && PythonOf(env).Some?
        && (env.kernels.Some? ==> forall e <- env.kernels.value :: Loads(e) ==> !IsPython(e.loaded.value))
        ==> Listed(found, PythonOf(env).value))
  }

  lemma ListedMore(found: Specs, more: Specs, env: Env)
    requires EnvListed(found, env) && forall p :: Listed(found, p) ==> Listed(more, p)
    ensures EnvListed(more, env)
  {
    if env.kernels.Some? {
      forall e | e in env.kernels.value ensures EntryListed(more, env, e) { assert EntryListed(found, env, e); }
    }
  }

  /** synthesize_env_kernel */
  method SynthesizeEnvKernel(was: Specs, env: Env, wasKnown: set<string>, ghost base: Specs)
    returns (found: Specs, known: set<string>)
    requires Added(base, was) && Known(was, wasKnown)
    ensures Added(base, found) && Known(found, known)
    ensures forall p :: Listed(was, p) ==> Listed(found, p)
    ensures PythonOf(env).Some? ==> Listed(found, PythonOf(env).value)
    ensures if (env.python || env.python3) && !Listed(was, Program(env, "python"))
            then exists key :: key !in was && key in found && found == was[key := found[key]] && OfferedAs(env, key, found[key])
            else found == was
  {
    found, known := was, wasKnown;
    PythonIs(env);
    var py := PythonOf(env);
    if py.None? || py.value in known {
      return;
    }
    var key, lab := Disambiguated(found, "python3", env.prefix, EnvLabel(env.prefix));
    var spec := KernelSpec(key, env.prefix, [py.value, "-m", "ipykernel_launcher", "-f", "{connection_file}"],
                           "Python (" + lab + ") [installs ipykernel]", "python",
                           Obj(map["jupynvim" := Obj(map["ensure_ipykernel" := Bool(true), "prefix" := Str(Text(env.prefix))])]));
    AddedOne(base, found, known, key, spec);
    known := known + {py.value};
    found := found[key := spec];
    assert OfferedAs(env, key, found[key]) && found == was[key := found[key]];
  }

  /** One entry of an environment's kernels dir. */
  method AddEntry(was: Specs, env: Env, e: Entry, wasKnown: set<string>, ghost base: Specs)
    returns (found: Specs, known: set<string>, python: bool)
    requires Added(base, was) && Known(was, wasKnown)
    ensures Added(base, found) && Known(found, known)
    ensures forall p :: Listed(was, p) ==> Listed(found, p)
    ensures EntryListed(found, env, e)
    ensures python ==> Loads(e) && IsPython(e.loaded.value)
    ensures if Loads(e) && (e.loaded.value.argv != [] ==> !Listed(was, Program(env, e.loaded.value.argv[0])))
            then exists key :: key !in was && key in found && found == was[key := found[key]] && AddedAs(env, e, key, found[key])
            else found == was
  {
    found, known, python := was, wasKnown, false;
    if !Loads(e) {
      return;
    }
    ResolvedIs(env, e.loaded.value);
    var spec := Resolved(env, e.loaded.value);
    if spec.argv != [] && spec.argv[0] in known {
      return;
    }
    var key, lab := Disambiguated(found, e.base.value, env.prefix, EnvLabel(env.prefix));
    if !Contains(spec.displayName, lab) {
      spec := spec.(displayName := spec.displayName + " (" + lab + ")");
    }
    python := IsPython(spec);
    spec := spec.(name := key);
    AddedOne(base, found, known, key, spec);
    if spec.argv != [] {
      known := known + {spec.argv[0]};
    }
    found := found[key := spec];
    assert AddedAs(env, e, key, found[key]) && found == was[key := found[key]];
  }

  /** One environment. */
  method AddEnv(was: Specs, env: Env, wasKnown: set<string>, ghost base: Specs) returns (found: Specs, known: set<string>)
    requires Added(base, was) && Known(was, wasKnown)
    ensures Added(base, found) && Known(found, known)
    ensures forall p :: Listed(was, p) ==> Listed(found, p)
    ensures EnvListed(found, env)
  {
    found, known := was, wasKnown;
    if env.kernels.None? {
      if !IsPixiEnv(env.prefix) {
        found, known := SynthesizeEnvKernel(found, env, known, base);
      }
      return;
    }
    var entries := env.kernels.value;
    var addedPython := false;
    for i := 0 to |entries|
      invariant Added(base, found) && Known(found, known)
      invariant forall p :: Listed(was, p) ==> Listed(found, p)
      invariant forall j | 0 <= j < i :: EntryListed(found, env, entries[j])
      invariant addedPython ==> exists j | 0 <= j < i :: Loads(entries[j]) && IsPython(entries[j].loaded.value)
    {
      ghost var before := found;
      var python;
      found, known, python := AddEntry(found, env, entries[i], known, base);
      forall j | 0 <= j < i ensures EntryListed(found, env, entries[j]) { assert EntryListed(before, env, entries[j]); }
      addedPython := addedPython || python;
    }
    if !addedPython && !IsPixiEnv(env.prefix) {
      ghost var before := found;
      found, known := SynthesizeEnvKernel(found, env, known, base);
      forall j | 0 <= j < |entries| ensures EntryListed(found, env, entries[j]) { assert EntryListed(before, env, entries[j]); }
    }
  }

  /** add_conda_kernels: no kernel there was is changed or lost, and no environment is. */
  method AddCondaKernels(was: Specs, envs: seq<Env>) returns (found: Specs)
    ensures Added(was, found)
    ensures forall env <- envs :: EnvListed(found, env)
  {
    found := was;
    var known := set k | k in was && was[k].argv != [] :: was[k].argv[0];
    forall p ensures p in known <==> Listed(was, p) {
      if Listed(was, p) {
        var k :| k in was && Argv0(was[k]) == Some(p);
        assert was[k].argv[0] in known;
      }
      if p in known {
        var k :| k in was && was[k].argv != [] && was[k].argv[0] == p;
        assert Argv0(was[k]) == Some(p);
      }
    }
    for i := 0 to |envs|
      invariant Added(was, found) && Known(found, known)
      invariant forall j | 0 <= j < i :: EnvListed(found, envs[j])
    {
      ghost var before := found;
      found, known := AddEnv(found, envs[i], known, was);
      forall j | 0 <= j < i ensures EnvListed(found, envs[j]) { ListedMore(before, found, envs[j]); }
    }
  }
}
