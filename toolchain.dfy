/** `_get_tc`: the CMake toolchain of the recipe, a generator choice and the
    cache variables handed to CMake. */
module Toolchain {
  import opened Wrappers
  import opened Paths

  /** The recipe's settings and options `_get_tc` reads, and what it learns
      from its environment: the build folder, the `brew --prefix libomp`
      output (consulted on Macos only) and the dependency root paths by
      package name, all as posix paths. */
  datatype Request = Request(
    os: string,
    testing: bool,
    shared: bool,
    buildFolder: string,
    libompPrefix: string,
    roots: map<string, string>)

  /** The cache variables `_get_tc` can set; `Name` gives each one's spelling. */
  datatype Var =
    | BuildTesting | BuildSharedLibs | CMakePrefixPath | CMakeVerboseMakefile
    | CMakeConfigurationTypes | OpenMPRoot | PythonFindVersion
    | XeusRoot | XeusZmqRoot | ZeroMQRoot | Pybind11Root | Pybind11JsonRoot
    | BuildXpythonExecutable

  function Name(v: Var): string {
    match v
    case BuildTesting => "BUILD_TESTING"
    case BuildSharedLibs => "BUILD_SHARED_LIBS"
    case CMakePrefixPath => "CMAKE_PREFIX_PATH"
    case CMakeVerboseMakefile => "CMAKE_VERBOSE_MAKEFILE"
    case CMakeConfigurationTypes => "CMAKE_CONFIGURATION_TYPES"
    case OpenMPRoot => "OpenMP_ROOT"
    case PythonFindVersion => "PythonLibsNew_FIND_VERSION"
    case XeusRoot => "xeus_ROOT"
    case XeusZmqRoot => "xeus-zmq_ROOT"
    case ZeroMQRoot => "ZeroMQ_ROOT"
    case Pybind11Root => "pybind11_ROOT"
    case Pybind11JsonRoot => "pybind11_json_ROOT"
    case BuildXpythonExecutable => "XPYT_BUILD_XPYTHON_EXECUTABLE"
  }

  /** Distinct variables have distinct names, so a map keyed by `Var` is the
      recipe's dictionary keyed by name. */
  lemma NamesDistinct(v: Var, w: Var)
    ensures Name(v) == Name(w) ==> v == w
  {
  }

  /** The part of a `CMakeToolchain` that `_get_tc` configures. */
  datatype Tc = Tc(generator: Option<string>, variables: map<Var, string>)

  /** The lookup of a dependency that was not supplied raises. */
  datatype TcError = MissingDependency(name: string)

  /** The dependencies whose root paths are looked up, in lookup order. */
  const Required: seq<string> := ["xeus", "xeus-zmq", "pybind11", "pybind11_json"]

  /** The multi-config generator per platform: Xcode on Macos, Ninja
      Multi-Config on Linux, and otherwise none, which leaves the choice to
      `CMakeToolchain`'s default (taken from the compiler settings). */
  function Generator(os: string): (g: Option<string>)
    ensures g.Some? <==> os == "Macos" || os == "Linux"
    ensures g.Some? ==> g.value == "Xcode" || g.value == "Ninja Multi-Config"
  {
    if os == "Macos" then Some("Xcode")
    else if os == "Linux" then Some("Ninja Multi-Config")
    else None
  }

  function OnOff(b: bool): string {
    if b then "ON" else "OFF"
  }

  /** The first name of `names` that has no root path. */
  function FirstMissing(roots: map<string, string>, names: seq<string>): (m: Option<string>)
    ensures m.Some? ==> m.value in names && m.value !in roots
    ensures m.None? <==> forall n :: n in names ==> n in roots
  {
    if names == [] then None
    else if names[0] !in roots then Some(names[0])
    else FirstMissing(roots, names[1..])
  }

  lemma FirstMissingCons(roots: map<string, string>, n: string, names: seq<string>)
    ensures FirstMissing(roots, [n] + names) == if n !in roots then Some(n) else FirstMissing(roots, names)
  {
    assert ([n] + names)[1..] == names;
  }

  /** Every dependency `_get_tc` looks up has a root path. */
  predicate AllPresent(roots: map<string, string>) {
    "xeus" in roots && "xeus-zmq" in roots && "pybind11" in roots && "pybind11_json" in roots
  }

  /** The first missing dependency, spelled out for the four of them. */
  lemma FirstMissingRequired(roots: map<string, string>)
    ensures FirstMissing(roots, Required) ==
      if "xeus" !in roots then Some("xeus")
      else if "xeus-zmq" !in roots then Some("xeus-zmq")
      else if "pybind11" !in roots then Some("pybind11")
      else if "pybind11_json" !in roots then Some("pybind11_json")
      else None
  {
    assert Required == ["xeus"] + (["xeus-zmq"] + (["pybind11"] + (["pybind11_json"] + [])));
    FirstMissingCons(roots, "pybind11_json", []);
    FirstMissingCons(roots, "pybind11", ["pybind11_json"] + []);
    FirstMissingCons(roots, "xeus-zmq", ["pybind11"] + (["pybind11_json"] + []));
    FirstMissingCons(roots, "xeus", ["xeus-zmq"] + (["pybind11"] + (["pybind11_json"] + [])));
  }

  const AllVars: set<Var> := {
    BuildTesting, BuildSharedLibs, CMakePrefixPath, CMakeVerboseMakefile,
    CMakeConfigurationTypes, OpenMPRoot, PythonFindVersion,
    XeusRoot, XeusZmqRoot, ZeroMQRoot, Pybind11Root, Pybind11JsonRoot,
    BuildXpythonExecutable}

  /** `_get_tc` sets `v` on platform `os`: everything but the configuration
      list outside Linux and OpenMP's root outside Macos. */
  predicate SetOn(os: string, v: Var) {
    match v
    case CMakeConfigurationTypes => os == "Linux"
    case OpenMPRoot => os == "Macos"
    case _ => true
  }

  /** The value of cache variable `v`, for a request whose dependencies are
      all present. */
  function VariableValue(req: Request, v: Var): string
    requires AllPresent(req.roots)
  {
    match v
    case BuildTesting => OnOff(req.testing)
    case BuildSharedLibs => OnOff(req.shared)
    case CMakePrefixPath => req.buildFolder
    case CMakeVerboseMakefile => "ON"
    case CMakeConfigurationTypes => "Debug;Release;RelWithDebInfo"
    case OpenMPRoot => req.libompPrefix
    case PythonFindVersion => "3.11"
    case XeusRoot => req.roots["xeus"]
    case XeusZmqRoot => req.roots["xeus-zmq"]
    case ZeroMQRoot => JoinPath(req.roots["xeus-zmq"], "CMake")
    case Pybind11Root => req.roots["pybind11"]
    case Pybind11JsonRoot => req.roots["pybind11_json"]
    case BuildXpythonExecutable => "ON"
  }

  /** The cache variables for a request whose dependencies are all present. */
  function Variables(req: Request): map<Var, string>
    requires AllPresent(req.roots)
  {
    map v | v in AllVars && SetOn(req.os, v) :: VariableValue(req, v)
  }

  /** A map holding exactly the variables `Variables` holds, each with its
      value, is `Variables`. */
  lemma VariablesByKey(req: Request, m: map<Var, string>)
    requires AllPresent(req.roots)
    requires forall v :: (v in m <==> v in AllVars && SetOn(req.os, v)) && (v in m ==> m[v] == VariableValue(req, v))
    ensures m == Variables(req)
  {
  }

  /** The toolchain `_get_tc` returns, or the missing dependency it raises on. */
  function Toolchain(req: Request): (r: Result<Tc, TcError>)
    ensures r.Ok? <==> AllPresent(req.roots)
    ensures r.Err? ==> r.error.name in Required && r.error.name !in req.roots
  {
    match FirstMissing(req.roots, Required)
    case Some(name) => Err(MissingDependency(name))
    case None => Ok(Tc(Generator(req.os), Variables(req)))
  }

  /** Storing the variables one by one in the recipe's order, with the
      platform-only ones in between, stores exactly `SetOn`'s variables with
      `VariableValue`'s values. */
  lemma StoredInOrder(req: Request)
    requires AllPresent(req.roots)
    ensures
      var common := map[][BuildTesting := OnOff(req.testing)][BuildSharedLibs := OnOff(req.shared)]
        [CMakePrefixPath := req.buildFolder][CMakeVerboseMakefile := "ON"];
      var linux := if req.os == "Linux" then common[CMakeConfigurationTypes := "Debug;Release;RelWithDebInfo"] else common;
      var macos := if req.os == "Macos" then linux[OpenMPRoot := req.libompPrefix] else linux;
      var all := macos[PythonFindVersion := "3.11"][XeusRoot := req.roots["xeus"]]
        [XeusZmqRoot := req.roots["xeus-zmq"]][ZeroMQRoot := JoinPath(req.roots["xeus-zmq"], "CMake")]
        [Pybind11Root := req.roots["pybind11"]][Pybind11JsonRoot := req.roots["pybind11_json"]]
        [BuildXpythonExecutable := "ON"];
      forall v :: (v in all <==> v in AllVars && SetOn(req.os, v)) && (v in all ==> all[v] == VariableValue(req, v))
  {
    var common := map[][BuildTesting := OnOff(req.testing)][BuildSharedLibs := OnOff(req.shared)]
      [CMakePrefixPath := req.buildFolder][CMakeVerboseMakefile := "ON"];
    var linux := if req.os == "Linux" then common[CMakeConfigurationTypes := "Debug;Release;RelWithDebInfo"] else common;
    var macos := if req.os == "Macos" then linux[OpenMPRoot := req.libompPrefix] else linux;
    assert CMakeConfigurationTypes in macos <==> req.os == "Linux";
    assert OpenMPRoot in macos <==> req.os == "Macos";
    var all := macos[PythonFindVersion := "3.11"][XeusRoot := req.roots["xeus"]]
      [XeusZmqRoot := req.roots["xeus-zmq"]][ZeroMQRoot := JoinPath(req.roots["xeus-zmq"], "CMake")]
      [Pybind11Root := req.roots["pybind11"]][Pybind11JsonRoot := req.roots["pybind11_json"]]
      [BuildXpythonExecutable := "ON"];
    forall v
      ensures (v in all <==> v in AllVars && SetOn(req.os, v)) && (v in all ==> all[v] == VariableValue(req, v))
    {
      match v
      case CMakeConfigurationTypes =>
      case OpenMPRoot =>
      case BuildTesting =>
      case BuildSharedLibs =>
      case CMakePrefixPath =>
      case CMakeVerboseMakefile =>
      case PythonFindVersion =>
      case XeusRoot =>
      case XeusZmqRoot =>
      case ZeroMQRoot =>
      case Pybind11Root =>
      case Pybind11JsonRoot =>
      case BuildXpythonExecutable =>
    }
  }

  /** `_get_tc` as the recipe writes it: the generator set per platform, then
      the variables stored key by key, each dependency root looked up as it
      is needed. */
  method GetTc(req: Request) returns (r: Result<Tc, TcError>)
    ensures r == Toolchain(req)
  {
    FirstMissingRequired(req.roots);
    var generator: Option<string> := None;
    if req.os == "Macos" {
      generator := Some("Xcode");
    }
    if req.os == "Linux" {
      generator := Some("Ninja Multi-Config");
    }
    var variables: map<Var, string> := map[];
    variables := variables[BuildTesting := if req.testing then "ON" else "OFF"];
    variables := variables[BuildSharedLibs := if req.shared then "ON" else "OFF"];
    variables := variables[CMakePrefixPath := req.buildFolder];
    variables := variables[CMakeVerboseMakefile := "ON"];
    if req.os == "Linux" {
      variables := variables[CMakeConfigurationTypes := "Debug;Release;RelWithDebInfo"];
    }
    if req.os == "Macos" {
      variables := variables[OpenMPRoot := req.libompPrefix];
    }
    variables := variables[PythonFindVersion := "3.11"];
    if "xeus" !in req.roots {
      return Err(MissingDependency("xeus"));
    }
    var xeusPath := req.roots["xeus"];
    variables := variables[XeusRoot := xeusPath];
    if "xeus-zmq" !in req.roots {
      return Err(MissingDependency("xeus-zmq"));
    }
    var xeusZmqPath := req.roots["xeus-zmq"];
    variables := variables[XeusZmqRoot := xeusZmqPath];
    var zeromqPath := JoinPath(xeusZmqPath, "CMake");
    variables := variables[ZeroMQRoot := zeromqPath];
    if "pybind11" !in req.roots {
      return Err(MissingDependency("pybind11"));
    }
    var pybindPath := req.roots["pybind11"];
    variables := variables[Pybind11Root := pybindPath];
    if "pybind11_json" !in req.roots {
      return Err(MissingDependency("pybind11_json"));
    }
    pybindPath := req.roots["pybind11_json"];
    variables := variables[Pybind11JsonRoot := pybindPath];
    variables := variables[BuildXpythonExecutable := "ON"];
    StoredInOrder(req);
    VariablesByKey(req, variables);
    r := Ok(Tc(generator, variables));
  }

  /** Xcode exactly on Macos, Ninja Multi-Config exactly on Linux, and no
      generator of the recipe's choosing anywhere else. */
  lemma GeneratorPerPlatform(req: Request)
    requires Toolchain(req).Ok?
    ensures var g := Toolchain(req).value.generator;
      && (g == Some("Xcode") <==> req.os == "Macos")
      && (g == Some("Ninja Multi-Config") <==> req.os == "Linux")
      && (g == None <==> req.os != "Macos" && req.os != "Linux")
  {
  }

  /** The variables set on every platform and, on top, Linux's configuration
      list and Macos's OpenMP root: no other key is ever set. */
  lemma VariableKeysPerPlatform(req: Request)
    requires Toolchain(req).Ok?
    ensures forall v :: v in Toolchain(req).value.variables <==>
      || (v != CMakeConfigurationTypes && v != OpenMPRoot)
      || (v == CMakeConfigurationTypes && req.os == "Linux")
      || (v == OpenMPRoot && req.os == "Macos")
  {
  }

  /** `BUILD_TESTING` is ON exactly when `testing` is set, `BUILD_SHARED_LIBS`
      exactly when `shared` is; both are OFF otherwise. */
  lemma TogglesOnOff(req: Request)
    requires Toolchain(req).Ok?
    ensures var vs := Toolchain(req).value.variables;
      && vs[BuildTesting] in {"ON", "OFF"} && (vs[BuildTesting] == "ON" <==> req.testing)
      && vs[BuildSharedLibs] in {"ON", "OFF"} && (vs[BuildSharedLibs] == "ON" <==> req.shared)
  {
  }

  /** Setting `testing` and `shared` anew changes exactly their own two keys:
      the generator, every other variable and the outcome stay the same. */
  lemma TogglesIndependent(req: Request, testing: bool, shared: bool)
    ensures var flipped := req.(testing := testing, shared := shared);
      && Toolchain(flipped).Ok? == Toolchain(req).Ok?
      && (Toolchain(req).Ok? ==>
            && Toolchain(flipped).value.generator == Toolchain(req).value.generator
            && Toolchain(flipped).value.variables == Toolchain(req).value.variables
                 [BuildTesting := OnOff(testing)][BuildSharedLibs := OnOff(shared)])
  {
    var flipped := req.(testing := testing, shared := shared);
    FirstMissingRequired(req.roots);
    if AllPresent(req.roots) {
      var updated := Variables(req)[BuildTesting := OnOff(testing)][BuildSharedLibs := OnOff(shared)];
      VariablesByKey(flipped, updated);
    }
  }

  /** The configuration list is set on Linux only, OpenMP's root on Macos only. */
  lemma PlatformOnlyVariables(req: Request)
    requires Toolchain(req).Ok?
    ensures var vs := Toolchain(req).value.variables;
      && (CMakeConfigurationTypes in vs <==> req.os == "Linux")
      && (req.os == "Linux" ==> vs[CMakeConfigurationTypes] == "Debug;Release;RelWithDebInfo")
      && (OpenMPRoot in vs <==> req.os == "Macos")
      && (req.os == "Macos" ==> vs[OpenMPRoot] == req.libompPrefix)
  {
  }

  /** Each dependency root is forwarded under its own key, ZeroMQ's as the
      `CMake` directory of the xeus-zmq package. */
  lemma DependencyRootsForwarded(req: Request)
    requires Toolchain(req).Ok?
    ensures var vs := Toolchain(req).value.variables;
      && vs[XeusRoot] == req.roots["xeus"]
      && vs[XeusZmqRoot] == req.roots["xeus-zmq"]
      && vs[ZeroMQRoot] == JoinPath(req.roots["xeus-zmq"], "CMake")
      && vs[Pybind11Root] == req.roots["pybind11"]
      && vs[Pybind11JsonRoot] == req.roots["pybind11_json"]
  {
  }

  /** No toolchain at all when a dependency is missing, whatever else is
      supplied: the error names the first missing dependency in lookup
      order, every one looked up before it being present. */
  lemma MissingDependencyFails(req: Request)
    ensures Toolchain(req).Err? <==> exists n :: n in Required && n !in req.roots
    ensures Toolchain(req).Err? ==>
      exists i :: 0 <= i < |Required| && Toolchain(req).error == MissingDependency(Required[i])
        && Required[i] !in req.roots && forall j :: 0 <= j < i ==> Required[j] in req.roots
  {
    FirstMissingRequired(req.roots);
    var rs := req.roots;
    if "xeus" !in rs {
      assert Toolchain(req).error == MissingDependency(Required[0]);
    } else if "xeus-zmq" !in rs {
      assert Toolchain(req).error == MissingDependency(Required[1]);
    } else if "pybind11" !in rs {
      assert Toolchain(req).error == MissingDependency(Required[2]);
    } else if "pybind11_json" !in rs {
      assert Toolchain(req).error == MissingDependency(Required[3]);
    }
  }
}
