/** The `build` step of the recipe: configure, build and install the Debug
    configuration, then configure, build and install the Release one, all
    through one multi-configuration CMake build folder. What CMake does is
    abstracted to whether each invocation succeeds, fails with a Conan
    exception, or fails in any other way. */
module BuildDriver {
  import opened Wrappers

  /** One invocation of CMake as `build` issues them. */
  datatype Step = Configure | Compile(buildType: string) | Install(buildType: string)

  /** How one invocation ends. */
  datatype Outcome = Success | ConanFailure | OtherFailure

  /** The calls `build` makes when nothing escapes, in order. */
  const Schedule: seq<Step> :=
    [Configure, Compile("Debug"), Install("Debug"), Configure, Compile("Release"), Install("Release")]

  /** The outcome of the `i`-th call; calls past the end of `outcomes` succeed. */
  function OutcomeAt(outcomes: seq<Outcome>, i: nat): Outcome {
    if i < |outcomes| then outcomes[i] else Success
  }

  /** Whether a failure of `step` leaves `build`: `_configure_cmake` catches
      a Conan exception from `configure`; every other failure propagates. */
  function Escapes(step: Step, o: Outcome): (e: bool)
    ensures e ==> o != Success
    ensures o == OtherFailure ==> e
    ensures step.Configure? ==> (e <==> o == OtherFailure)
    ensures !step.Configure? ==> (e <==> o != Success)
  {
    o == OtherFailure || (o == ConanFailure && !step.Configure?)
  }

  /** The first call, from position `from` on, whose failure escapes. */
  function FirstEscape(outcomes: seq<Outcome>, from: nat): (r: Option<nat>)
    ensures r.Some? ==> from <= r.value < |Schedule| && Escapes(Schedule[r.value], OutcomeAt(outcomes, r.value))
    ensures r.Some? ==> forall j :: from <= j < r.value ==> !Escapes(Schedule[j], OutcomeAt(outcomes, j))
    ensures r.None? ==> forall j :: from <= j < |Schedule| ==> !Escapes(Schedule[j], OutcomeAt(outcomes, j))
    decreases |Schedule| - from
  {
    if from >= |Schedule| then None
    else if Escapes(Schedule[from], OutcomeAt(outcomes, from)) then Some(from)
    else FirstEscape(outcomes, from + 1)
  }

  /** What `build` did: the calls made, and the position of the call whose
      exception left `build`, if any. */
  datatype BuildRun = BuildRun(trace: seq<Step>, escapedAt: Option<nat>)

  /** The reference run: the schedule up to and including the first call
      whose failure escapes. */
  function Run(outcomes: seq<Outcome>): (r: BuildRun)
    ensures 0 < |r.trace| <= |Schedule| && r.trace == Schedule[..|r.trace|]
    ensures r.escapedAt.None? ==> r.trace == Schedule
    ensures r.escapedAt.Some? ==> r.escapedAt.value == |r.trace| - 1
  {
    match FirstEscape(outcomes, 0)
    case None => BuildRun(Schedule, None)
    case Some(i) => BuildRun(Schedule[..i + 1], Some(i))
  }

  /** `_configure_cmake`: a Conan exception from `configure` is printed and
      swallowed, anything else escapes. */
  method ConfigureCMake(o: Outcome) returns (escaped: bool)
    ensures escaped <==> Escapes(Configure, o)
  {
    match o
    case Success => escaped := false;
    case ConanFailure => escaped := false;
    case OtherFailure => escaped := true;
  }

  /** `cmake.build` or `cmake.install`: any exception escapes. */
  method Invoke(step: Step, o: Outcome) returns (escaped: bool)
    requires !step.Configure?
    ensures escaped <==> Escapes(step, o)
  {
    escaped := o != Success;
  }

  /** `build` as the recipe writes it: Debug built and installed before
      Release is configured, each escaping exception ending the step. */
  method Build(outcomes: seq<Outcome>) returns (trace: seq<Step>, escapedAt: Option<nat>)
    ensures BuildRun(trace, escapedAt) == Run(outcomes)
  {
    var escaped := ConfigureCMake(OutcomeAt(outcomes, 0));
    trace := [Configure];
    if escaped {
      assert Schedule[..1] == trace;
      return trace, Some(0);
    }
    escaped := Invoke(Compile("Debug"), OutcomeAt(outcomes, 1));
    trace := trace + [Compile("Debug")];
    if escaped {
      assert Schedule[..2] == trace;
      return trace, Some(1);
    }
    escaped := Invoke(Install("Debug"), OutcomeAt(outcomes, 2));
    trace := trace + [Install("Debug")];
    if escaped {
      assert Schedule[..3] == trace;
      return trace, Some(2);
    }
    escaped := ConfigureCMake(OutcomeAt(outcomes, 3));
    trace := trace + [Configure];
    if escaped {
      assert Schedule[..4] == trace;
      return trace, Some(3);
    }
    escaped := Invoke(Compile("Release"), OutcomeAt(outcomes, 4));
    trace := trace + [Compile("Release")];
    if escaped {
      assert Schedule[..5] == trace;
      return trace, Some(4);
    }
    escaped := Invoke(Install("Release"), OutcomeAt(outcomes, 5));
    trace := trace + [Install("Release")];
    if escaped {
      assert Schedule[..6] == trace;
      return trace, Some(5);
    }
    escapedAt := None;
  }

  /** The build type a call works on, if any. */
  function TypeOf(step: Step): Option<string> {
    match step
    case Configure => None
    case Compile(t) => Some(t)
    case Install(t) => Some(t)
  }

  /** Every Debug call comes strictly before every Release call, and Release
      is only built once Debug has been built and installed. */
  lemma {:induction false} DebugBeforeRelease(outcomes: seq<Outcome>)
    ensures var t := Run(outcomes).trace;
            && (forall i, j ::
                  (0 <= i < |t| && 0 <= j < |t| && TypeOf(t[i]) == Some("Debug") && TypeOf(t[j]) == Some("Release"))
                  ==> i < j)
            && (Compile("Release") in t ==> Compile("Debug") in t && Install("Debug") in t)
  {
    var t := Run(outcomes).trace;
    assert t == Schedule[..|t|];
    forall i, j | 0 <= i < |t| && 0 <= j < |t| && TypeOf(t[i]) == Some("Debug") && TypeOf(t[j]) == Some("Release")
      ensures i < j
    {
      assert t[i] == Schedule[i] && t[j] == Schedule[j];
      assert i == 1 || i == 2;
      assert j == 4 || j == 5;
    }
    if Compile("Release") in t {
      var j :| 0 <= j < |t| && t[j] == Compile("Release");
      assert t[j] == Schedule[j];
      assert j == 4;
      assert t[1] == Schedule[1] && t[2] == Schedule[2];
    }
  }

  /** A configure that fails with a Conan exception does not stop the build:
      when no call fails otherwise, every call of the schedule is made. */
  lemma ConfigureFailuresSwallowed(outcomes: seq<Outcome>)
    requires forall i :: 0 <= i < |outcomes| ==> outcomes[i] != OtherFailure
    requires forall i :: 0 <= i < |outcomes| && outcomes[i] == ConanFailure ==> i == 0 || i == 3
    ensures Run(outcomes) == BuildRun(Schedule, None)
  {
    if FirstEscape(outcomes, 0).Some? {
      assert false;
    }
  }

  /** The build completes exactly when no call fails in a way that escapes;
      otherwise it stops right after the first such call, with every call
      before it made and none after. */
  lemma BuildStopsAtFirstEscape(outcomes: seq<Outcome>)
    ensures Run(outcomes).escapedAt.None? <==>
            forall j :: 0 <= j < |Schedule| ==> !Escapes(Schedule[j], OutcomeAt(outcomes, j))
    ensures Run(outcomes).escapedAt.Some? ==>
            var i := Run(outcomes).escapedAt.value;
            && i < |Schedule|
            && Run(outcomes).trace == Schedule[..i + 1]
            && Escapes(Schedule[i], OutcomeAt(outcomes, i))
            && forall j :: 0 <= j < i ==> !Escapes(Schedule[j], OutcomeAt(outcomes, j))
  {
  }
}
