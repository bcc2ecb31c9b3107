/** The path helper of the command builder's tests, and the tests' three
    scenarios stated as methods whose postconditions are the tests' assertions. */
module DependencyParserCommandBuilderTest {
  import opened Wrappers
  import opened Text
  import opened DependencyParser

  /** `toUnixStyle`: every backslash becomes a slash, nothing else changes. */
  function ToUnixStyle(path: string): (r: string)
    ensures |r| == |path|
    ensures '\\' !in r
    ensures forall i :: 0 <= i < |path| && path[i] != '\\' ==> r[i] == path[i]
    ensures forall i :: 0 <= i < |path| && path[i] == '\\' ==> r[i] == '/'
  {
    seq(|path|, i requires 0 <= i < |path| => if path[i] == '\\' then '/' else path[i])
  }

  /** Converting a path that is already in Unix style changes nothing. */
  lemma ToUnixStyleIdempotent(path: string)
    ensures ToUnixStyle(ToUnixStyle(path)) == ToUnixStyle(path)
  {
  }

  /** The conversion works character by character, so it distributes over
      concatenation. */
  lemma ToUnixStyleConcat(a: string, b: string)
    ensures ToUnixStyle(a + b) == ToUnixStyle(a) + ToUnixStyle(b)
  {
  }

  /** A path ending with a Windows-style suffix ends, once converted, with the
      converted suffix. */
  lemma ToUnixStyleSuffix(path: string, suffix: string)
    requires IsSuffix(suffix, path)
    ensures IsSuffix(ToUnixStyle(suffix), ToUnixStyle(path))
  {
  }

  // Test fixtures: the executable and the assembly found on the test class
  // path, and the report file.
  const FakeRoot: Path := "C:\\sonar\\dependencyparser-runner\\target\\test-classes"
  const FakeProgSuffix: Path := "\\Runner\\FakeProg\\DependencyParser.exe"
  const FakeExecutable: Path := FakeRoot + FakeProgSuffix
  const FakeAssembly: Path := FakeRoot + "\\Runner\\FakeAssemblies\\Fake1.assembly"
  const ReportFile: Path := "target/sonar/Deps/deps-report.xml"
  const UnexistingAssembly: Path := "target/sonar/Deps/unexisting-assembly.dll"

  /** The fake program under any resource directory, converted, ends as the
      test expects. */
  lemma {:induction false} FakeExecutableInUnixStyle(root: Path)
    ensures IsSuffix("/Runner/FakeProg/DependencyParser.exe", ToUnixStyle(root + FakeProgSuffix))
  {
    var converted := ToUnixStyle(FakeProgSuffix);
    assert converted == "/Runner/FakeProg/DependencyParser.exe" by {
      assert forall i :: 0 <= i < |FakeProgSuffix| ==> converted[i] == "/Runner/FakeProg/DependencyParser.exe"[i];
    }
    ToUnixStyleSuffix(root + FakeProgSuffix, FakeProgSuffix);
  }

  /** The mocked project: only the "Debug" configuration has an artifact. */
  function MockProject(debugArtifact: Option<Path>): (r: VisualStudioProject)
    ensures r.artifact("Debug") == debugArtifact
    ensures forall c :: c != "Debug" ==> r.artifact(c) == None
  {
    VisualStudioProject("FakeProject", (c: string) => if c == "Debug" then debugArtifact else None)
  }

  /** The files present on disk during the tests. */
  predicate OnDisk(p: Path)
  {
    p == FakeExecutable || p == FakeAssembly
  }

  /** What the successful scenario needs to know about its fixtures. */
  lemma VsProjectFixtures()
    ensures OnDisk(FakeAssembly)
    ensures IsSuffix("Fake1.assembly", FakeAssembly)
    ensures IsSuffix("deps-report.xml", ReportFile)
    ensures IsSuffix("/Runner/FakeProg/DependencyParser.exe", ToUnixStyle(FakeExecutable))
  {
    FakeExecutableInUnixStyle(FakeRoot);
  }

  /** A builder set up as the tests' `init` does it. */
  method NewConfiguredBuilder(debugArtifact: Option<Path>) returns (b: DependencyParserCommandBuilder)
    ensures b.project == MockProject(debugArtifact)
    ensures b.executable == Some(FakeExecutable) && b.reportFile == Some(ReportFile)
    ensures b.buildConfiguration == "Debug"
  {
    b := new DependencyParserCommandBuilder.CreateBuilder(MockProject(debugArtifact));
    b.SetExecutable(FakeExecutable);
    b.SetReportFile(ReportFile);
  }

  /** `testToCommandForVSProject`. */
  method TestToCommandForVsProject() returns (r: Result<Command, DependencyParserError>)
    ensures r.Ok?
    ensures IsSuffix("/Runner/FakeProg/DependencyParser.exe", ToUnixStyle(r.value.executable))
    ensures |r.value.arguments| >= 4
    ensures r.value.arguments[0] == "-a" && IsSuffix("Fake1.assembly", r.value.arguments[1])
    ensures r.value.arguments[2] == "-o" && IsSuffix("deps-report.xml", r.value.arguments[3])
  {
    VsProjectFixtures();
    var b := NewConfiguredBuilder(Some(FakeAssembly));
    r := b.ToCommand(OnDisk);
  }

  /** `testToCommandWithNoAssembly`. */
  method TestToCommandWithNoAssembly() returns (r: Result<Command, DependencyParserError>)
    ensures r.Err? && AssemblyNotFound <= r.error.message
  {
    var b := NewConfiguredBuilder(None);
    r := b.ToCommand(OnDisk);
  }

  /** `testToCommandWithUnexistingAssembly`. */
  method TestToCommandWithUnexistingAssembly() returns (r: Result<Command, DependencyParserError>)
    ensures r.Err? && AssemblyNotFound <= r.error.message
  {
    var b := NewConfiguredBuilder(Some(UnexistingAssembly));
    r := b.ToCommand(OnDisk);
  }
}
