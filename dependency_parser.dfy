/** The builder of the command line that runs DependencyParser.exe over one
    Visual Studio project: `DependencyParser.exe -a <assembly> -o <report>`. */
module DependencyParser {
  import opened Wrappers
  import opened Text

  type Path = string

  /** A Visual Studio project as the builder sees it: its name and, per build
      configuration name, the compiled assembly if the project has one. */
  datatype VisualStudioProject = VisualStudioProject(name: string, artifact: string -> Option<Path>)

  /** A process invocation: the program and its arguments, in order. */
  datatype Command = Command(executable: Path, arguments: seq<string>)

  datatype DependencyParserError = DependencyParserException(message: string)

  /** The build configuration whose assembly is scanned. */
  const DefaultBuildConfiguration: string := "Debug"

  const AssemblyNotFound: string := "Assembly to scan not found for project"

  /** The message of the error raised when the assembly is missing: the fixed
      text, followed by the project's name. */
  function MissingAssemblyMessage(projectName: string): (m: string)
    ensures AssemblyNotFound <= m
    ensures Contains(m, projectName)
  {
    var head := AssemblyNotFound + " ";
    ContainsPrefix(projectName, []);
    assert projectName + [] == projectName;
    ContainsAfter(head, projectName, projectName);
    assert AssemblyNotFound <= head;
    head + projectName
  }

  class DependencyParserCommandBuilder {
    var project: VisualStudioProject
    var executable: Option<Path>
    var reportFile: Option<Path>
    var buildConfiguration: string

    /** `createBuilder(solution, project)`: a builder for the project, with no
        executable and no report file yet, scanning the "Debug" assembly. */
    constructor CreateBuilder(project: VisualStudioProject)
      ensures this.project == project
      ensures executable == None && reportFile == None
      ensures buildConfiguration == DefaultBuildConfiguration
    {
      this.project := project;
      executable := None;
      reportFile := None;
      buildConfiguration := DefaultBuildConfiguration;
    }

    /** `setExecutable`: the program the command will run. */
    method SetExecutable(executable: Path)
      modifies this
      ensures this.executable == Some(executable)
      ensures project == old(project) && reportFile == old(reportFile)
      ensures buildConfiguration == old(buildConfiguration)
    {
      this.executable := Some(executable);
    }

    /** `setReportFile`: where DependencyParser.exe writes its report. */
    method SetReportFile(reportFile: Path)
      modifies this
      ensures this.reportFile == Some(reportFile)
      ensures project == old(project) && executable == old(executable)
      ensures buildConfiguration == old(buildConfiguration)
    {
      this.reportFile := Some(reportFile);
    }

    /** `toCommand`: `<executable> -a <assembly> -o <report>` where the assembly
        is the project's artifact for the builder's build configuration. An
        absent artifact and an artifact that does not exist (`fileExists` is
        the file system's existence check) are both the same error. */
    method ToCommand(fileExists: Path -> bool) returns (r: Result<Command, DependencyParserError>)
      requires executable.Some? && reportFile.Some?
      ensures r.Ok? <==> (project.artifact(buildConfiguration).Some?
                          && fileExists(project.artifact(buildConfiguration).value))
      ensures r.Ok? ==> r.value.executable == executable.value
      ensures r.Ok? ==> r.value.arguments == ["-a", project.artifact(buildConfiguration).value, "-o", reportFile.value]
      ensures r.Err? ==> (AssemblyNotFound <= r.error.message && Contains(r.error.message, project.name))
    {
      var assemblyToScan := project.artifact(buildConfiguration);
      if assemblyToScan.None? || !fileExists(assemblyToScan.value) {
        return Err(DependencyParserException(MissingAssemblyMessage(project.name)));
      }
      var arguments := ["-a", assemblyToScan.value, "-o", reportFile.value];
      r := Ok(Command(executable.value, arguments));
    }
  }
}
