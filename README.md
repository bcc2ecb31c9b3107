# sonar-dotnet build helpers in Dafny

This project models two small parts of the Maven plugin for .NET and of its
DependencyParser runner:

- **MSBuild executable resolution** (`AbstractDotNetBuildMojo.getMsBuildCommand`).
  The configured tool version picks an SDK directory. An exact `"2.0"` picks the
  2.0 directory and an exact `"4.0"` picks the 4.0 directory. Anything else,
  including an unset version, picks the 3.5 directory. `MSBuild.exe` is joined to
  that directory. The step fails with a `MojoExecutionException` when the file is
  missing. The message quotes the version and the three property keys.
- **Build-configuration list** (`AbstractDotNetBuildMojo.getBuildConfigurations`).
  The `buildConfigurations` setting is split on `,`, `;` and space into configuration
  names. An unset or empty setting gives an empty list.
- **DependencyParser command builder**. The builder is configured through
  `setExecutable` and `setReportFile`. `toCommand` produces
  `<executable> -a <assembly> -o <report>`. The assembly is the project's artifact
  for the `"Debug"` build configuration. A missing artifact and an artifact that
  does not exist on disk both raise a `DependencyParserException` with the message
  "Assembly to scan not found for project". The source of the builder is not part
  of this model. Its behaviour is taken from its unit test, which is modelled too,
  together with the test's `toUnixStyle` path helper.

Layout:

- `wrappers.dfy` (module `Wrappers`): `Option` stands for a nullable Java reference.
  `Result` stands for a value or a thrown exception.
- `text.dfy` (module `Text`): `IsSuffix` and `Contains` (Java's `endsWith` and
  `contains`), with the lemmas used to show what a message contains.
- `build_mojo.dfy` (module `DotNetBuildMojo`): the configuration record, the version
  selection, path joining, `GetMsBuildCommand`, the tokeniser `Split` and
  `GetBuildConfigurations`.
- `dependency_parser.dfy` (module `DependencyParser`): the project, the command and
  the class `DependencyParserCommandBuilder`.
- `builder_test.dfy` (module `DependencyParserCommandBuilderTest`): `ToUnixStyle` and
  the three test scenarios. Each scenario is a method whose postcondition is the
  test's assertions.

The existence of a file on disk is the parameter `fileExists: Path -> bool`.
The framework-injected fields become the datatype `BuildConfig`.

## Model

| member | source | states |
|---|---|---|
| DotNetBuildMojo.SelectedSdk | maven/maven-dotnet-plugin/src/main/java/org/apache/maven/dotnet/AbstractDotNetBuildMojo.java:93-98 | the 2.0 SDK is selected iff the version is exactly "2.0"; the 4.0 SDK iff exactly "4.0"; the 3.5 SDK iff neither, an unset version included |
| DotNetBuildMojo.SelectedSdkOfName | maven/maven-dotnet-plugin/src/main/java/org/apache/maven/dotnet/AbstractDotNetBuildMojo.java:64-70 | each documented version string ("2.0", "3.5", "4.0") selects its own SDK |
| DotNetBuildMojo.JoinPath | maven/maven-dotnet-plugin/src/main/java/org/apache/maven/dotnet/AbstractDotNetBuildMojo.java:94 | the joined path starts with the whole directory and ends with a separator followed by the file name; its length is the two lengths plus zero or one separator, so the name never overlaps the directory |
| DotNetBuildMojo.LastSegmentOfJoin | maven/maven-dotnet-plugin/src/main/java/org/apache/maven/dotnet/AbstractDotNetBuildMojo.java:91-98 | the file name of a directory joined with a plain name is that name (joining can be undone) |
| DotNetBuildMojo.MsBuildCandidate | maven/maven-dotnet-plugin/src/main/java/org/apache/maven/dotnet/AbstractDotNetBuildMojo.java:91-98 | the candidate file lies under the directory of the selected SDK and its file name is "MSBuild.exe" |
| DotNetBuildMojo.VersionText | maven/maven-dotnet-plugin/src/main/java/org/apache/maven/dotnet/AbstractDotNetBuildMojo.java:103-104 | a set tool version is quoted as it is; an unset one is printed as "null", as Java string concatenation does |
| DotNetBuildMojo.MsBuildCandidateSelection | maven/maven-dotnet-plugin/src/main/java/org/apache/maven/dotnet/AbstractDotNetBuildMojo.java:91-98 | the candidate is the 2.0, 4.0 or (otherwise) 3.5 directory joined with "MSBuild.exe", and its file name is "MSBuild.exe" |
| DotNetBuildMojo.MissingMsBuildMessage | maven/maven-dotnet-plugin/src/main/java/org/apache/maven/dotnet/AbstractDotNetBuildMojo.java:102-107 | the error message contains the requested version and the keys dotnet.2.0.sdk.directory, dotnet.3.5.sdk.directory and dotnet.4.0.sdk.directory |
| DotNetBuildMojo.GetMsBuildCommand | maven/maven-dotnet-plugin/src/main/java/org/apache/maven/dotnet/AbstractDotNetBuildMojo.java:88-110 | resolution fails iff the candidate does not exist; on success it returns exactly the candidate; the failure message quotes the version ("null" when unset) and names all three keys |
| DotNetBuildMojo.UnknownVersionFallsBackTo35 | maven/maven-dotnet-plugin/src/main/java/org/apache/maven/dotnet/AbstractDotNetBuildMojo.java:97-98 | any version other than "2.0" and "4.0" succeeds or fails exactly as "3.5" does, and on success gives the same executable |
| DotNetBuildMojo.OnlySelectedDirectoryMatters | maven/maven-dotnet-plugin/src/main/java/org/apache/maven/dotnet/AbstractDotNetBuildMojo.java:93-109 | two configurations with the same version and the same selected directory resolve identically, whatever the other two directories hold |
| DotNetBuildMojo.Split | maven/maven-dotnet-plugin/src/main/java/org/apache/maven/dotnet/AbstractDotNetBuildMojo.java:122 | every token is non-empty and free of ",", ";" and space; input starting with a name yields a first token starting with that character |
| DotNetBuildMojo.SplitKeepsCharacters | maven/maven-dotnet-plugin/src/main/java/org/apache/maven/dotnet/AbstractDotNetBuildMojo.java:122 | the tokens written one after the other are the input with every separator removed, so they keep input order |
| DotNetBuildMojo.SplitSkipsSeparators | maven/maven-dotnet-plugin/src/main/java/org/apache/maven/dotnet/AbstractDotNetBuildMojo.java:122 | any run of leading separators produces no token |
| DotNetBuildMojo.SplitToken | maven/maven-dotnet-plugin/src/main/java/org/apache/maven/dotnet/AbstractDotNetBuildMojo.java:122 | a name followed by a separator or by the end of input is split off whole, as the first token |
| DotNetBuildMojo.SplitTokenThenSeparators | maven/maven-dotnet-plugin/src/main/java/org/apache/maven/dotnet/AbstractDotNetBuildMojo.java:122 | a name followed by a run of several separators gives that name and then the tokens of the rest (adjacent separators count as one) |
| DotNetBuildMojo.SplitJoinTokens | maven/maven-dotnet-plugin/src/main/java/org/apache/maven/dotnet/AbstractDotNetBuildMojo.java:122 | names joined with any one of the separators split back into exactly the same list |
| DotNetBuildMojo.SplitFourNames | maven/maven-dotnet-plugin/src/main/java/org/apache/maven/dotnet/AbstractDotNetBuildMojo.java:122 | four names separated by ",", "; " and " " split into those four names in order |
| DotNetBuildMojo.GetBuildConfigurations | maven/maven-dotnet-plugin/src/main/java/org/apache/maven/dotnet/AbstractDotNetBuildMojo.java:117-125 | an unset or empty setting gives the empty list; a set value gives exactly `Split` of it (names break only at separators), so every name is a non-empty separator-free token and together they are the setting with its separators removed |
| DotNetBuildMojo.BuildConfigurationsExample | maven/maven-dotnet-plugin/src/main/java/org/apache/maven/dotnet/AbstractDotNetBuildMojo.java:117-124 | "Debug,Release; Test x86" gives ["Debug", "Release", "Test", "x86"] |
| DependencyParser.MissingAssemblyMessage | tools/dependencyparser-runner/src/test/java/org/sonar/dotnet/tools/dependencyparser/DependencyParserCommandBuilderTest.java:79-80 | the message starts with "Assembly to scan not found for project" and contains the project name |
| DependencyParser.DependencyParserCommandBuilder.CreateBuilder | tools/dependencyparser-runner/src/test/java/org/sonar/dotnet/tools/dependencyparser/DependencyParserCommandBuilderTest.java:57-59 | a new builder holds the project, no executable, no report file, and scans the "Debug" configuration |
| DependencyParser.DependencyParserCommandBuilder.SetExecutable | tools/dependencyparser-runner/src/test/java/org/sonar/dotnet/tools/dependencyparser/DependencyParserCommandBuilderTest.java:60 | sets the executable and leaves every other field unchanged |
| DependencyParser.DependencyParserCommandBuilder.SetReportFile | tools/dependencyparser-runner/src/test/java/org/sonar/dotnet/tools/dependencyparser/DependencyParserCommandBuilderTest.java:61 | sets the report file and leaves every other field unchanged |
| DependencyParser.DependencyParserCommandBuilder.ToCommand | tools/dependencyparser-runner/src/test/java/org/sonar/dotnet/tools/dependencyparser/DependencyParserCommandBuilderTest.java:64-91 | succeeds iff the artifact for the configuration is present and exists; then the executable is the configured one and the arguments are exactly "-a", the artifact, "-o", the report file; otherwise the error message starts with "Assembly to scan not found for project" and names the project |
| DependencyParserCommandBuilderTest.ToUnixStyle | tools/dependencyparser-runner/src/test/java/org/sonar/dotnet/tools/dependencyparser/DependencyParserCommandBuilderTest.java:93-95 | the result has the input's length and no backslash; every other character is unchanged and every backslash became "/" |
| DependencyParserCommandBuilderTest.ToUnixStyleIdempotent | tools/dependencyparser-runner/src/test/java/org/sonar/dotnet/tools/dependencyparser/DependencyParserCommandBuilderTest.java:93-95 | converting twice is converting once |
| DependencyParserCommandBuilderTest.ToUnixStyleConcat | tools/dependencyparser-runner/src/test/java/org/sonar/dotnet/tools/dependencyparser/DependencyParserCommandBuilderTest.java:93-95 | the conversion of a concatenation is the concatenation of the conversions |
| DependencyParserCommandBuilderTest.ToUnixStyleSuffix | tools/dependencyparser-runner/src/test/java/org/sonar/dotnet/tools/dependencyparser/DependencyParserCommandBuilderTest.java:67 | a path ending with a suffix ends, once converted, with the converted suffix |
| DependencyParserCommandBuilderTest.FakeExecutableInUnixStyle | tools/dependencyparser-runner/src/test/java/org/sonar/dotnet/tools/dependencyparser/DependencyParserCommandBuilderTest.java:67 | the fake program under any resource directory, written Windows-style and converted, ends with "/Runner/FakeProg/DependencyParser.exe" |
| DependencyParserCommandBuilderTest.MockProject | tools/dependencyparser-runner/src/test/java/org/sonar/dotnet/tools/dependencyparser/DependencyParserCommandBuilderTest.java:57-58 | the mocked project answers the "Debug" configuration with the stubbed artifact and every other configuration with none (Mockito's null) |
| DependencyParserCommandBuilderTest.NewConfiguredBuilder | tools/dependencyparser-runner/src/test/java/org/sonar/dotnet/tools/dependencyparser/DependencyParserCommandBuilderTest.java:55-62 | the test setup yields a builder over the mocked project, with the fixture executable and report file, scanning "Debug" |
| DependencyParserCommandBuilderTest.TestToCommandForVsProject | tools/dependencyparser-runner/src/test/java/org/sonar/dotnet/tools/dependencyparser/DependencyParserCommandBuilderTest.java:64-73 | with an existing Debug assembly the command succeeds; its executable ends with the fake program; its arguments are "-a", ...Fake1.assembly, "-o", ...deps-report.xml |
| DependencyParserCommandBuilderTest.TestToCommandWithNoAssembly | tools/dependencyparser-runner/src/test/java/org/sonar/dotnet/tools/dependencyparser/DependencyParserCommandBuilderTest.java:75-82 | with no Debug artifact the command fails with the "Assembly to scan not found for project" message |
| DependencyParserCommandBuilderTest.TestToCommandWithUnexistingAssembly | tools/dependencyparser-runner/src/test/java/org/sonar/dotnet/tools/dependencyparser/DependencyParserCommandBuilderTest.java:84-91 | with a Debug artifact missing from disk the command fails with the same message |

## Left out

- Maven parameter injection and the `default-value`s of the SDK directories and of the tool version: the configuration is the explicit record `BuildConfig`. A directory left unset (Java null) is not modelled.
- `parallelBuild`: it is declared but not read by the modelled code. The `/m` switch belongs to the external MSBuild run.
- File-system behaviour: `File.exists()` is the parameter `fileExists`. `new File(dir, name)` is `JoinPath` with `/` as the only separator. Platform separators, path normalisation and `getAbsolutePath` are not modelled. Paths are used as given.
- `DotNetBuildMojo.JoinPath`: an empty directory yields `/MSBuild.exe`, Java's Unix default parent. Windows drive-relative resolution is not modelled.
- Exceptions: `MojoExecutionException` and `DependencyParserException` are error variants carrying a message. Nothing is thrown.
- The source of `DependencyParserCommandBuilder` is not part of this model. Its contract comes from its test. The `solution` argument of `createBuilder` is dropped because the test passes null. A setter for the build configuration is not modelled because the test uses the default "Debug" throughout.
- `DependencyParser.DependencyParserCommandBuilder.ToCommand`: the error message is modelled as the fixed text, a space, and the project name. The test only pins the fixed text. The contract promises the fixed text as a prefix and the project name somewhere in the message, not the exact format.
- `DependencyParser.DependencyParserCommandBuilder.ToCommand` requires the executable and the report file to be set. Calling it earlier would end in a Java `NullPointerException`, which is not modelled as an error.
- `AbstractDotNetMojo` (where `buildConfigurations` is declared) and `VisualStudioProject` are not part of this model. A project is its name plus a function from configuration name to an optional artifact path.
- Test scaffolding: JUnit, Mockito and `TestUtils.getResource`. The class-path resources are fixed Windows-style fixture paths.
- Running MSBuild.exe or DependencyParser.exe, and reading or writing the report file.
