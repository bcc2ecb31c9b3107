/** The base of every MSBuild-related build step: which MSBuild.exe to run for the
    configured SDK version, and which build configurations ("Debug", "Release", ...)
    the step was asked to build. The host framework's parameter injection is
    replaced by an explicit configuration record. */
module DotNetBuildMojo {
  import opened Wrappers
  import opened Text

  type Path = string

  /** Separator written between a directory and a file name. */
  const Separator: char := '/'

  /** The fixed file name of the build tool inside an SDK directory. */
  const MsBuildExe: string := "MSBuild.exe"

  const Sdk20Key: string := "dotnet.2.0.sdk.directory"
  const Sdk35Key: string := "dotnet.3.5.sdk.directory"
  const Sdk40Key: string := "dotnet.4.0.sdk.directory"

  /** The injected parameters the two operations read. `toolVersion` and
      `buildConfigurations` may be unset (`None`, Java's null). */
  datatype BuildConfig = BuildConfig(
    sdk20Directory: string,
    sdk35Directory: string,
    sdk40Directory: string,
    toolVersion: Option<string>,
    buildConfigurations: Option<string>)

  datatype MojoError = MojoExecutionException(message: string)

  /** The SDK versions that have a directory of their own. */
  datatype SdkVersion = Sdk20 | Sdk35 | Sdk40

  /** The version string that names each SDK. */
  function VersionName(k: SdkVersion): (r: string)
  {
    match k
    case Sdk20 => "2.0"
    case Sdk35 => "3.5"
    case Sdk40 => "4.0"
  }

  /** Which SDK a configured tool version selects: exact matches of "2.0" and
      "4.0" select their own SDK, everything else (including unset) falls back
      to 3.5. */
  function SelectedSdk(toolVersion: Option<string>): (k: SdkVersion)
    ensures k == Sdk20 <==> toolVersion == Some("2.0")
    ensures k == Sdk40 <==> toolVersion == Some("4.0")
    ensures k == Sdk35 <==> toolVersion != Some("2.0") && toolVersion != Some("4.0")
  {
    if toolVersion == Some("2.0") then Sdk20
    else if toolVersion == Some("4.0") then Sdk40
    else Sdk35
  }

  /** Naming an SDK by its own version string selects that SDK. */
  lemma SelectedSdkOfName(k: SdkVersion)
    ensures SelectedSdk(Some(VersionName(k))) == k
  {
  }

  /** The configured installation directory of an SDK. */
  function SdkDirectory(cfg: BuildConfig, k: SdkVersion): (r: string)
  {
    match k
    case Sdk20 => cfg.sdk20Directory
    case Sdk35 => cfg.sdk35Directory
    case Sdk40 => cfg.sdk40Directory
  }

  /** `new File(dir, name)`: the name placed inside the directory. An empty
      directory stands for the root. */
  function JoinPath(dir: string, name: string): (p: Path)
    ensures dir <= p
    ensures IsSuffix(name, p)
    ensures |p| > |name| && p[|p| - |name| - 1] == Separator
    ensures |dir| + |name| <= |p| <= |dir| + 1 + |name|
  {
    if |dir| > 0 && dir[|dir| - 1] == Separator then dir + name
    else dir + [Separator] + name
  }

  /** The file-name part of a path: everything after its last separator. */
  function LastSegment(p: Path): (name: string)
    ensures Separator !in name
    ensures IsSuffix(name, p)
  {
    if p == [] then []
    else if p[|p| - 1] == Separator then []
    else LastSegment(p[..|p| - 1]) + [p[|p| - 1]]
  }

  lemma {:induction false} LastSegmentAfterSeparator(prefix: string, name: string)
    requires Separator !in name
    ensures LastSegment(prefix + [Separator] + name) == name
  {
    var p := prefix + [Separator] + name;
    if name != [] {
      var init := name[..|name| - 1];
      assert p[..|p| - 1] == prefix + [Separator] + init;
      assert p[|p| - 1] == name[|name| - 1];
      LastSegmentAfterSeparator(prefix, init);
      assert init + [name[|name| - 1]] == name;
    }
  }

  /** Joining a plain file name to a directory can be undone: the file name
      of the joined path is the name that was joined. */
  lemma {:induction false} LastSegmentOfJoin(dir: string, name: string)
    requires Separator !in name
    ensures LastSegment(JoinPath(dir, name)) == name
  {
    if |dir| > 0 && dir[|dir| - 1] == Separator {
      var prefix := dir[..|dir| - 1];
      assert dir == prefix + [Separator];
      LastSegmentAfterSeparator(prefix, name);
    } else {
      LastSegmentAfterSeparator(dir, name);
    }
  }

  /** The path checked for MSBuild.exe: the selected SDK directory joined with
      the fixed executable name. */
  function MsBuildCandidate(cfg: BuildConfig): (r: Path)
    ensures SdkDirectory(cfg, SelectedSdk(cfg.toolVersion)) <= r
    ensures LastSegment(r) == MsBuildExe
  {
    var dir := SdkDirectory(cfg, SelectedSdk(cfg.toolVersion));
    LastSegmentOfJoin(dir, MsBuildExe);
    JoinPath(dir, MsBuildExe)
  }

  /** How the tool version appears in a message: Java's string concatenation
      prints an unset value as "null". */
  function VersionText(toolVersion: Option<string>): (r: string)
    ensures toolVersion.Some? ==> r == toolVersion.value
    ensures toolVersion.None? ==> r == "null"
  {
    match toolVersion
    case None => "null"
    case Some(v) => v
  }

  /** The message of the error raised when MSBuild.exe is missing: it names
      the requested version and all three directory keys. */
  function MissingMsBuildMessage(version: string): (m: string)
    ensures Contains(m, version)
    ensures Contains(m, Sdk20Key) && Contains(m, Sdk35Key) && Contains(m, Sdk40Key)
  {
    var head := "Could not find the MSBuild executable for the version ";
    var please := ". Please ensure you have properly defined the properties '";
    var or := "' or '";
    var tail := "'";
    var from40 := Sdk40Key + tail;
    var from35 := Sdk35Key + (or + from40);
    var from20 := Sdk20Key + (or + from35);
    var fromVersion := version + (please + from20);
    ContainsPrefix(Sdk40Key, tail);
    ContainsPrefix(Sdk35Key, or + from40);
    ContainsPrefix(Sdk20Key, or + from35);
    ContainsPrefix(version, please + from20);
    ContainsAfter(or, from40, Sdk40Key);
    ContainsAfter(Sdk35Key, or + from40, Sdk40Key);
    ContainsAfter(or, from35, Sdk40Key);
    ContainsAfter(or, from35, Sdk35Key);
    ContainsAfter(Sdk20Key, or + from35, Sdk40Key);
    ContainsAfter(Sdk20Key, or + from35, Sdk35Key);
    ContainsAfter(please, from20, Sdk40Key);
    ContainsAfter(please, from20, Sdk35Key);
    ContainsAfter(please, from20, Sdk20Key);
    ContainsAfter(version, please + from20, Sdk40Key);
    ContainsAfter(version, please + from20, Sdk35Key);
    ContainsAfter(version, please + from20, Sdk20Key);
    ContainsAfter(head, fromVersion, Sdk40Key);
    ContainsAfter(head, fromVersion, Sdk35Key);
    ContainsAfter(head, fromVersion, Sdk20Key);
    ContainsAfter(head, fromVersion, version);
    head + fromVersion
  }

  /** `getMsBuildCommand`: the MSBuild executable for the configured version,
      or an error naming the version and the keys when it does not exist.
      `fileExists` is the file system's existence check. */
  function GetMsBuildCommand(cfg: BuildConfig, fileExists: Path -> bool): (r: Result<Path, MojoError>)
    ensures r.Ok? <==> fileExists(MsBuildCandidate(cfg))
    ensures r.Ok? ==> r.value == MsBuildCandidate(cfg)
    ensures r.Err? ==> Contains(r.error.message, VersionText(cfg.toolVersion))
    ensures r.Err? ==> (Contains(r.error.message, Sdk20Key)
                        && Contains(r.error.message, Sdk35Key)
                        && Contains(r.error.message, Sdk40Key))
  {
    var executable := MsBuildCandidate(cfg);
    if !fileExists(executable) then Err(MojoExecutionException(MissingMsBuildMessage(VersionText(cfg.toolVersion))))
    else Ok(executable)
  }

  /** The candidate lies in the directory chosen by exact match on the version,
      with the 3.5 directory as the fallback, and its file name is MSBuild.exe. */
  lemma MsBuildCandidateSelection(cfg: BuildConfig)
    ensures cfg.toolVersion == Some("2.0") ==> MsBuildCandidate(cfg) == JoinPath(cfg.sdk20Directory, MsBuildExe)
    ensures cfg.toolVersion == Some("4.0") ==> MsBuildCandidate(cfg) == JoinPath(cfg.sdk40Directory, MsBuildExe)
    ensures (cfg.toolVersion != Some("2.0") && cfg.toolVersion != Some("4.0")) ==>
              MsBuildCandidate(cfg) == JoinPath(cfg.sdk35Directory, MsBuildExe)
    ensures LastSegment(MsBuildCandidate(cfg)) == MsBuildExe
  {
  }

  /** Any version string other than "2.0" and "4.0" resolves exactly as "3.5"
      does; only the version quoted in the error message differs. */
  lemma UnknownVersionFallsBackTo35(cfg: BuildConfig, fileExists: Path -> bool)
    requires cfg.toolVersion != Some("2.0") && cfg.toolVersion != Some("4.0")
    ensures GetMsBuildCommand(cfg, fileExists).Ok? == GetMsBuildCommand(cfg.(toolVersion := Some("3.5")), fileExists).Ok?
    ensures GetMsBuildCommand(cfg, fileExists).Ok? ==>
              GetMsBuildCommand(cfg, fileExists) == GetMsBuildCommand(cfg.(toolVersion := Some("3.5")), fileExists)
  {
  }

  /** Resolution reads only the directory of the selected SDK: the other two
      directories may hold anything. */
  lemma OnlySelectedDirectoryMatters(cfg: BuildConfig, other: BuildConfig, fileExists: Path -> bool)
    requires other.toolVersion == cfg.toolVersion
    requires SdkDirectory(other, SelectedSdk(other.toolVersion)) == SdkDirectory(cfg, SelectedSdk(cfg.toolVersion))
    ensures GetMsBuildCommand(other, fileExists) == GetMsBuildCommand(cfg, fileExists)
  {
  }

  // ---------------------------------------------------------------------------
  // Build configurations

  /** The characters `StringUtils.split(s, ",; ")` splits on. */
  predicate IsSeparator(c: char)
  {
    c == ',' || c == ';' || c == ' '
  }

  /** A configuration name: non-empty and free of separators. */
  predicate IsToken(t: string)
  {
    |t| > 0 && forall i :: 0 <= i < |t| ==> !IsSeparator(t[i])
  }

  /** The maximal runs of non-separator characters of `s`, in order: adjacent
      separators count as one and no empty token is produced. */
  function Split(s: string): (r: seq<string>)
    ensures forall i :: 0 <= i < |r| ==> IsToken(r[i])
    ensures |s| > 0 && !IsSeparator(s[0]) ==> |r| > 0 && |r[0]| > 0 && r[0][0] == s[0]
  {
    if s == [] then []
    else if IsSeparator(s[0]) then Split(s[1..])
    else
      var rest := Split(s[1..]);
      if |s| > 1 && !IsSeparator(s[1]) then [[s[0]] + rest[0]] + rest[1..]
      else [[s[0]]] + rest
  }

  /** The tokens written one after the other. */
  function Concat(ts: seq<string>): (r: string)
  {
    if ts == [] then [] else ts[0] + Concat(ts[1..])
  }

  /** The input with every separator deleted. */
  function RemoveSeparators(s: string): (r: string)
  {
    if s == [] then []
    else if IsSeparator(s[0]) then RemoveSeparators(s[1..])
    else [s[0]] + RemoveSeparators(s[1..])
  }

  /** The tokens hold exactly the non-separator characters of the input, in
      input order. */
  lemma {:induction false} SplitKeepsCharacters(s: string)
    ensures Concat(Split(s)) == RemoveSeparators(s)
  {
    if s != [] {
      SplitKeepsCharacters(s[1..]);
      if !IsSeparator(s[0]) {
        var rest := Split(s[1..]);
        if |s| > 1 && !IsSeparator(s[1]) {
          assert Concat(rest) == rest[0] + Concat(rest[1..]);
          assert Concat([[s[0]] + rest[0]] + rest[1..]) == [s[0]] + rest[0] + Concat(rest[1..]) by {
            assert ([[s[0]] + rest[0]] + rest[1..])[1..] == rest[1..];
          }
        } else {
          assert ([[s[0]]] + rest)[1..] == rest;
        }
      }
    }
  }

  /** Leading separators are skipped. */
  lemma {:induction false} SplitSkipsSeparators(seps: string, s: string)
    requires forall i :: 0 <= i < |seps| ==> IsSeparator(seps[i])
    ensures Split(seps + s) == Split(s)
  {
    if seps != [] {
      assert IsSeparator((seps + s)[0]) by { assert (seps + s)[0] == seps[0]; }
      assert Split(seps + s) == Split((seps + s)[1..]);
      assert (seps + s)[1..] == seps[1..] + s;
      SplitSkipsSeparators(seps[1..], s);
    } else {
      assert seps + s == s;
    }
  }

  /** A token followed by a separator (or by nothing) is split off whole. */
  lemma {:induction false} SplitToken(t: string, u: string)
    requires IsToken(t)
    requires u == [] || IsSeparator(u[0])
    ensures Split(t + u) == [t] + Split(u)
  {
    var s := t + u;
    assert s[0] == t[0];
    if |t| == 1 {
      assert s[1..] == u;
      assert u != [] ==> s[1] == u[0];
      assert [s[0]] == t;
    } else {
      var t' := t[1..];
      assert s[1..] == t' + u;
      assert s[1] == t'[0];
      SplitToken(t', u);
      assert [s[0]] + t' == t;
    }
  }

  /** Names joined with any single separator. */
  function JoinTokens(ts: seq<string>, sep: char): (r: string)
  {
    if ts == [] then []
    else if |ts| == 1 then ts[0]
    else ts[0] + [sep] + JoinTokens(ts[1..], sep)
  }

  /** Splitting undoes joining: a list of configuration names written with any
      of the separators between them is read back as the same list. */
  lemma {:induction false} SplitJoinTokens(ts: seq<string>, sep: char)
    requires forall i :: 0 <= i < |ts| ==> IsToken(ts[i])
    requires IsSeparator(sep)
    ensures Split(JoinTokens(ts, sep)) == ts
  {
    if |ts| == 1 {
      SplitToken(ts[0], []);
      assert ts[0] + [] == ts[0];
    } else if |ts| > 1 {
      var rest := JoinTokens(ts[1..], sep);
      assert ts[0] + [sep] + rest == ts[0] + ([sep] + rest);
      SplitToken(ts[0], [sep] + rest);
      SplitSkipsSeparators([sep], rest);
      SplitJoinTokens(ts[1..], sep);
      assert [ts[0]] + ts[1..] == ts;
    }
  }

  /** `getBuildConfigurations`: the configured names, never absent; an unset
      or empty setting gives no names. */
  function GetBuildConfigurations(cfg: BuildConfig): (r: seq<string>)
    ensures cfg.buildConfigurations == None || cfg.buildConfigurations == Some("") ==> r == []
    ensures forall i :: 0 <= i < |r| ==> IsToken(r[i])
    ensures cfg.buildConfigurations.Some? ==> r == Split(cfg.buildConfigurations.value)
    ensures cfg.buildConfigurations.Some? ==> Concat(r) == RemoveSeparators(cfg.buildConfigurations.value)
  {
    match cfg.buildConfigurations
    case None => []
    case Some(s) =>
      if s == "" then []
      else
        SplitKeepsCharacters(s);
        Split(s)
  }

  /** A token, a non-empty run of separators, then the rest: the token is
      split off and the run is skipped. */
  lemma {:induction false} SplitTokenThenSeparators(t: string, seps: string, rest: string)
    requires IsToken(t)
    requires |seps| > 0 && forall i :: 0 <= i < |seps| ==> IsSeparator(seps[i])
    ensures Split(t + seps + rest) == [t] + Split(rest)
  {
    assert t + seps + rest == t + (seps + rest);
    SplitToken(t, seps + rest);
    SplitSkipsSeparators(seps, rest);
  }

  /** Four names separated by a comma, a semicolon-and-space run and a space. */
  lemma {:induction false} SplitFourNames(d: string, r: string, t: string, x: string)
    requires IsToken(d) && IsToken(r) && IsToken(t) && IsToken(x)
    ensures Split(d + "," + (r + "; " + (t + " " + x))) == [d, r, t, x]
  {
    SplitToken(x, "");
    assert x + "" == x;
    var tail3 := t + " " + x;
    SplitTokenThenSeparators(t, " ", x);
    assert Split(tail3) == [t, x];
    var tail2 := r + "; " + tail3;
    SplitTokenThenSeparators(r, "; ", tail3);
    assert Split(tail2) == [r, t, x];
    SplitTokenThenSeparators(d, ",", tail2);
  }

  /** A setting mixing all three separators, doubled ones included. */
  lemma BuildConfigurationsExample(cfg: BuildConfig)
    requires cfg.buildConfigurations == Some("Debug,Release; Test x86")
    ensures GetBuildConfigurations(cfg) == ["Debug", "Release", "Test", "x86"]
  {
    var setting := cfg.buildConfigurations.value;
    var d, r, t, x := "Debug", "Release", "Test", "x86";
    assert setting == d + "," + (r + "; " + (t + " " + x));
    assert IsToken(d) && IsToken(r) && IsToken(t) && IsToken(x);
    SplitFourNames(d, r, t, x);
  }
}
