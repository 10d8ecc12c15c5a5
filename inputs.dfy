/**
 * The action's input resolver: it reads the workflow inputs by name and turns
 * them into one typed record, `ActionInputs`. The host's input mechanism is
 * the `Source` passed in; everything else is a pure function of it.
 */
module Inputs {
  import opened Wrappers
  import opened AsciiCase
  import opened JsParseInt

  /**
   * The inputs as the runner provides them, after `@actions/core` has read and
   * trimmed them: a name maps to its raw string, a name not given is missing.
   */
  type Source = map<string, string>

  /** `core.getInput(name)`: the raw string, and "" for an input that is not given. */
  function GetInput(src: Source, name: string): string {
    if name in src then src[name] else ""
  }

  /** An input counts as provided when its raw string is non-empty (JavaScript truthiness). */
  predicate IsProvided(src: Source, name: string) {
    GetInput(src, name) != ""
  }

  // ---------------------------------------------------------------------------
  // The three resolution rules

  /** `getInputOrDefault`: `core.getInput(name) || defaultValue`. */
  function GetInputOrDefault(src: Source, name: string, defaultValue: string): (r: string)
    ensures IsProvided(src, name) ==> r == src[name]
    ensures !IsProvided(src, name) ==> r == defaultValue
  {
    if IsProvided(src, name) then GetInput(src, name) else defaultValue
  }

  /**
   * `getInputOrDefaultBoolean`: a provided value is `true` exactly when its
   * lower-case form is "true"; a missing or empty one gives the default.
   */
  function GetInputOrDefaultBoolean(src: Source, name: string, defaultValue: bool): (r: bool)
    ensures IsProvided(src, name) ==> (r <==> IsTrueIgnoringCase(src[name]))
    ensures !IsProvided(src, name) ==> r == defaultValue
  {
    var value := GetInput(src, name);
    ToLowerIsTrueIff(value);
    if IsProvided(src, name) then ToLower(value) == "true" else defaultValue
  }

  /** The literals `core.getBooleanInput` accepts: the booleans of the YAML 1.2 core schema. */
  const TrueLiterals: seq<string> := ["true", "True", "TRUE"]
  const FalseLiterals: seq<string> := ["false", "False", "FALSE"]

  predicate IsYamlBoolean(value: string) {
    value in TrueLiterals || value in FalseLiterals
  }

  /** The one failure of the resolver, naming the input whose value is not a YAML boolean. */
  datatype InputError = NotYamlBoolean(name: string)

  /**
   * `core.getBooleanInput(name)`: a value in the true list gives `true`, one in
   * the false list `false`; anything else, the empty string included, is a
   * TypeError naming the input.
   */
  function GetBooleanInput(src: Source, name: string): (r: Result<bool, InputError>)
    ensures r.Success? <==> IsYamlBoolean(GetInput(src, name))
    ensures r.Success? ==> (r.value <==> GetInput(src, name) in TrueLiterals)
    ensures r.Failure? ==> r.error == NotYamlBoolean(name)
  {
    var value := GetInput(src, name);
    if value in TrueLiterals then Success(true)
    else if value in FalseLiterals then Success(false)
    else Failure(NotYamlBoolean(name))
  }

  // ---------------------------------------------------------------------------
  // The record

  /** The resolved configuration, one field per key of `getInputs`, in its order. */
  datatype ActionInputs = ActionInputs(
    // General
    homeDirectory: string,
    dotnetRoot: string,
    useGlobalDotnetEf: bool,
    // Migrations
    runMigrations: bool,
    migrationsFolder: string,
    envName: string,
    onFailedRollbackMigrations: bool,
    // Tests
    runTests: bool,
    testsEnvName: string,
    runTestsMigrations: bool,
    testMigrationsFolder: string,
    testFolder: string,
    uploadTestsResults: bool,
    testOutputFolder: string,
    testFormat: string,
    rollbackMigrationsOnTestFailed: bool,
    // Versioning
    version: string,
    runVersioning: bool,
    csprojDepth: IntOrNaN,
    csprojName: string,
    useCommitMessage: bool,
    commitUser: string,
    commitEmail: string,
    commitMessagePrefix: string,
    // Docker
    runPushToRegistry: bool,
    dockerComposeFiles: string,
    images: string,
    dockerfiles: string,
    dockerfileImages: string,
    dockerfileContexts: string,
    registryType: string,
    pushWithVersion: bool,
    pushWithLatest: bool,
    runDockerBuild: bool,
    runDockerPush: bool,
    // Release
    runRelease: bool,
    // Changelog
    runChangelog: bool,
    majorKeywords: string,
    minorKeywords: string,
    patchKeywords: string,
    hotfixKeywords: string,
    addedKeywords: string,
    devKeywords: string,
    // Additional
    includeGhcrPackage: bool,
    includeDotnetBinaries: bool,
    runPublish: bool,
    publishLinux: bool,
    publishWindows: bool,
    publishMac: bool
  )

  /** The required boolean inputs, in the order the object literal evaluates them. */
  const RequiredKeys: seq<string> :=
    ["include_dotnet_binaries", "run_publish", "publish_linux", "publish_windows", "publish_mac"]

  /** The required inputs before position `i` all hold YAML booleans. */
  predicate RequiredValidUpTo(src: Source, i: nat)
    requires i <= |RequiredKeys|
  {
    forall j :: 0 <= j < i ==> IsYamlBoolean(GetInput(src, RequiredKeys[j]))
  }

  /**
   * `getInputs`. The optional fields cannot fail; the first required boolean
   * whose value is not a YAML boolean aborts the whole record, so a record
   * is returned exactly when all five hold YAML booleans.
   */
  function GetInputs(src: Source): (r: Result<ActionInputs, InputError>)
    ensures r.Success? <==> RequiredValidUpTo(src, |RequiredKeys|)
  {
    RequiredValidUpToByKey(src, |RequiredKeys|);
    var includeDotnetBinaries :- GetBooleanInput(src, "include_dotnet_binaries");
    var runPublish :- GetBooleanInput(src, "run_publish");
    var publishLinux :- GetBooleanInput(src, "publish_linux");
    var publishWindows :- GetBooleanInput(src, "publish_windows");
    var publishMac :- GetBooleanInput(src, "publish_mac");
    Success(Assemble(src, includeDotnetBinaries, runPublish, publishLinux, publishWindows, publishMac))
  }

  /**
   * The object literal of `getInputs`, given the values of its five required
   * booleans: every other field comes from one of the two optional rules.
   */
  function Assemble(src: Source, includeDotnetBinaries: bool, runPublish: bool, publishLinux: bool,
                    publishWindows: bool, publishMac: bool): ActionInputs
  {
    ActionInputs(
      // General
      homeDirectory := GetInputOrDefault(src, "home_directory", "/home/node"),
      dotnetRoot := GetInputOrDefault(src, "dotnet_root", "/usr/bin/dotnet"),
      useGlobalDotnetEf := GetInputOrDefaultBoolean(src, "use_global_dotnet_ef", false),
      // Migrations
      runMigrations := GetInputOrDefaultBoolean(src, "run_migrations", false),
      migrationsFolder := GetInputOrDefault(src, "migrations_folder", ""),
      envName := GetInputOrDefault(src, "migrations_env_name", "Development"),
      onFailedRollbackMigrations := GetInputOrDefaultBoolean(src, "on_failed_rollback_migrations", false),
      // Tests
      runTests := GetInputOrDefaultBoolean(src, "run_tests", false),
      testsEnvName := GetInputOrDefault(src, "tests_env_name", "Test"),
      runTestsMigrations := GetInputOrDefaultBoolean(src, "run_tests_migrations", true),
      testMigrationsFolder := GetInputOrDefault(src, "test_migrations_folder", ""),
      testFolder := GetInputOrDefault(src, "test_folder", ""),
      uploadTestsResults := GetInputOrDefaultBoolean(src, "upload_tests_results", false),
      testOutputFolder := GetInputOrDefault(src, "test_output_folder", "TestResults"),
      testFormat := GetInputOrDefault(src, "test_format", "html"),
      rollbackMigrationsOnTestFailed := GetInputOrDefaultBoolean(src, "rollback_migrations_on_test_failed", false),
      // Versioning
      version := GetInputOrDefault(src, "version", "0.0.0"),
      runVersioning := GetInputOrDefaultBoolean(src, "run_versioning", false),
      csprojDepth := ParseInt(GetInputOrDefault(src, "csproj_depth", "1")),
      csprojName := GetInputOrDefault(src, "csproj_name", "*.csproj"),
      useCommitMessage := GetInputOrDefaultBoolean(src, "use_commit_message", false),
      commitUser := GetInputOrDefault(src, "commit_user", "github-actions"),
      commitEmail := GetInputOrDefault(src, "commit_email", "github-actions@users.noreply.github.com"),
      commitMessagePrefix := GetInputOrDefault(src, "commit_message_prefix", "New Version: bump version to "),
      // Docker
      runPushToRegistry := GetInputOrDefaultBoolean(src, "run_push_to_registry", false),
      dockerComposeFiles := GetInputOrDefault(src, "docker_compose_files", ""),
      images := GetInputOrDefault(src, "images", ""),
      dockerfiles := GetInputOrDefault(src, "dockerfiles", ""),
      dockerfileImages := GetInputOrDefault(src, "dockerfile_images", ""),
      dockerfileContexts := GetInputOrDefault(src, "dockerfile_contexts", "."),
      registryType := GetInputOrDefault(src, "registry_type", "GHCR"),
      pushWithVersion := GetInputOrDefaultBoolean(src, "push_with_version", true),
      pushWithLatest := GetInputOrDefaultBoolean(src, "push_with_latest", true),
      runDockerBuild := GetInputOrDefaultBoolean(src, "run_docker_build", false),
      runDockerPush := GetInputOrDefaultBoolean(src, "run_docker_push", false),
      // Release
      runRelease := GetInputOrDefaultBoolean(src, "run_release", false),
      // Changelog
      runChangelog := GetInputOrDefaultBoolean(src, "run_changelog", false),
      majorKeywords := GetInputOrDefault(src, "major_keywords", "breaking, overhaul"),
      minorKeywords := GetInputOrDefault(src, "minor_keywords", "feature, enhancement"),
      patchKeywords := GetInputOrDefault(src, "patch_keywords", "bug-fix, hotfix, patch"),
      hotfixKeywords := GetInputOrDefault(src, "hotfix_keywords", "urgent, hotfix"),
      addedKeywords := GetInputOrDefault(src, "added_keywords", "added, new"),
      devKeywords := GetInputOrDefault(src, "dev_keywords", "dev, experiment"),
      // Additional
      includeGhcrPackage := GetInputOrDefaultBoolean(src, "include_ghcr_package", false),
      includeDotnetBinaries := includeDotnetBinaries,
      runPublish := runPublish,
      publishLinux := publishLinux,
      publishWindows := publishWindows,
      publishMac := publishMac
      )
  }

  // ---------------------------------------------------------------------------
  // The rules on their own

  /** For every kind of input, an empty value is the same as no value. */
  lemma EmptyIsAbsent(src: Source, name: string, d: string, b: bool)
    ensures GetInputOrDefault(src[name := ""], name, d) == GetInputOrDefault(src - {name}, name, d) == d
    ensures GetInputOrDefaultBoolean(src[name := ""], name, b) == GetInputOrDefaultBoolean(src - {name}, name, b) == b
    ensures GetBooleanInput(src[name := ""], name) == GetBooleanInput(src - {name}, name) == Failure(NotYamlBoolean(name))
  {
  }

  /** A rule reads only its own input: setting any other name changes nothing. */
  lemma OtherInputsIgnored(src: Source, name: string, k: string, v: string, d: string, b: bool)
    requires k != name
    ensures GetInputOrDefault(src[k := v], name, d) == GetInputOrDefault(src, name, d)
    ensures GetInputOrDefaultBoolean(src[k := v], name, b) == GetInputOrDefaultBoolean(src, name, b)
    ensures GetBooleanInput(src[k := v], name) == GetBooleanInput(src, name)
  {
  }

  /** "True", "TRUE" and any other mix of cases of "true" give `true`, whatever the default. */
  lemma OptionalBooleanTrueSpellings(name: string, b: bool)
    ensures GetInputOrDefaultBoolean(map[name := "True"], name, b)
    ensures GetInputOrDefaultBoolean(map[name := "TRUE"], name, b)
    ensures GetInputOrDefaultBoolean(map[name := "tRuE"], name, b)
  {
  }

  /** "false", "yes" and "1" all give `false`, even where the default is `true`. */
  lemma OptionalBooleanFalseSpellings(name: string)
    ensures !GetInputOrDefaultBoolean(map[name := "false"], name, true)
    ensures !GetInputOrDefaultBoolean(map[name := "yes"], name, true)
    ensures !GetInputOrDefaultBoolean(map[name := "1"], name, true)
  {
  }

  /**
   * Where `core.getBooleanInput` accepts a value, it agrees with the
   * optional-boolean rule, whatever that rule's default.
   */
  lemma RequiredAgreesWithOptional(src: Source, name: string, b: bool)
    requires GetBooleanInput(src, name).Success?
    ensures IsProvided(src, name)
    ensures GetBooleanInput(src, name).value == GetInputOrDefaultBoolean(src, name, b)
  {
  }

  /** The required rule is stricter: a mixed-case "tRUE" is true for the optional rule and an error for the required one. */
  lemma RequiredRejectsMixedCase(name: string)
    ensures GetInputOrDefaultBoolean(map[name := "tRUE"], name, false)
    ensures GetBooleanInput(map[name := "tRUE"], name) == Failure(NotYamlBoolean(name))
  {
  }

  // ---------------------------------------------------------------------------
  // The required booleans decide whether a record is returned

  /** `RequiredValidUpTo` spelled out key by key. */
  lemma RequiredValidUpToByKey(src: Source, i: nat)
    requires i <= |RequiredKeys|
    ensures RequiredValidUpTo(src, i) <==>
      && (i > 0 ==> IsYamlBoolean(GetInput(src, "include_dotnet_binaries")))
      && (i > 1 ==> IsYamlBoolean(GetInput(src, "run_publish")))
      && (i > 2 ==> IsYamlBoolean(GetInput(src, "publish_linux")))
      && (i > 3 ==> IsYamlBoolean(GetInput(src, "publish_windows")))
      && (i > 4 ==> IsYamlBoolean(GetInput(src, "publish_mac")))
  {
    assert RequiredKeys[0] == "include_dotnet_binaries" && RequiredKeys[1] == "run_publish";
    assert RequiredKeys[2] == "publish_linux" && RequiredKeys[3] == "publish_windows";
    assert RequiredKeys[4] == "publish_mac";
  }

  /** When it fails, it names the first required input, in evaluation order, that is not a YAML boolean. */
  lemma GetInputsReportsFirstInvalid(src: Source, i: nat)
    requires i < |RequiredKeys| && RequiredValidUpTo(src, i)
    requires !IsYamlBoolean(GetInput(src, RequiredKeys[i]))
    ensures GetInputs(src) == Failure(NotYamlBoolean(RequiredKeys[i]))
  {
    RequiredValidUpToByKey(src, i);
  }

  /** Any one required input that is missing, empty or not a YAML boolean makes `getInputs` fail. */
  lemma GetInputsFailsOnInvalidRequired(src: Source, i: nat)
    requires i < |RequiredKeys| && !IsYamlBoolean(GetInput(src, RequiredKeys[i]))
    ensures GetInputs(src).Failure?
  {
  }

  /** With no input at all, the first required input is the one reported. */
  lemma EmptySourceFails()
    ensures GetInputs(map[]) == Failure(NotYamlBoolean("include_dotnet_binaries"))
  {
    GetInputsReportsFirstInvalid(map[], 0);
  }

  /**
   * When all five required inputs hold YAML booleans, `getInputs` returns the
   * object literal, each required field `true` exactly when its value is one
   * of the true literals.
   */
  lemma GetInputsValue(src: Source)
    requires RequiredValidUpTo(src, |RequiredKeys|)
    ensures GetInputs(src) == Success(Assemble(src,
      GetInput(src, "include_dotnet_binaries") in TrueLiterals,
      GetInput(src, "run_publish") in TrueLiterals,
      GetInput(src, "publish_linux") in TrueLiterals,
      GetInput(src, "publish_windows") in TrueLiterals,
      GetInput(src, "publish_mac") in TrueLiterals))
  {
  }

  // ---------------------------------------------------------------------------
  // The key/default table

  /**
   * The record when no optional input is given: every optional field holds
   * its default. `run_tests_migrations`, `push_with_version` and
   * `push_with_latest` are the only optional booleans that default to `true`.
   */
  function DefaultRecord(includeDotnetBinaries: bool, runPublish: bool, publishLinux: bool,
                         publishWindows: bool, publishMac: bool): ActionInputs
  {
    ActionInputs(
      homeDirectory := "/home/node",
      dotnetRoot := "/usr/bin/dotnet",
      useGlobalDotnetEf := false,
      runMigrations := false,
      migrationsFolder := "",
      envName := "Development",
      onFailedRollbackMigrations := false,
      runTests := false,
      testsEnvName := "Test",
      runTestsMigrations := true,
      testMigrationsFolder := "",
      testFolder := "",
      uploadTestsResults := false,
      testOutputFolder := "TestResults",
      testFormat := "html",
      rollbackMigrationsOnTestFailed := false,
      version := "0.0.0",
      runVersioning := false,
      csprojDepth := Int(1),
      csprojName := "*.csproj",
      useCommitMessage := false,
      commitUser := "github-actions",
      commitEmail := "github-actions@users.noreply.github.com",
      commitMessagePrefix := "New Version: bump version to ",
      runPushToRegistry := false,
      dockerComposeFiles := "",
      images := "",
      dockerfiles := "",
      dockerfileImages := "",
      dockerfileContexts := ".",
      registryType := "GHCR",
      pushWithVersion := true,
      pushWithLatest := true,
      runDockerBuild := false,
      runDockerPush := false,
      runRelease := false,
      runChangelog := false,
      majorKeywords := "breaking, overhaul",
      minorKeywords := "feature, enhancement",
      patchKeywords := "bug-fix, hotfix, patch",
      hotfixKeywords := "urgent, hotfix",
      addedKeywords := "added, new",
      devKeywords := "dev, experiment",
      includeGhcrPackage := false,
      includeDotnetBinaries := includeDotnetBinaries,
      runPublish := runPublish,
      publishLinux := publishLinux,
      publishWindows := publishWindows,
      publishMac := publishMac
      )
  }

  /** The default "1" of `csproj_depth` parses to the integer 1. */
  lemma ParseIntOfOne()
    ensures ParseInt("1") == Int(1)
  {
    ParseIntOfDecimalString(1, "");
    assert DecimalString(1) + "" == "1";
  }

  /** With only the required inputs given, every optional field of the record is its default. */
  lemma DefaultsWhenOnlyRequiredGiven(src: Source)
    requires RequiredValidUpTo(src, |RequiredKeys|)
    requires forall k :: k in src ==> k in RequiredKeys
    ensures GetInputs(src) == Success(DefaultRecord(
      GetInput(src, "include_dotnet_binaries") in TrueLiterals,
      GetInput(src, "run_publish") in TrueLiterals,
      GetInput(src, "publish_linux") in TrueLiterals,
      GetInput(src, "publish_windows") in TrueLiterals,
      GetInput(src, "publish_mac") in TrueLiterals))
  {
    GetInputsValue(src);
    ParseIntOfOne();
    OptionalAbsentGeneral(src);
    OptionalAbsentTests(src);
    OptionalAbsentVersioning(src);
    OptionalAbsentDocker(src);
    OptionalAbsentChangelog(src);
  }

  /**
   * With an empty source every optional field is its default; `getInputs`
   * itself then fails (`EmptySourceFails`) before a record is returned.
   */
  lemma AssembleOfEmptySource(includeDotnetBinaries: bool, runPublish: bool, publishLinux: bool,
                              publishWindows: bool, publishMac: bool)
    ensures Assemble(map[], includeDotnetBinaries, runPublish, publishLinux, publishWindows, publishMac)
         == DefaultRecord(includeDotnetBinaries, runPublish, publishLinux, publishWindows, publishMac)
  {
    ParseIntOfOne();
  }

  /** A source holding only required inputs gives "" for each general and migrations input. */
  lemma OptionalAbsentGeneral(src: Source)
    requires forall k :: k in src ==> k in RequiredKeys
    ensures GetInput(src, "home_directory") == ""
    ensures GetInput(src, "dotnet_root") == ""
    ensures GetInput(src, "use_global_dotnet_ef") == ""
    ensures GetInput(src, "run_migrations") == ""
    ensures GetInput(src, "migrations_folder") == ""
    ensures GetInput(src, "migrations_env_name") == ""
    ensures GetInput(src, "on_failed_rollback_migrations") == ""
  {
  }

  /** A source holding only required inputs gives "" for each tests input. */
  lemma OptionalAbsentTests(src: Source)
    requires forall k :: k in src ==> k in RequiredKeys
    ensures GetInput(src, "run_tests") == ""
    ensures GetInput(src, "tests_env_name") == ""
    ensures GetInput(src, "run_tests_migrations") == ""
    ensures GetInput(src, "test_migrations_folder") == ""
    ensures GetInput(src, "test_folder") == ""
    ensures GetInput(src, "upload_tests_results") == ""
    ensures GetInput(src, "test_output_folder") == ""
    ensures GetInput(src, "test_format") == ""
    ensures GetInput(src, "rollback_migrations_on_test_failed") == ""
  {
  }

  /** A source holding only required inputs gives "" for each versioning input. */
  lemma OptionalAbsentVersioning(src: Source)
    requires forall k :: k in src ==> k in RequiredKeys
    ensures GetInput(src, "version") == ""
    ensures GetInput(src, "run_versioning") == ""
    ensures GetInput(src, "csproj_depth") == ""
    ensures GetInput(src, "csproj_name") == ""
    ensures GetInput(src, "use_commit_message") == ""
    ensures GetInput(src, "commit_user") == ""
    ensures GetInput(src, "commit_email") == ""
    ensures GetInput(src, "commit_message_prefix") == ""
  {
  }

  /** A source holding only required inputs gives "" for each Docker input. */
  lemma OptionalAbsentDocker(src: Source)
    requires forall k :: k in src ==> k in RequiredKeys
    ensures GetInput(src, "run_push_to_registry") == ""
    ensures GetInput(src, "docker_compose_files") == ""
    ensures GetInput(src, "images") == ""
    ensures GetInput(src, "dockerfiles") == ""
    ensures GetInput(src, "dockerfile_images") == ""
    ensures GetInput(src, "dockerfile_contexts") == ""
    ensures GetInput(src, "registry_type") == ""
    ensures GetInput(src, "push_with_version") == ""
    ensures GetInput(src, "push_with_latest") == ""
    ensures GetInput(src, "run_docker_build") == ""
    ensures GetInput(src, "run_docker_push") == ""
  {
  }

  /** A source holding only required inputs gives "" for each release, changelog and additional input. */
  lemma OptionalAbsentChangelog(src: Source)
    requires forall k :: k in src ==> k in RequiredKeys
    ensures GetInput(src, "run_release") == ""
    ensures GetInput(src, "run_changelog") == ""
    ensures GetInput(src, "major_keywords") == ""
    ensures GetInput(src, "minor_keywords") == ""
    ensures GetInput(src, "patch_keywords") == ""
    ensures GetInput(src, "hotfix_keywords") == ""
    ensures GetInput(src, "added_keywords") == ""
    ensures GetInput(src, "dev_keywords") == ""
    ensures GetInput(src, "include_ghcr_package") == ""
  {
  }

  // ---------------------------------------------------------------------------
  // The whole record reads its inputs only through `core.getInput`

  /** The names `getInputs` reads, each once: the optional ones, then the required ones. */
  const RecognisedKeys: set<string> := {
    "home_directory",
    "dotnet_root",
    "use_global_dotnet_ef",
    "run_migrations",
    "migrations_folder",
    "migrations_env_name",
    "on_failed_rollback_migrations",
    "run_tests",
    "tests_env_name",
    "run_tests_migrations",
    "test_migrations_folder",
    "test_folder",
    "upload_tests_results",
    "test_output_folder",
    "test_format",
    "rollback_migrations_on_test_failed",
    "version",
    "run_versioning",
    "csproj_depth",
    "csproj_name",
    "use_commit_message",
    "commit_user",
    "commit_email",
    "commit_message_prefix",
    "run_push_to_registry",
    "docker_compose_files",
    "images",
    "dockerfiles",
    "dockerfile_images",
    "dockerfile_contexts",
    "registry_type",
    "push_with_version",
    "push_with_latest",
    "run_docker_build",
    "run_docker_push",
    "run_release",
    "run_changelog",
    "major_keywords",
    "minor_keywords",
    "patch_keywords",
    "hotfix_keywords",
    "added_keywords",
    "dev_keywords",
    "include_ghcr_package",
    "include_dotnet_binaries",
    "run_publish",
    "publish_linux",
    "publish_windows",
    "publish_mac"
  }

  /** Two sources that give the same raw string for every name `getInputs` reads. */
  ghost predicate SameLookups(s1: Source, s2: Source) {
    forall k :: k in RecognisedKeys ==> GetInput(s1, k) == GetInput(s2, k)
  }

  /**
   * `SameLookups` spelled out name by name (`SameNamedLookupsOf` connects the
   * two). The record proofs take this form as their hypothesis because the
   * solver handles 49 ground equalities far more cheaply than the quantified
   * one; the quantified form is kept because it states the idea directly.
   */
  predicate SameNamedLookups(s1: Source, s2: Source) {
    && GetInput(s1, "home_directory") == GetInput(s2, "home_directory")
    && GetInput(s1, "dotnet_root") == GetInput(s2, "dotnet_root")
    && GetInput(s1, "use_global_dotnet_ef") == GetInput(s2, "use_global_dotnet_ef")
    && GetInput(s1, "run_migrations") == GetInput(s2, "run_migrations")
    && GetInput(s1, "migrations_folder") == GetInput(s2, "migrations_folder")
    && GetInput(s1, "migrations_env_name") == GetInput(s2, "migrations_env_name")
    && GetInput(s1, "on_failed_rollback_migrations") == GetInput(s2, "on_failed_rollback_migrations")
    && GetInput(s1, "run_tests") == GetInput(s2, "run_tests")
    && GetInput(s1, "tests_env_name") == GetInput(s2, "tests_env_name")
    && GetInput(s1, "run_tests_migrations") == GetInput(s2, "run_tests_migrations")
    && GetInput(s1, "test_migrations_folder") == GetInput(s2, "test_migrations_folder")
    && GetInput(s1, "test_folder") == GetInput(s2, "test_folder")
    && GetInput(s1, "upload_tests_results") == GetInput(s2, "upload_tests_results")
    && GetInput(s1, "test_output_folder") == GetInput(s2, "test_output_folder")
    && GetInput(s1, "test_format") == GetInput(s2, "test_format")
    && GetInput(s1, "rollback_migrations_on_test_failed") == GetInput(s2, "rollback_migrations_on_test_failed")
    && GetInput(s1, "version") == GetInput(s2, "version")
    && GetInput(s1, "run_versioning") == GetInput(s2, "run_versioning")
    && GetInput(s1, "csproj_depth") == GetInput(s2, "csproj_depth")
    && GetInput(s1, "csproj_name") == GetInput(s2, "csproj_name")
    && GetInput(s1, "use_commit_message") == GetInput(s2, "use_commit_message")
    && GetInput(s1, "commit_user") == GetInput(s2, "commit_user")
    && GetInput(s1, "commit_email") == GetInput(s2, "commit_email")
    && GetInput(s1, "commit_message_prefix") == GetInput(s2, "commit_message_prefix")
    && GetInput(s1, "run_push_to_registry") == GetInput(s2, "run_push_to_registry")
    && GetInput(s1, "docker_compose_files") == GetInput(s2, "docker_compose_files")
    && GetInput(s1, "images") == GetInput(s2, "images")
    && GetInput(s1, "dockerfiles") == GetInput(s2, "dockerfiles")
    && GetInput(s1, "dockerfile_images") == GetInput(s2, "dockerfile_images")
    && GetInput(s1, "dockerfile_contexts") == GetInput(s2, "dockerfile_contexts")
    && GetInput(s1, "registry_type") == GetInput(s2, "registry_type")
    && GetInput(s1, "push_with_version") == GetInput(s2, "push_with_version")
    && GetInput(s1, "push_with_latest") == GetInput(s2, "push_with_latest")
    && GetInput(s1, "run_docker_build") == GetInput(s2, "run_docker_build")
    && GetInput(s1, "run_docker_push") == GetInput(s2, "run_docker_push")
    && GetInput(s1, "run_release") == GetInput(s2, "run_release")
    && GetInput(s1, "run_changelog") == GetInput(s2, "run_changelog")
    && GetInput(s1, "major_keywords") == GetInput(s2, "major_keywords")
    && GetInput(s1, "minor_keywords") == GetInput(s2, "minor_keywords")
    && GetInput(s1, "patch_keywords") == GetInput(s2, "patch_keywords")
    && GetInput(s1, "hotfix_keywords") == GetInput(s2, "hotfix_keywords")
    && GetInput(s1, "added_keywords") == GetInput(s2, "added_keywords")
    && GetInput(s1, "dev_keywords") == GetInput(s2, "dev_keywords")
    && GetInput(s1, "include_ghcr_package") == GetInput(s2, "include_ghcr_package")
    && GetInput(s1, "include_dotnet_binaries") == GetInput(s2, "include_dotnet_binaries")
    && GetInput(s1, "run_publish") == GetInput(s2, "run_publish")
    && GetInput(s1, "publish_linux") == GetInput(s2, "publish_linux")
    && GetInput(s1, "publish_windows") == GetInput(s2, "publish_windows")
    && GetInput(s1, "publish_mac") == GetInput(s2, "publish_mac")
  }

  /** `SameLookups` at one recognised name. */
  lemma SameLookupsAt(s1: Source, s2: Source, k: string)
    requires SameLookups(s1, s2) && k in RecognisedKeys
    ensures GetInput(s1, k) == GetInput(s2, k)
  {
  }

  /** `SameLookups` gives `SameNamedLookups`, one name at a time. */
  lemma SameNamedLookupsOf(s1: Source, s2: Source)
    requires SameLookups(s1, s2)
    ensures SameNamedLookups(s1, s2)
  {
    SameLookupsAt(s1, s2, "home_directory");
    SameLookupsAt(s1, s2, "dotnet_root");
    SameLookupsAt(s1, s2, "use_global_dotnet_ef");
    SameLookupsAt(s1, s2, "run_migrations");
    SameLookupsAt(s1, s2, "migrations_folder");
    SameLookupsAt(s1, s2, "migrations_env_name");
    SameLookupsAt(s1, s2, "on_failed_rollback_migrations");
    SameLookupsAt(s1, s2, "run_tests");
    SameLookupsAt(s1, s2, "tests_env_name");
    SameLookupsAt(s1, s2, "run_tests_migrations");
    SameLookupsAt(s1, s2, "test_migrations_folder");
    SameLookupsAt(s1, s2, "test_folder");
    SameLookupsAt(s1, s2, "upload_tests_results");
    SameLookupsAt(s1, s2, "test_output_folder");
    SameLookupsAt(s1, s2, "test_format");
    SameLookupsAt(s1, s2, "rollback_migrations_on_test_failed");
    SameLookupsAt(s1, s2, "version");
    SameLookupsAt(s1, s2, "run_versioning");
    SameLookupsAt(s1, s2, "csproj_depth");
    SameLookupsAt(s1, s2, "csproj_name");
    SameLookupsAt(s1, s2, "use_commit_message");
    SameLookupsAt(s1, s2, "commit_user");
    SameLookupsAt(s1, s2, "commit_email");
    SameLookupsAt(s1, s2, "commit_message_prefix");
    SameLookupsAt(s1, s2, "run_push_to_registry");
    SameLookupsAt(s1, s2, "docker_compose_files");
    SameLookupsAt(s1, s2, "images");
    SameLookupsAt(s1, s2, "dockerfiles");
    SameLookupsAt(s1, s2, "dockerfile_images");
    SameLookupsAt(s1, s2, "dockerfile_contexts");
    SameLookupsAt(s1, s2, "registry_type");
    SameLookupsAt(s1, s2, "push_with_version");
    SameLookupsAt(s1, s2, "push_with_latest");
    SameLookupsAt(s1, s2, "run_docker_build");
    SameLookupsAt(s1, s2, "run_docker_push");
    SameLookupsAt(s1, s2, "run_release");
    SameLookupsAt(s1, s2, "run_changelog");
    SameLookupsAt(s1, s2, "major_keywords");
    SameLookupsAt(s1, s2, "minor_keywords");
    SameLookupsAt(s1, s2, "patch_keywords");
    SameLookupsAt(s1, s2, "hotfix_keywords");
    SameLookupsAt(s1, s2, "added_keywords");
    SameLookupsAt(s1, s2, "dev_keywords");
    SameLookupsAt(s1, s2, "include_ghcr_package");
    SameLookupsAt(s1, s2, "include_dotnet_binaries");
    SameLookupsAt(s1, s2, "run_publish");
    SameLookupsAt(s1, s2, "publish_linux");
    SameLookupsAt(s1, s2, "publish_windows");
    SameLookupsAt(s1, s2, "publish_mac");
  }

  /** The object literal is the same on two sources that read the same for every name. */
  lemma AssembleAgrees(s1: Source, s2: Source, a: bool, b: bool, c: bool, d: bool, e: bool)
    requires SameNamedLookups(s1, s2)
    ensures Assemble(s1, a, b, c, d, e) == Assemble(s2, a, b, c, d, e)
  {
    AssembleAgreesGeneral(s1, s2, a, b, c, d, e);
    AssembleAgreesTests(s1, s2, a, b, c, d, e);
    AssembleAgreesVersioning(s1, s2, a, b, c, d, e);
    AssembleAgreesDocker(s1, s2, a, b, c, d, e);
    AssembleAgreesChangelog(s1, s2, a, b, c, d, e);
  }

  /** The general and migrations fields of the object literal agree. */
  lemma AssembleAgreesGeneral(s1: Source, s2: Source, a: bool, b: bool, c: bool, d: bool, e: bool)
    requires SameNamedLookups(s1, s2)
    ensures var r1, r2 := Assemble(s1, a, b, c, d, e), Assemble(s2, a, b, c, d, e);
      && r1.homeDirectory == r2.homeDirectory
      && r1.dotnetRoot == r2.dotnetRoot
      && r1.useGlobalDotnetEf == r2.useGlobalDotnetEf
      && r1.runMigrations == r2.runMigrations
      && r1.migrationsFolder == r2.migrationsFolder
      && r1.envName == r2.envName
      && r1.onFailedRollbackMigrations == r2.onFailedRollbackMigrations
  {
  }

  /** The tests fields of the object literal agree. */
  lemma AssembleAgreesTests(s1: Source, s2: Source, a: bool, b: bool, c: bool, d: bool, e: bool)
    requires SameNamedLookups(s1, s2)
    ensures var r1, r2 := Assemble(s1, a, b, c, d, e), Assemble(s2, a, b, c, d, e);
      && r1.runTests == r2.runTests
      && r1.testsEnvName == r2.testsEnvName
      && r1.runTestsMigrations == r2.runTestsMigrations
      && r1.testMigrationsFolder == r2.testMigrationsFolder
      && r1.testFolder == r2.testFolder
      && r1.uploadTestsResults == r2.uploadTestsResults
      && r1.testOutputFolder == r2.testOutputFolder
      && r1.testFormat == r2.testFormat
      && r1.rollbackMigrationsOnTestFailed == r2.rollbackMigrationsOnTestFailed
  {
  }

  /** The versioning fields of the object literal agree. */
  lemma AssembleAgreesVersioning(s1: Source, s2: Source, a: bool, b: bool, c: bool, d: bool, e: bool)
    requires SameNamedLookups(s1, s2)
    ensures var r1, r2 := Assemble(s1, a, b, c, d, e), Assemble(s2, a, b, c, d, e);
      && r1.version == r2.version
      && r1.runVersioning == r2.runVersioning
      && r1.csprojDepth == r2.csprojDepth
      && r1.csprojName == r2.csprojName
      && r1.useCommitMessage == r2.useCommitMessage
      && r1.commitUser == r2.commitUser
      && r1.commitEmail == r2.commitEmail
      && r1.commitMessagePrefix == r2.commitMessagePrefix
  {
  }

  /** The Docker fields of the object literal agree. */
  lemma AssembleAgreesDocker(s1: Source, s2: Source, a: bool, b: bool, c: bool, d: bool, e: bool)
    requires SameNamedLookups(s1, s2)
    ensures var r1, r2 := Assemble(s1, a, b, c, d, e), Assemble(s2, a, b, c, d, e);
      && r1.runPushToRegistry == r2.runPushToRegistry
      && r1.dockerComposeFiles == r2.dockerComposeFiles
      && r1.images == r2.images
      && r1.dockerfiles == r2.dockerfiles
      && r1.dockerfileImages == r2.dockerfileImages
      && r1.dockerfileContexts == r2.dockerfileContexts
      && r1.registryType == r2.registryType
      && r1.pushWithVersion == r2.pushWithVersion
      && r1.pushWithLatest == r2.pushWithLatest
      && r1.runDockerBuild == r2.runDockerBuild
      && r1.runDockerPush == r2.runDockerPush
  {
  }

  /** The release, changelog and additional fields of the object literal agree, and so do the required ones. */
  lemma AssembleAgreesChangelog(s1: Source, s2: Source, a: bool, b: bool, c: bool, d: bool, e: bool)
    requires SameNamedLookups(s1, s2)
    ensures var r1, r2 := Assemble(s1, a, b, c, d, e), Assemble(s2, a, b, c, d, e);
      && r1.runRelease == r2.runRelease
      && r1.runChangelog == r2.runChangelog
      && r1.majorKeywords == r2.majorKeywords
      && r1.minorKeywords == r2.minorKeywords
      && r1.patchKeywords == r2.patchKeywords
      && r1.hotfixKeywords == r2.hotfixKeywords
      && r1.addedKeywords == r2.addedKeywords
      && r1.devKeywords == r2.devKeywords
      && r1.includeGhcrPackage == r2.includeGhcrPackage
      && r1.includeDotnetBinaries == r2.includeDotnetBinaries
      && r1.runPublish == r2.runPublish
      && r1.publishLinux == r2.publishLinux
      && r1.publishWindows == r2.publishWindows
      && r1.publishMac == r2.publishMac
  {
  }

  /** The five required rules agree on two sources that read the same for every name. */
  lemma RequiredAgree(s1: Source, s2: Source)
    requires SameNamedLookups(s1, s2)
    ensures GetBooleanInput(s1, "include_dotnet_binaries") == GetBooleanInput(s2, "include_dotnet_binaries")
    ensures GetBooleanInput(s1, "run_publish") == GetBooleanInput(s2, "run_publish")
    ensures GetBooleanInput(s1, "publish_linux") == GetBooleanInput(s2, "publish_linux")
    ensures GetBooleanInput(s1, "publish_windows") == GetBooleanInput(s2, "publish_windows")
    ensures GetBooleanInput(s1, "publish_mac") == GetBooleanInput(s2, "publish_mac")
  {
  }

  /** `getInputs` gives the same outcome, record or error, on two sources that read the same for every name it reads. */
  lemma GetInputsAgree(s1: Source, s2: Source)
    requires SameNamedLookups(s1, s2)
    ensures GetInputs(s1) == GetInputs(s2)
  {
    RequiredAgree(s1, s2);
    AssembleAgrees(s1, s2,
      GetInput(s1, "include_dotnet_binaries") in TrueLiterals,
      GetInput(s1, "run_publish") in TrueLiterals,
      GetInput(s1, "publish_linux") in TrueLiterals,
      GetInput(s1, "publish_windows") in TrueLiterals,
      GetInput(s1, "publish_mac") in TrueLiterals);
  }

  /**
   * For the whole record an input set to "" is indistinguishable from an
   * input that is not given: `getInputs` gives the same record, or the same
   * error.
   */
  lemma EmptyIsAbsentRecord(src: Source, name: string)
    ensures GetInputs(src[name := ""]) == GetInputs(src - {name})
  {
    forall k | k in RecognisedKeys ensures GetInput(src[name := ""], k) == GetInput(src - {name}, k) {
    }
    SameNamedLookupsOf(src[name := ""], src - {name});
    GetInputsAgree(src[name := ""], src - {name});
  }

  /** Setting a name `getInputs` does not read leaves its outcome, record or error, unchanged. */
  lemma OtherInputsIgnoredRecord(src: Source, name: string, v: string)
    requires name !in RecognisedKeys
    ensures GetInputs(src[name := v]) == GetInputs(src)
  {
    forall k | k in RecognisedKeys ensures GetInput(src[name := v], k) == GetInput(src, k) {
    }
    SameNamedLookupsOf(src[name := v], src);
    GetInputsAgree(src[name := v], src);
  }

  // ---------------------------------------------------------------------------
  // Fields of a successful record

  /** An absent or empty `csproj_depth` gives 1. */
  lemma CsprojDepthDefault(src: Source)
    requires RequiredValidUpTo(src, |RequiredKeys|)
    requires !IsProvided(src, "csproj_depth")
    ensures GetInputs(src).Success?
    ensures GetInputs(src).value.csprojDepth == Int(1)
  {
    GetInputsValue(src);
    ParseIntOfOne();
  }

  /**
   * A `csproj_depth` made of white space, an optional sign and digits gives
   * the signed value of the digits, whatever follows them. The white space
   * `w` is what `parseInt` itself trims; since `core.getInput` already trims
   * its values, `w` is empty for every value a workflow can supply.
   */
  lemma CsprojDepthNumeric(src: Source, w: string, sign: Sign, d: string, t: string)
    requires RequiredValidUpTo(src, |RequiredKeys|)
    requires AllWhiteSpace(w) && d != [] && AllDigits(d) && (t == [] || !IsDecimalDigit(t[0]))
    requires GetInput(src, "csproj_depth") == w + SignText(sign) + d + t
    ensures GetInputs(src).Success?
    ensures GetInputs(src).value.csprojDepth == Int(ApplySign(sign, DigitsValue(d)))
  {
    GetInputsValue(src);
    ParseIntOfNumeral(w, sign, d, t);
  }

  /**
   * A provided `csproj_depth` with no digit where the number should start
   * gives NaN, not the default. The white space `w` is what `parseInt` itself
   * trims; since `core.getInput` already trims its values, `w` is empty for
   * every value a workflow can supply (a blank value arrives as "" and gives 1).
   */
  lemma CsprojDepthNotNumeric(src: Source, w: string, sign: Sign, t: string)
    requires RequiredValidUpTo(src, |RequiredKeys|)
    requires AllWhiteSpace(w) && (t == [] || !IsDecimalDigit(t[0]))
    requires sign == NoSign && t != [] ==> !IsStrWhiteSpaceChar(t[0]) && t[0] != '+' && t[0] != '-'
    requires GetInput(src, "csproj_depth") == w + SignText(sign) + t != ""
    ensures GetInputs(src).Success?
    ensures GetInputs(src).value.csprojDepth == NaN
  {
    GetInputsValue(src);
    ParseIntOfNonNumeral(w, sign, t);
  }

  /**
   * `push_with_version` and `push_with_latest` default to `true`, and any
   * provided value other than "true" in some mix of cases turns them off.
   */
  lemma PushFlags(src: Source)
    requires RequiredValidUpTo(src, |RequiredKeys|)
    ensures GetInputs(src).Success?
    ensures GetInputs(src).value.pushWithVersion <==>
      !IsProvided(src, "push_with_version") || IsTrueIgnoringCase(src["push_with_version"])
    ensures GetInputs(src).value.pushWithLatest <==>
      !IsProvided(src, "push_with_latest") || IsTrueIgnoringCase(src["push_with_latest"])
  {
    GetInputsValue(src);
  }

}
