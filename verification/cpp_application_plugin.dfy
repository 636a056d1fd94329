/** The variant configuration that the C++ application plugin runs once the
    project has been evaluated: every build type is crossed with every
    targeted operating-system family, each pair becomes a named variant of
    the application's main publication, the variants for the host's family
    become buildable executables, and the debug executable on the host
    becomes the development binary.

    The two loops of the plugin are modelled as two folds whose state is the
    `Application` configured so far. */
module CppApplicationPlugin {
  import opened Results
  import opened AsciiCase

  /** An operating-system family; such named objects are equal exactly when
      their names are. */
  datatype OperatingSystemFamily = OperatingSystemFamily(name: string)

  /** A build type with the two flags every variant built with it carries. */
  datatype BuildType = BuildType(name: string, debuggable: bool, optimized: bool)

  /** The usage an application's runtime variant is published with. */
  datatype Usage = NativeRuntime

  /** The attributes of a variant's runtime usage context. */
  datatype RuntimeAttributes = RuntimeAttributes(
    usage: Usage,
    debuggable: bool,
    optimized: bool,
    operatingSystem: OperatingSystemFamily)

  datatype UsageContext = UsageContext(name: string, usage: Usage, attributes: RuntimeAttributes)

  /** What identifies one variant of the application. An application has no
      link usage context, so `linkUsage` is always `None`. */
  datatype VariantIdentity = VariantIdentity(
    name: string,
    baseName: string,
    debuggable: bool,
    optimized: bool,
    operatingSystem: OperatingSystemFamily,
    linkUsage: Option<UsageContext>,
    runtimeUsage: UsageContext)

  /** The target platform, tool chain and platform tool provider chosen by the
      tool-chain selector; their contents are not interpreted here. */
  datatype ToolChainSelection = ToolChainSelection(
    targetPlatform: string,
    toolChain: string,
    platformToolProvider: string)

  /** An executable the application can build for one variant. */
  datatype Executable = Executable(identity: VariantIdentity, selection: ToolChainSelection)

  /** One variant of the main publication: either backed by an executable
      that this host can build, or known but not buildable here. */
  datatype PublishedVariant = Buildable(executable: Executable) | KnownOnly(identity: VariantIdentity)
  {
    function Identity(): VariantIdentity {
      match this
      case Buildable(e) => e.identity
      case KnownOnly(i) => i
    }
  }

  /** The application as the variant loop leaves it: the variants added to
      the main publication in order, the executables added, and the
      development binary if one was set. */
  datatype Application = Application(
    publication: seq<PublishedVariant>,
    executables: seq<Executable>,
    developmentBinary: Option<Executable>)

  /** The exception the configuration throws. */
  datatype ConfigurationError = IllegalArgument(message: string)

  /** What the loop reads from its surroundings: the application's base name,
      the family name of the operating system the build runs on, the result
      of the tool-chain selection, and the debug build type (compared by
      equality where the plugin compares with `BuildType.DEBUG`). */
  datatype Settings = Settings(
    baseName: string,
    hostFamily: string,
    selection: ToolChainSelection,
    debug: BuildType)

  const NoOperatingSystemMessage: string := "An operating system needs to be specified for the application."

  /** Appended to a variant's name to name its runtime usage context. */
  const RuntimeSuffix: string := "Runtime"

  /** The application before any variant has been configured. */
  const Unconfigured: Application := Application([], [], None)

  /** A sequence of families read off a set: no family occurs twice. */
  predicate IsSet(values: seq<OperatingSystemFamily>) {
    forall a, b :: 0 <= a < b < |values| ==> values[a] != values[b]
  }

  /** A dimension is shown in variant names only when it has several values:
      a hidden dimension has nothing to tell its values apart by, and over a
      set the dimension is visible exactly when two different families are
      targeted. */
  function IsDimensionVisible(values: seq<OperatingSystemFamily>): (visible: bool)
    ensures !visible ==> forall j :: 0 <= j < |values| ==> values[j] == values[0]
    ensures IsSet(values) ==> (visible <==> exists j :: 0 <= j < |values| && values[j] != values[0])
  {
    assert |values| > 1 && IsSet(values) ==> values[1] != values[0];
    |values| > 1
  }

  /** The part of a variant name contributed by its operating system: nothing
      when a single family is targeted, otherwise the family name lower-cased
      with its first character capitalised. */
  function DimensionSuffix(value: OperatingSystemFamily, values: seq<OperatingSystemFamily>): (r: string)
    ensures !IsDimensionVisible(values) ==> r == ""
    ensures IsDimensionVisible(values) ==> |r| == |value.name|
  {
    if IsDimensionVisible(values) then Capitalize(ToLowerCase(value.name)) else ""
  }

  /** A visible suffix is the family name with its first character
      capitalised and every other character lower-cased; it lower-cases back
      to the lower-cased family name, and it is empty only for an empty name. */
  lemma DimensionSuffixShape(value: OperatingSystemFamily, values: seq<OperatingSystemFamily>)
    requires IsDimensionVisible(values)
    ensures var r := DimensionSuffix(value, values);
            && ToLowerCase(r) == ToLowerCase(value.name)
            && (r == "" <==> value.name == "")
            && (|value.name| > 0 ==> r[0] == TitleChar(LowerChar(value.name[0])) && (IsUpper(r[0]) <==> IsLetter(value.name[0])))
            && forall k :: 1 <= k < |r| ==> r[k] == LowerChar(value.name[k])
  {
  }

  /** The identity of the variant built with `buildType` for `os`, when
      `targeted` are all the families the application targets: named after
      the build type (and nothing more when a single family is targeted),
      with a runtime usage context named after the variant whose attributes
      agree with the identity's own flags and family. */
  function IdentityFor(buildType: BuildType, os: OperatingSystemFamily, targeted: seq<OperatingSystemFamily>, settings: Settings): (r: VariantIdentity)
    ensures r.name == buildType.name + DimensionSuffix(os, targeted)
    ensures |targeted| <= 1 ==> r.name == buildType.name
    ensures r.runtimeUsage.name == r.name + RuntimeSuffix
    ensures r.baseName == settings.baseName && r.operatingSystem == os && r.linkUsage == None
    ensures r.debuggable == buildType.debuggable && r.optimized == buildType.optimized
    ensures r.runtimeUsage.usage == NativeRuntime
    ensures r.runtimeUsage.attributes == RuntimeAttributes(NativeRuntime, r.debuggable, r.optimized, r.operatingSystem)
  {
    var name := buildType.name + DimensionSuffix(os, targeted);
    var attributes := RuntimeAttributes(NativeRuntime, buildType.debuggable, buildType.optimized, os);
    VariantIdentity(name, settings.baseName, buildType.debuggable, buildType.optimized, os, None,
                    UsageContext(name + RuntimeSuffix, NativeRuntime, attributes))
  }

  /** The variant added to the main publication for one pair: buildable
      exactly when the family's name is the host's family name, and then
      backed by an executable that wraps the very identity being published,
      built with the tool-chain selection. */
  function PublishedFor(buildType: BuildType, os: OperatingSystemFamily, targeted: seq<OperatingSystemFamily>, settings: Settings): (r: PublishedVariant)
    ensures r.Buildable? <==> settings.hostFamily == os.name
    ensures r.Identity() == IdentityFor(buildType, os, targeted, settings)
    ensures r.Buildable? ==> r.executable.identity == r.Identity() && r.executable.selection == settings.selection
  {
    if settings.hostFamily == os.name then
      Buildable(Executable(IdentityFor(buildType, os, targeted, settings), settings.selection))
    else
      KnownOnly(IdentityFor(buildType, os, targeted, settings))
  }

  /** One pass of the inner loop body: publish the variant, and on the host
      also add the executable and, for the debug build type, make it the
      development binary. */
  function ConfigureVariant(app: Application, buildType: BuildType, os: OperatingSystemFamily, targeted: seq<OperatingSystemFamily>, settings: Settings): (r: Application)
    ensures r.publication == app.publication + [PublishedFor(buildType, os, targeted, settings)]
    ensures settings.hostFamily == os.name ==>
              && r.executables == app.executables + [PublishedFor(buildType, os, targeted, settings).executable]
              && r.developmentBinary == if buildType == settings.debug then Some(PublishedFor(buildType, os, targeted, settings).executable) else app.developmentBinary
    ensures settings.hostFamily != os.name ==> r.executables == app.executables && r.developmentBinary == app.developmentBinary
  {
    var variant := PublishedFor(buildType, os, targeted, settings);
    match variant
    case Buildable(executable) =>
      var development := if buildType == settings.debug then Some(executable) else app.developmentBinary;
      Application(app.publication + [variant], app.executables + [executable], development)
    case KnownOnly(_) =>
      Application(app.publication + [variant], app.executables, app.developmentBinary)
  }

  /** The inner loop: the families still to visit are `remaining`, in the
      iteration order of the targeted set. */
  function ConfigureOperatingSystems(app: Application, buildType: BuildType, remaining: seq<OperatingSystemFamily>, targeted: seq<OperatingSystemFamily>, settings: Settings): (r: Application)
    ensures |r.publication| == |app.publication| + |remaining|
    ensures |app.executables| <= |r.executables| <= |app.executables| + |remaining|
    decreases |remaining|
  {
    if remaining == [] then app
    else ConfigureOperatingSystems(ConfigureVariant(app, buildType, remaining[0], targeted, settings), buildType, remaining[1..], targeted, settings)
  }

  /** The outer loop over the build types still to visit. */
  function ConfigureBuildTypes(app: Application, buildTypes: seq<BuildType>, targeted: seq<OperatingSystemFamily>, settings: Settings): (r: Application)
    ensures |r.publication| == |app.publication| + |buildTypes| * |targeted|
    ensures |app.executables| <= |r.executables| <= |app.executables| + |buildTypes| * |targeted|
    decreases |buildTypes|
  {
    if buildTypes == [] then app
    else
      assert |buildTypes| * |targeted| == |targeted| + (|buildTypes| - 1) * |targeted|;
      ConfigureBuildTypes(ConfigureOperatingSystems(app, buildTypes[0], targeted, targeted, settings), buildTypes[1..], targeted, settings)
  }

  /** The whole after-evaluation configuration: `targeted` lists the set of
      targeted families in its iteration order. An empty set is rejected
      before any variant is created. */
  function Configure(buildTypes: seq<BuildType>, targeted: seq<OperatingSystemFamily>, settings: Settings): (r: Result<Application, ConfigurationError>)
    ensures r.Failure? <==> targeted == []
    ensures r.Failure? ==> r.error == IllegalArgument(NoOperatingSystemMessage)
  {
    if targeted == [] then Failure(IllegalArgument(NoOperatingSystemMessage))
    else Success(ConfigureBuildTypes(Unconfigured, buildTypes, targeted, settings))
  }
}
