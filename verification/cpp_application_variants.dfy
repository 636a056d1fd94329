/** What the variant configuration of the C++ application plugin guarantees:
    where each (build type, operating system) pair lands in the publication,
    how it is named, which flags it carries, which variants are buildable,
    which executables exist and which one is the development binary. */
module CppApplicationVariants {
  import opened Results
  import opened AsciiCase
  import opened CppApplicationPlugin

  // ---------------------------------------------------------------------
  // Positions in the enumeration, and sequence regrouping

  /** The position of the pair (build type `i`, operating system `j`) in a
      build-type-major enumeration with `columns` operating systems. */
  function GridIndex(i: nat, j: nat, rows: nat, columns: nat): (k: nat)
    requires i < rows && j < columns
    ensures k < rows * columns
  {
    GridBound(i, j, rows, columns);
    i * columns + j
  }

  lemma GridBound(i: nat, j: nat, rows: nat, columns: nat)
    requires i < rows && j < columns
    ensures i * columns + j < rows * columns
  {
    var rest: nat := rows - i - 1;
    assert rows * columns == i * columns + columns + rest * columns;
    assert rest * columns >= 0;
  }

  lemma GridIndexShift(i: nat, j: nat, rows: nat, columns: nat)
    requires 1 <= i < rows && j < columns
    ensures GridIndex(i, j, rows, columns) == columns + GridIndex(i - 1, j, rows - 1, columns)
  {
  }

  lemma GridRows(rows: nat, columns: nat)
    requires rows >= 1
    ensures rows * columns == columns + (rows - 1) * columns
  {
  }

  lemma AppendRegroup<T>(a: seq<T>, x: T, b: seq<T>, c: seq<T>)
    requires c == [x] + b
    ensures a + [x] + b == a + c
  {
  }

  lemma AppendAssociates<T>(a: seq<T>, b: seq<T>, c: seq<T>, d: seq<T>)
    requires d == b + c
    ensures a + b + c == a + d
  {
  }

  lemma AppendNothing<T>(a: seq<T>)
    ensures a + [] == a
  {
  }

  // ---------------------------------------------------------------------
  // Reference definitions

  /** The variants the inner loop publishes for one build type, one per
      family of `remaining`, in order. */
  function Row(buildType: BuildType, remaining: seq<OperatingSystemFamily>, targeted: seq<OperatingSystemFamily>, settings: Settings): seq<PublishedVariant> {
    seq(|remaining|, k requires 0 <= k < |remaining| => PublishedFor(buildType, remaining[k], targeted, settings))
  }

  /** The variants of every build type's row, one row after the other. */
  function Grid(buildTypes: seq<BuildType>, targeted: seq<OperatingSystemFamily>, settings: Settings): seq<PublishedVariant> {
    if buildTypes == [] then []
    else Row(buildTypes[0], targeted, targeted, settings) + Grid(buildTypes[1..], targeted, settings)
  }

  /** The family the build runs on, as a value of the targeted set. */
  function HostFamily(settings: Settings): OperatingSystemFamily {
    OperatingSystemFamily(settings.hostFamily)
  }

  /** The executable the host builds for one pair. */
  function ExecutableFor(buildType: BuildType, os: OperatingSystemFamily, targeted: seq<OperatingSystemFamily>, settings: Settings): Executable {
    Executable(IdentityFor(buildType, os, targeted, settings), settings.selection)
  }

  /** The executable a variant adds: one for the host's family, none otherwise. */
  function HostExecutable(buildType: BuildType, os: OperatingSystemFamily, targeted: seq<OperatingSystemFamily>, settings: Settings): seq<Executable> {
    if os == HostFamily(settings) then [ExecutableFor(buildType, os, targeted, settings)] else []
  }

  /** The executables the inner loop adds for one build type. */
  function HostExecutables(buildType: BuildType, remaining: seq<OperatingSystemFamily>, targeted: seq<OperatingSystemFamily>, settings: Settings): seq<Executable> {
    if remaining == [] then []
    else
      HostExecutable(buildType, remaining[0], targeted, settings) + HostExecutables(buildType, remaining[1..], targeted, settings)
  }

  /** One executable for the host per build type, in build-type order. */
  function HostColumn(buildTypes: seq<BuildType>, targeted: seq<OperatingSystemFamily>, settings: Settings): seq<Executable> {
    if buildTypes == [] then []
    else [ExecutableFor(buildTypes[0], HostFamily(settings), targeted, settings)] + HostColumn(buildTypes[1..], targeted, settings)
  }

  /** The executables of the buildable variants of `publication`, in order. */
  function BuildableExecutables(publication: seq<PublishedVariant>): seq<Executable> {
    if publication == [] then []
    else
      var last := publication[|publication| - 1];
      BuildableExecutables(publication[..|publication| - 1]) + (if last.Buildable? then [last.executable] else [])
  }

  /** The executables an application holds are exactly those behind its
      buildable published variants. */
  predicate Partitioned(app: Application) {
    app.executables == BuildableExecutables(app.publication)
  }

  // ---------------------------------------------------------------------
  // Rows

  /** A row is its first variant followed by the row of the remaining
      families: each element of the row after the first is the element one
      place before it in the row of the tail. */
  lemma RowCons(buildType: BuildType, remaining: seq<OperatingSystemFamily>, targeted: seq<OperatingSystemFamily>, settings: Settings)
    requires remaining != []
    ensures Row(buildType, remaining, targeted, settings)
            == [PublishedFor(buildType, remaining[0], targeted, settings)] + Row(buildType, remaining[1..], targeted, settings)
  {
    var row := Row(buildType, remaining, targeted, settings);
    var rest := remaining[1..];
    var tail := Row(buildType, rest, targeted, settings);
    forall k | 1 <= k < |row|
      ensures row[k] == tail[k - 1]
    {
      assert rest[k - 1] == remaining[k];
    }
  }

  // ---------------------------------------------------------------------
  // Publication order and contents

  lemma {:induction false} InnerLoopPublishes(app: Application, buildType: BuildType, remaining: seq<OperatingSystemFamily>, targeted: seq<OperatingSystemFamily>, settings: Settings)
    ensures ConfigureOperatingSystems(app, buildType, remaining, targeted, settings).publication
            == app.publication + Row(buildType, remaining, targeted, settings)
    decreases |remaining|
  {
    if remaining != [] {
      var next := ConfigureVariant(app, buildType, remaining[0], targeted, settings);
      InnerLoopPublishes(next, buildType, remaining[1..], targeted, settings);
      RowCons(buildType, remaining, targeted, settings);
      AppendAssociates(app.publication, [PublishedFor(buildType, remaining[0], targeted, settings)],
                       Row(buildType, remaining[1..], targeted, settings), Row(buildType, remaining, targeted, settings));
    }
  }

  lemma {:induction false} OuterLoopPublishes(app: Application, buildTypes: seq<BuildType>, targeted: seq<OperatingSystemFamily>, settings: Settings)
    ensures ConfigureBuildTypes(app, buildTypes, targeted, settings).publication
            == app.publication + Grid(buildTypes, targeted, settings)
    decreases |buildTypes|
  {
    if buildTypes != [] {
      var next := ConfigureOperatingSystems(app, buildTypes[0], targeted, targeted, settings);
      InnerLoopPublishes(app, buildTypes[0], targeted, targeted, settings);
      OuterLoopPublishes(next, buildTypes[1..], targeted, settings);
      AppendAssociates(app.publication, Row(buildTypes[0], targeted, targeted, settings),
                       Grid(buildTypes[1..], targeted, settings), Grid(buildTypes, targeted, settings));
    }
  }

  /** The grid holds one variant per pair. */
  lemma {:induction false} GridLength(buildTypes: seq<BuildType>, targeted: seq<OperatingSystemFamily>, settings: Settings)
    ensures |Grid(buildTypes, targeted, settings)| == |buildTypes| * |targeted|
    decreases |buildTypes|
  {
    if buildTypes != [] {
      GridLength(buildTypes[1..], targeted, settings);
      GridRows(|buildTypes|, |targeted|);
    }
  }

  /** The variant of build type `i` and family `j` sits at their grid index. */
  lemma {:induction false} GridCell(buildTypes: seq<BuildType>, targeted: seq<OperatingSystemFamily>, settings: Settings, i: nat, j: nat)
    requires i < |buildTypes| && j < |targeted|
    ensures |Grid(buildTypes, targeted, settings)| == |buildTypes| * |targeted|
    ensures Grid(buildTypes, targeted, settings)[GridIndex(i, j, |buildTypes|, |targeted|)]
            == PublishedFor(buildTypes[i], targeted[j], targeted, settings)
    decreases i
  {
    var n := |targeted|;
    var rest := buildTypes[1..];
    var row := Row(buildTypes[0], targeted, targeted, settings);
    var tail := Grid(rest, targeted, settings);
    GridLength(buildTypes, targeted, settings);
    GridLength(rest, targeted, settings);
    assert Grid(buildTypes, targeted, settings) == row + tail;
    if i == 0 {
      assert GridIndex(0, j, |buildTypes|, n) == j;
    } else {
      GridCell(rest, targeted, settings, i - 1, j);
      GridIndexShift(i, j, |buildTypes|, n);
      assert rest[i - 1] == buildTypes[i];
    }
  }

  /** The grid holds one variant per pair, build-type-major. */
  lemma GridLayout(buildTypes: seq<BuildType>, targeted: seq<OperatingSystemFamily>, settings: Settings)
    ensures |Grid(buildTypes, targeted, settings)| == |buildTypes| * |targeted|
    ensures forall i, j :: 0 <= i < |buildTypes| && 0 <= j < |targeted| ==>
              Grid(buildTypes, targeted, settings)[GridIndex(i, j, |buildTypes|, |targeted|)]
              == PublishedFor(buildTypes[i], targeted[j], targeted, settings)
  {
    GridLength(buildTypes, targeted, settings);
    forall i, j | 0 <= i < |buildTypes| && 0 <= j < |targeted|
      ensures Grid(buildTypes, targeted, settings)[GridIndex(i, j, |buildTypes|, |targeted|)]
              == PublishedFor(buildTypes[i], targeted[j], targeted, settings)
    {
      GridCell(buildTypes, targeted, settings, i, j);
    }
  }

  /** Exactly one variant is published per (build type, operating system)
      pair, build-type-major and in the set's order, and it is the one
      `PublishedFor` describes. */
  lemma PublicationLayout(buildTypes: seq<BuildType>, targeted: seq<OperatingSystemFamily>, settings: Settings)
    ensures Configure(buildTypes, targeted, settings).Success? ==>
              var publication := Configure(buildTypes, targeted, settings).value.publication;
              && |publication| == |buildTypes| * |targeted|
              && forall i, j :: 0 <= i < |buildTypes| && 0 <= j < |targeted| ==>
                   publication[GridIndex(i, j, |buildTypes|, |targeted|)] == PublishedFor(buildTypes[i], targeted[j], targeted, settings)
  {
    if targeted != [] {
      var grid := Grid(buildTypes, targeted, settings);
      OuterLoopPublishes(Unconfigured, buildTypes, targeted, settings);
      assert ConfigureBuildTypes(Unconfigured, buildTypes, targeted, settings).publication == grid;
      GridLayout(buildTypes, targeted, settings);
    }
  }

  /** Every variant is named after its build type followed by the dimension
      suffix of its operating system, and its runtime usage context is named
      after the variant. */
  lemma VariantNames(buildTypes: seq<BuildType>, targeted: seq<OperatingSystemFamily>, settings: Settings)
    ensures Configure(buildTypes, targeted, settings).Success? ==>
              var publication := Configure(buildTypes, targeted, settings).value.publication;
              && |publication| == |buildTypes| * |targeted|
              && forall i, j :: 0 <= i < |buildTypes| && 0 <= j < |targeted| ==>
                   var v := publication[GridIndex(i, j, |buildTypes|, |targeted|)].Identity();
                   && v.name == buildTypes[i].name + DimensionSuffix(targeted[j], targeted)
                   && v.runtimeUsage.name == v.name + RuntimeSuffix
                   && v.baseName == settings.baseName
                   && v.operatingSystem == targeted[j]
  {
    PublicationLayout(buildTypes, targeted, settings);
  }

  /** With a single targeted family the variants are named exactly like
      their build types and appear in build-type order. */
  lemma SingleTargetNames(buildTypes: seq<BuildType>, os: OperatingSystemFamily, settings: Settings)
    ensures Configure(buildTypes, [os], settings).Success?
    ensures var publication := Configure(buildTypes, [os], settings).value.publication;
            && |publication| == |buildTypes|
            && forall i :: 0 <= i < |buildTypes| ==> publication[i].Identity().name == buildTypes[i].name
  {
    VariantNames(buildTypes, [os], settings);
    var publication := Configure(buildTypes, [os], settings).value.publication;
    forall i | 0 <= i < |buildTypes|
      ensures publication[i].Identity().name == buildTypes[i].name
    {
      assert GridIndex(i, 0, |buildTypes|, 1) == i;
      assert buildTypes[i].name + "" == buildTypes[i].name;
    }
  }

  /** Each variant and its runtime attributes carry the debuggable and
      optimized flags of its build type, the native-runtime usage and its
      operating system; an application variant has no link usage. */
  lemma VariantFlags(buildTypes: seq<BuildType>, targeted: seq<OperatingSystemFamily>, settings: Settings)
    ensures Configure(buildTypes, targeted, settings).Success? ==>
              var publication := Configure(buildTypes, targeted, settings).value.publication;
              && |publication| == |buildTypes| * |targeted|
              && forall i, j :: 0 <= i < |buildTypes| && 0 <= j < |targeted| ==>
                   var v := publication[GridIndex(i, j, |buildTypes|, |targeted|)].Identity();
                   && v.debuggable == buildTypes[i].debuggable
                   && v.optimized == buildTypes[i].optimized
                   && v.linkUsage == None
                   && v.runtimeUsage.usage == NativeRuntime
                   && v.runtimeUsage.attributes
                      == RuntimeAttributes(NativeRuntime, buildTypes[i].debuggable, buildTypes[i].optimized, targeted[j])
  {
    PublicationLayout(buildTypes, targeted, settings);
  }

  /** A variant is backed by an executable exactly when its operating system
      is the host's family; every other variant is published as known but
      not buildable. */
  lemma BuildableExactlyOnHost(buildTypes: seq<BuildType>, targeted: seq<OperatingSystemFamily>, settings: Settings)
    ensures Configure(buildTypes, targeted, settings).Success? ==>
              var publication := Configure(buildTypes, targeted, settings).value.publication;
              && |publication| == |buildTypes| * |targeted|
              && forall i, j :: 0 <= i < |buildTypes| && 0 <= j < |targeted| ==>
                   var p := publication[GridIndex(i, j, |buildTypes|, |targeted|)];
                   && (p.Buildable? <==> targeted[j].name == settings.hostFamily)
                   && (p.KnownOnly? <==> targeted[j].name != settings.hostFamily)
                   && (p.Buildable? ==> p.executable.selection == settings.selection)
  {
    PublicationLayout(buildTypes, targeted, settings);
  }

  // ---------------------------------------------------------------------
  // Executables

  lemma {:induction false} BuildableExecutablesAppend(publication: seq<PublishedVariant>, variant: PublishedVariant)
    ensures BuildableExecutables(publication + [variant])
            == BuildableExecutables(publication) + (if variant.Buildable? then [variant.executable] else [])
  {
  }

  lemma ConfigureVariantKeepsPartition(app: Application, buildType: BuildType, os: OperatingSystemFamily, targeted: seq<OperatingSystemFamily>, settings: Settings)
    requires Partitioned(app)
    ensures Partitioned(ConfigureVariant(app, buildType, os, targeted, settings))
  {
  }

  lemma {:induction false} InnerLoopKeepsPartition(app: Application, buildType: BuildType, remaining: seq<OperatingSystemFamily>, targeted: seq<OperatingSystemFamily>, settings: Settings)
    requires Partitioned(app)
    ensures Partitioned(ConfigureOperatingSystems(app, buildType, remaining, targeted, settings))
    decreases |remaining|
  {
    if remaining != [] {
      ConfigureVariantKeepsPartition(app, buildType, remaining[0], targeted, settings);
      InnerLoopKeepsPartition(ConfigureVariant(app, buildType, remaining[0], targeted, settings), buildType, remaining[1..], targeted, settings);
    }
  }

  lemma {:induction false} OuterLoopKeepsPartition(app: Application, buildTypes: seq<BuildType>, targeted: seq<OperatingSystemFamily>, settings: Settings)
    requires Partitioned(app)
    ensures Partitioned(ConfigureBuildTypes(app, buildTypes, targeted, settings))
    decreases |buildTypes|
  {
    if buildTypes != [] {
      InnerLoopKeepsPartition(app, buildTypes[0], targeted, targeted, settings);
      OuterLoopKeepsPartition(ConfigureOperatingSystems(app, buildTypes[0], targeted, targeted, settings), buildTypes[1..], targeted, settings);
    }
  }

  /** The executables of the configured application are exactly the
      executables behind its buildable published variants, in publication
      order: the publication is split into buildable and known-only variants
      with nothing lost or added. */
  lemma ExecutablesAreBuildableVariants(buildTypes: seq<BuildType>, targeted: seq<OperatingSystemFamily>, settings: Settings)
    ensures Configure(buildTypes, targeted, settings).Success? ==> Partitioned(Configure(buildTypes, targeted, settings).value)
  {
    OuterLoopKeepsPartition(Unconfigured, buildTypes, targeted, settings);
  }

  lemma {:induction false} InnerLoopExecutables(app: Application, buildType: BuildType, remaining: seq<OperatingSystemFamily>, targeted: seq<OperatingSystemFamily>, settings: Settings)
    ensures ConfigureOperatingSystems(app, buildType, remaining, targeted, settings).executables
            == app.executables + HostExecutables(buildType, remaining, targeted, settings)
    decreases |remaining|
  {
    if remaining != [] {
      var next := ConfigureVariant(app, buildType, remaining[0], targeted, settings);
      InnerLoopExecutables(next, buildType, remaining[1..], targeted, settings);
      if remaining[0] != HostFamily(settings) {
        AppendNothing(app.executables);
      }
      AppendAssociates(app.executables, HostExecutable(buildType, remaining[0], targeted, settings),
                       HostExecutables(buildType, remaining[1..], targeted, settings), HostExecutables(buildType, remaining, targeted, settings));
    }
  }

  lemma {:induction false} HostExecutablesOfSet(buildType: BuildType, remaining: seq<OperatingSystemFamily>, targeted: seq<OperatingSystemFamily>, settings: Settings)
    requires IsSet(remaining)
    ensures HostExecutables(buildType, remaining, targeted, settings)
            == if HostFamily(settings) in remaining then [ExecutableFor(buildType, HostFamily(settings), targeted, settings)] else []
    decreases |remaining|
  {
    if remaining != [] {
      var tail := remaining[1..];
      assert IsSet(tail) by {
        forall a, b | 0 <= a < b < |tail| ensures tail[a] != tail[b] {
          assert tail[a] == remaining[a + 1] && tail[b] == remaining[b + 1];
        }
      }
      HostExecutablesOfSet(buildType, tail, targeted, settings);
      if remaining[0] == HostFamily(settings) {
        assert HostFamily(settings) !in tail by {
          forall b | 0 <= b < |tail| ensures tail[b] != remaining[0] {
            assert tail[b] == remaining[b + 1];
          }
        }
      } else {
        assert HostFamily(settings) in remaining <==> HostFamily(settings) in tail;
      }
    }
  }

  lemma {:induction false} HostColumnIndex(buildTypes: seq<BuildType>, targeted: seq<OperatingSystemFamily>, settings: Settings)
    ensures |HostColumn(buildTypes, targeted, settings)| == |buildTypes|
    ensures forall i :: 0 <= i < |buildTypes| ==>
              HostColumn(buildTypes, targeted, settings)[i] == ExecutableFor(buildTypes[i], HostFamily(settings), targeted, settings)
    decreases |buildTypes|
  {
    if buildTypes != [] {
      HostColumnIndex(buildTypes[1..], targeted, settings);
      forall i | 1 <= i < |buildTypes|
        ensures HostColumn(buildTypes, targeted, settings)[i] == ExecutableFor(buildTypes[i], HostFamily(settings), targeted, settings)
      {
        assert HostColumn(buildTypes, targeted, settings)[i] == HostColumn(buildTypes[1..], targeted, settings)[i - 1];
        assert buildTypes[1..][i - 1] == buildTypes[i];
      }
    }
  }

  lemma {:induction false} OuterLoopExecutables(app: Application, buildTypes: seq<BuildType>, targeted: seq<OperatingSystemFamily>, settings: Settings)
    requires IsSet(targeted)
    ensures ConfigureBuildTypes(app, buildTypes, targeted, settings).executables
            == app.executables + if HostFamily(settings) in targeted then HostColumn(buildTypes, targeted, settings) else []
    decreases |buildTypes|
  {
    if buildTypes != [] {
      InnerLoopExecutables(app, buildTypes[0], targeted, targeted, settings);
      HostExecutablesOfSet(buildTypes[0], targeted, targeted, settings);
      var next := ConfigureOperatingSystems(app, buildTypes[0], targeted, targeted, settings);
      OuterLoopExecutables(next, buildTypes[1..], targeted, settings);
      if HostFamily(settings) in targeted {
        AppendRegroup(app.executables, ExecutableFor(buildTypes[0], HostFamily(settings), targeted, settings),
                      HostColumn(buildTypes[1..], targeted, settings), HostColumn(buildTypes, targeted, settings));
      } else {
        AppendNothing(app.executables);
      }
    }
  }

  /** When the host's family is targeted the application gets one executable
      per build type, in build-type order, each for the host; otherwise it
      gets none. */
  lemma ExecutablesOnHostOnly(buildTypes: seq<BuildType>, targeted: seq<OperatingSystemFamily>, settings: Settings)
    requires IsSet(targeted)
    ensures Configure(buildTypes, targeted, settings).Success? ==>
              var executables := Configure(buildTypes, targeted, settings).value.executables;
              && (HostFamily(settings) !in targeted ==> executables == [])
              && (HostFamily(settings) in targeted ==>
                    && |executables| == |buildTypes|
                    && forall i :: 0 <= i < |buildTypes| ==>
                         executables[i] == ExecutableFor(buildTypes[i], HostFamily(settings), targeted, settings))
  {
    if targeted != [] {
      var executables := ConfigureBuildTypes(Unconfigured, buildTypes, targeted, settings).executables;
      OuterLoopExecutables(Unconfigured, buildTypes, targeted, settings);
      if HostFamily(settings) in targeted {
        assert executables == HostColumn(buildTypes, targeted, settings);
        HostColumnIndex(buildTypes, targeted, settings);
      } else {
        assert executables == [];
      }
    }
  }

  // ---------------------------------------------------------------------
  // Development binary

  lemma {:induction false} InnerLoopDevelopmentBinary(app: Application, buildType: BuildType, remaining: seq<OperatingSystemFamily>, targeted: seq<OperatingSystemFamily>, settings: Settings)
    ensures ConfigureOperatingSystems(app, buildType, remaining, targeted, settings).developmentBinary
            == if buildType == settings.debug && HostFamily(settings) in remaining
               then Some(ExecutableFor(settings.debug, HostFamily(settings), targeted, settings))
               else app.developmentBinary
    decreases |remaining|
  {
    if remaining != [] {
      var next := ConfigureVariant(app, buildType, remaining[0], targeted, settings);
      InnerLoopDevelopmentBinary(next, buildType, remaining[1..], targeted, settings);
      assert HostFamily(settings) in remaining <==> remaining[0] == HostFamily(settings) || HostFamily(settings) in remaining[1..];
    }
  }

  lemma {:induction false} OuterLoopDevelopmentBinary(app: Application, buildTypes: seq<BuildType>, targeted: seq<OperatingSystemFamily>, settings: Settings)
    ensures ConfigureBuildTypes(app, buildTypes, targeted, settings).developmentBinary
            == if settings.debug in buildTypes && HostFamily(settings) in targeted
               then Some(ExecutableFor(settings.debug, HostFamily(settings), targeted, settings))
               else app.developmentBinary
    decreases |buildTypes|
  {
    if buildTypes != [] {
      InnerLoopDevelopmentBinary(app, buildTypes[0], targeted, targeted, settings);
      OuterLoopDevelopmentBinary(ConfigureOperatingSystems(app, buildTypes[0], targeted, targeted, settings), buildTypes[1..], targeted, settings);
      assert settings.debug in buildTypes <==> buildTypes[0] == settings.debug || settings.debug in buildTypes[1..];
    }
  }

  /** The development binary is set exactly when the debug build type is
      configured and the host's family is targeted, and it is then the debug
      executable for the host; no other variant ever becomes it. */
  lemma DevelopmentBinaryIsHostDebug(buildTypes: seq<BuildType>, targeted: seq<OperatingSystemFamily>, settings: Settings)
    ensures Configure(buildTypes, targeted, settings).Success? ==>
              Configure(buildTypes, targeted, settings).value.developmentBinary
              == if settings.debug in buildTypes && HostFamily(settings) in targeted
                 then Some(ExecutableFor(settings.debug, HostFamily(settings), targeted, settings))
                 else None
  {
    OuterLoopDevelopmentBinary(Unconfigured, buildTypes, targeted, settings);
  }

  /** The development binary is one of the application's executables. */
  lemma DevelopmentBinaryIsAnExecutable(buildTypes: seq<BuildType>, targeted: seq<OperatingSystemFamily>, settings: Settings)
    requires IsSet(targeted)
    ensures Configure(buildTypes, targeted, settings).Success? ==>
              var app := Configure(buildTypes, targeted, settings).value;
              app.developmentBinary.Some? ==> app.developmentBinary.value in app.executables
  {
    DevelopmentBinaryIsHostDebug(buildTypes, targeted, settings);
    ExecutablesOnHostOnly(buildTypes, targeted, settings);
    var app := Configure(buildTypes, targeted, settings);
    if app.Success? && app.value.developmentBinary.Some? {
      var i :| 0 <= i < |buildTypes| && buildTypes[i] == settings.debug;
      assert app.value.executables[i] == app.value.developmentBinary.value;
    }
  }
}
