# C++ application variants, in Dafny

A model of how Gradle's C++ application plugin turns an application's build
types and targeted operating-system families into variants once the project
has been evaluated, with proofs of what that configuration guarantees.

Given the ordered build types (each a name plus debuggable and optimized
flags), the set of targeted operating-system families in its iteration order,
and the family of the host the build runs on, the plugin

- throws an `IllegalArgumentException` when no family is targeted;
- walks every build type and, inside, every targeted family;
- names each variant after its build type followed by a dimension suffix: the
  family name lower-cased and capitalised, shown only when more than one
  family is targeted; the runtime usage context is the variant name followed by
  `Runtime`;
- copies the build type's flags into the variant identity and its runtime
  attributes;
- creates an executable, and publishes it, for variants of the host's family,
  and publishes every other variant as known but not buildable;
- makes the debug executable on the host the development binary.

Files:

- `results.dfy` — `Option` and `Result`.
- `ascii_case.dfy` — lower-casing and capitalising, over ASCII letters.
- `cpp_application_plugin.dfy` — the data model and the variant loop, as two
  folds (`ConfigureOperatingSystems` inside `ConfigureBuildTypes`) whose
  state is the `Application` configured so far; `Configure` is the whole
  after-evaluation action.
- `cpp_application_variants.dfy` — the properties of `Configure`. A variant
  is located by `GridIndex(i, j, ...)`, which is `i * |targeted| + j` for build
  type `i` and family `j`. `Row` lists one build type's variants over the
  families, and `Grid` lists the rows of all build types one after the other;
  these are the reference the folds are proved against for the number and
  order of the variants. The variant of one (build type, family) pair is
  `PublishedFor`, defined with the loop body in `cpp_application_plugin.dfy`
  and called by it; its fields are stated on their own by the contracts of
  `IdentityFor` and `PublishedFor` and by `VariantNames`, `VariantFlags` and
  `BuildableExactlyOnHost`.

## Model

| member | source | states |
|---|---|---|
| CppApplicationPlugin.Configure | subprojects/language-native/src/main/java/org/gradle/language/cpp/plugins/CppApplicationPlugin.java:90-94 | An empty set of families is rejected with the plugin's message and produces no application, so no variant at all; any non-empty set is accepted. |
| CppApplicationPlugin.IsDimensionVisible | subprojects/language-native/src/main/java/org/gradle/language/cpp/plugins/CppApplicationPlugin.java:157-159 | A dimension that is not shown has nothing to tell its values apart by: every value equals the first. Over a set, the dimension is shown exactly when two different families are targeted. |
| AsciiCase.ToLowerCase | subprojects/language-native/src/main/java/org/gradle/language/cpp/plugins/CppApplicationPlugin.java:152 | Lower-casing keeps the length, turns every upper-case letter into its lower-case partner, leaves every other character as it is, and leaves no upper-case letter behind. |
| AsciiCase.Capitalize | subprojects/language-native/src/main/java/org/gradle/language/cpp/plugins/CppApplicationPlugin.java:152 | Capitalising keeps the length and every character after the first. A first lower-case letter becomes its upper-case partner; any other first character stays. |
| CppApplicationPlugin.DimensionSuffix | subprojects/language-native/src/main/java/org/gradle/language/cpp/plugins/CppApplicationPlugin.java:150-159 | The suffix is empty when at most one family is targeted. Otherwise it is as long as the family name. |
| CppApplicationPlugin.DimensionSuffixShape | subprojects/language-native/src/main/java/org/gradle/language/cpp/plugins/CppApplicationPlugin.java:151-152 | A visible suffix is the family name with its first character capitalised (upper case exactly when the name starts with a letter) and every other character lower-cased. It lower-cases back to the lower-cased name, and it is empty only for an empty name. |
| AsciiCase.LowerCaseIsIdempotent | subprojects/language-native/src/main/java/org/gradle/language/cpp/plugins/CppApplicationPlugin.java:152 | A lower-cased string has no upper-case letter, and lower-casing it again changes nothing. |
| AsciiCase.CapitalizeKeepsLowerCase | subprojects/language-native/src/main/java/org/gradle/language/cpp/plugins/CppApplicationPlugin.java:152 | Capitalising never changes what a string lower-cases to. So a variant's suffix lower-cases back to the lower-cased family name. |
| CppApplicationPlugin.IdentityFor | subprojects/language-native/src/main/java/org/gradle/language/cpp/plugins/CppApplicationPlugin.java:100-125 | A variant is named after its build type followed by the family's suffix, and by the build type's name alone when one family is targeted. Its runtime usage context is named after the variant plus "Runtime", has the native-runtime usage, and has attributes that agree with the identity's own flags and family. The identity carries the base name and the build type's flags, and has no link usage. |
| CppApplicationPlugin.PublishedFor | subprojects/language-native/src/main/java/org/gradle/language/cpp/plugins/CppApplicationPlugin.java:127-141 | The variant published for a pair is buildable exactly when the family's name equals the host's family name. Either way it carries the pair's identity. When buildable, the executable behind it wraps that same identity and is built with the tool-chain selection, so the executable added is the one published. |
| CppApplicationPlugin.ConfigureVariant | subprojects/language-native/src/main/java/org/gradle/language/cpp/plugins/CppApplicationPlugin.java:99-142 | One pass of the loop body appends exactly the pair's variant to the publication. On the host's family it also appends the pair's executable, and makes it the development binary exactly when the build type is the debug one. On any other family the executables and the development binary are unchanged. |
| CppApplicationPlugin.ConfigureOperatingSystems | subprojects/language-native/src/main/java/org/gradle/language/cpp/plugins/CppApplicationPlugin.java:99-143 | The inner loop publishes exactly one variant per remaining family and adds at most one executable per remaining family. |
| CppApplicationPlugin.ConfigureBuildTypes | subprojects/language-native/src/main/java/org/gradle/language/cpp/plugins/CppApplicationPlugin.java:98-144 | The outer loop publishes \|build types\|·\|families\| variants and adds at most that many executables. |
| CppApplicationVariants.InnerLoopPublishes | subprojects/language-native/src/main/java/org/gradle/language/cpp/plugins/CppApplicationPlugin.java:99-142 | One pass of the inner loop appends to the publication exactly one variant per remaining family, in iteration order. |
| CppApplicationVariants.OuterLoopPublishes | subprojects/language-native/src/main/java/org/gradle/language/cpp/plugins/CppApplicationPlugin.java:98-144 | The outer loop appends, after what was already published, one row per build type in build-type order. Each row holds that build type's variant for every family, in the set's order. |
| CppApplicationVariants.PublicationLayout | subprojects/language-native/src/main/java/org/gradle/language/cpp/plugins/CppApplicationPlugin.java:98-142 | Exactly one variant is published per (build type, family) pair. There are \|build types\|·\|families\| of them, in build-type-major then family order. |
| CppApplicationVariants.VariantNames | subprojects/language-native/src/main/java/org/gradle/language/cpp/plugins/CppApplicationPlugin.java:100-101 | Every variant's name is its build type's name followed by its family's dimension suffix. Its runtime usage context is that name followed by "Runtime". It carries the application's base name and its own family. |
| CppApplicationVariants.SingleTargetNames | subprojects/language-native/src/main/java/org/gradle/language/cpp/plugins/CppApplicationPlugin.java:98-101 | With a single targeted family there is one variant per build type, named exactly like the build type, in build-type order. |
| CppApplicationVariants.VariantFlags | subprojects/language-native/src/main/java/org/gradle/language/cpp/plugins/CppApplicationPlugin.java:117-125 | Each variant, and its runtime attributes, carry the debuggable and optimized flags of its build type, the native-runtime usage and its family. An application variant has no link usage. |
| CppApplicationVariants.BuildableExactlyOnHost | subprojects/language-native/src/main/java/org/gradle/language/cpp/plugins/CppApplicationPlugin.java:127-142 | A variant is backed by an executable exactly when its family's name is the host's family name. Otherwise it is published as known but not buildable. Executables use the tool-chain selection. |
| CppApplicationVariants.ConfigureVariantKeepsPartition | subprojects/language-native/src/main/java/org/gradle/language/cpp/plugins/CppApplicationPlugin.java:127-142 | Configuring one variant keeps the application's executables equal to the executables behind its buildable published variants. |
| CppApplicationVariants.InnerLoopKeepsPartition | subprojects/language-native/src/main/java/org/gradle/language/cpp/plugins/CppApplicationPlugin.java:99-143 | The inner loop keeps that partition invariant. |
| CppApplicationVariants.OuterLoopKeepsPartition | subprojects/language-native/src/main/java/org/gradle/language/cpp/plugins/CppApplicationPlugin.java:98-144 | The outer loop keeps that partition invariant. |
| CppApplicationVariants.ExecutablesAreBuildableVariants | subprojects/language-native/src/main/java/org/gradle/language/cpp/plugins/CppApplicationPlugin.java:127-142 | In the configured application, the executables are exactly those behind the buildable published variants, in publication order. |
| CppApplicationVariants.InnerLoopExecutables | subprojects/language-native/src/main/java/org/gradle/language/cpp/plugins/CppApplicationPlugin.java:127-130 | The inner loop appends one executable for each remaining family that is the host's, in order. |
| CppApplicationVariants.HostExecutablesOfSet | subprojects/language-native/src/main/java/org/gradle/language/cpp/plugins/CppApplicationPlugin.java:127-130 | Over a set of families, the inner loop adds exactly one executable when the host's family is in the set, and none otherwise. |
| CppApplicationVariants.OuterLoopExecutables | subprojects/language-native/src/main/java/org/gradle/language/cpp/plugins/CppApplicationPlugin.java:98-130 | Over a set of families, the outer loop appends one host executable per build type, in build-type order, when the host's family is targeted, and nothing otherwise. |
| CppApplicationVariants.ExecutablesOnHostOnly | subprojects/language-native/src/main/java/org/gradle/language/cpp/plugins/CppApplicationPlugin.java:127-130 | The configured application has one executable per build type, for the host's family, when that family is targeted, and none otherwise. |
| CppApplicationVariants.InnerLoopDevelopmentBinary | subprojects/language-native/src/main/java/org/gradle/language/cpp/plugins/CppApplicationPlugin.java:132-135 | The inner loop sets the development binary only for the debug build type when the host's family remains to be visited. The value is then the debug executable for the host. Otherwise the binary is unchanged. |
| CppApplicationVariants.OuterLoopDevelopmentBinary | subprojects/language-native/src/main/java/org/gradle/language/cpp/plugins/CppApplicationPlugin.java:98-135 | The outer loop sets the development binary, to the debug executable for the host, exactly when the debug build type is among the build types and the host's family is targeted. Otherwise the binary is unchanged. |
| CppApplicationVariants.DevelopmentBinaryIsHostDebug | subprojects/language-native/src/main/java/org/gradle/language/cpp/plugins/CppApplicationPlugin.java:132-135 | The development binary is set exactly when the debug build type is configured and the host's family is targeted. It is then the debug executable for the host, so no other variant ever becomes it. |
| CppApplicationVariants.DevelopmentBinaryIsAnExecutable | subprojects/language-native/src/main/java/org/gradle/language/cpp/plugins/CppApplicationPlugin.java:130-135 | The development binary, when set, is one of the application's executables. |

## Left out

- The worker-execution subsystem: `subprojects/workers/src/main/java/org/gradle/workers/internal/WorkersServices.java` only registers services. The lease registry, execution queue, worker process pool and memory-pressure eviction it wires are not part of this model.
- Plugin wiring in `apply`: applying the base plugin, registering the extension and the component, and scheduling the after-evaluation callback. The application's base name, which defaults to the project name, is an input (`Settings.baseName`).
- The base name is a live property in the plugin: each variant identity holds the base-name provider, so a later change to it shows in every identity. `Settings.baseName` is the value that provider yields when read, and `VariantIdentity.baseName` holds that value, not the provider.
- The `group` and `version` providers given to each variant identity: they are lazy project values that the loop never reads.
- The mutable attribute container from the attributes factory is a plain `RuntimeAttributes` value. `getBinaries().realizeNow()` is not modelled.
- `finalizeValue()` on the operating-system property: the set is an input and cannot change afterwards.
- Tool-chain selection: the plugin calls `toolChainSelector.select(CppPlatform.class)` again for every host variant. The model takes every such call to return the same result, one opaque `ToolChainSelection` input used for every host executable.
- The host's family name, from `DefaultNativePlatform.getCurrentOperatingSystem()`, is an input string.
- The contents of `BuildType.DEFAULT_BUILD_TYPES` are not part of this model. The build types are an input sequence. The identity test `buildType == BuildType.DEBUG` is equality with an input debug build type, `Settings.debug`.
- The set of families is a sequence in the set's iteration order. That order is whatever the set yields and is not modelled.
- ExecutablesOnHostOnly: requires that no family occurs twice (`IsSet`), which every Java `Set` guarantees. The same holds for OuterLoopExecutables, HostExecutablesOfSet and DevelopmentBinaryIsAnExecutable.
- `toLowerCase()` and `StringUtils.capitalize`: only ASCII letters change case. The default-locale dependence of `toLowerCase()` is not modelled; in a Turkish locale, for example, `I` lower-cases to a dotless i. Full Unicode title-casing is not modelled either.
- The development binary is taken to be unset before the loop runs (`Unconfigured`). A value set earlier by a build script would survive when no debug executable is created.
