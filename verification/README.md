# Spawn input mapping, modelled in Dafny

This project models the core of Bazel's spawn input mapping engine
(`SpawnInputExpander`). The engine turns an action's inputs into one flat
table from a base-directory-relative destination path to an input. It reads
four kinds of input:

- direct input files, with tree artifacts expanded to their member files;
- runfiles trees (root, then path below the root, then an artifact or null);
- filesets reached through runfiles;
- filesets declared directly on the action.

Every write goes through `addMapping`. It rejects an absolute target and
resolves the target against the base directory with `getRelative`. The phases run in a fixed
order: direct inputs, then runfiles, then standalone filesets. A later write
to the same destination overwrites an earlier one.

The project also models the derived settings of the Objective-C
configuration fragment (`ObjcConfiguration`). These are decision tables
over the compilation mode and a few boolean options.

Modules:

- `Results` (results.dfy): `Option` for Java's nullable references and
  `Result` for thrown exceptions.
- `Paths` (paths.dfy): `PathFragment` as an absolute flag plus segments,
  with `GetRelative` and `StartsWith`.
- `Actions` (actions.dfy): artifacts, their kinds (normal file, tree,
  fileset), inputs (empty marker, file, input created from a path), runfiles,
  fileset declarations and the three collaborators as function values. The
  collaborators are the artifact expander, the metadata provider and the
  fileset manifest constructor.
- `InputMaps` (input_maps.dfy): the table, the error kinds, `AddMapping`
  and the generic `Fold`. Every loop of the engine is an instance of this
  fold. The module also holds the fold lemmas: frame, success, keys, values
  and base-directory containment.
- `InputExpansion` (spawn_input_expander.dfy): the engine. Each Java method
  has a counterpart; each loop body is a separate step function
  (`RunfileStep`, `RootStep`, `FilesetStep`) folded over its entries.
- `ExpansionProofs` (expansion_proofs.dfy): the engine's properties.
- `Objc` (objc_configuration.dfy): the configuration fragment's derived
  settings.

Error kinds of the engine (`InputMaps.ExpansionError`):

- `AbsoluteTargetLocation`: the `IllegalArgumentException` from
  `addMapping`'s precondition.
- `AbsoluteRunfilesRoot`: the `IllegalStateException` for an absolute
  runfiles root.
- `MissingFilesetExpansion`: the `IllegalStateException` wrapping a
  `MissingExpansionException`.
- `NotAFileset`: the `IllegalStateException` from `addFilesetManifest`.
- `ForbiddenNonFile`: the strict-mode `ForbiddenNonFileException`.
- `ForbiddenRelativeSymlink`: propagated from the manifest constructor.

The first four are internal failures (`IsInternal`). The last two are errors
in the action's inputs.

## Model

| member | source | states |
|---|---|---|
| InputMaps.AddMapping | src/main/java/com/google/devtools/build/lib/exec/SpawnInputExpander.java:98-105 | Fails iff the target location is absolute. On success it writes exactly `input` at `base.getRelative(target)`, and every other key keeps its value. Without `..` normalisation that key starts with the base directory. |
| InputExpansion.SpawnInputExpander.AddRunfile | src/main/java/com/google/devtools/build/lib/exec/SpawnInputExpander.java:121-155 | A null runfile artifact becomes the empty marker at `base/root/path`; it is never omitted. A plain artifact is mapped as itself. In strict mode it fails with `ForbiddenNonFile` iff its metadata is known and not a file. With strict off it is always mapped (given a relative location). A fileset runfile the expander never expanded fails with `MissingFilesetExpansion`, an internal error. |
| InputExpansion.FailIfDirectory | src/main/java/com/google/devtools/build/lib/exec/SpawnInputExpander.java:173-179 | Rejects an input exactly when its metadata is present and not of file type. Null metadata passes. |
| ExpansionProofs.TreeRunfileExpansion | src/main/java/com/google/devtools/build/lib/exec/SpawnInputExpander.java:128-138 | A tree-artifact runfile is added as the tree's expanded members at the runfile's location, which is what `TreeExpansion` describes. |
| ExpansionProofs.TreeExpansion | src/main/java/com/google/devtools/build/lib/exec/SpawnInputExpander.java:128-138 | A tree-artifact runfile succeeds iff it has no members, or its location and all member paths are relative. It then adds exactly the keys `base/location/member`, each holding that member, and changes no other key. |
| ExpansionProofs.TreeExpansionCount | src/main/java/com/google/devtools/build/lib/exec/SpawnInputExpander.java:128-138 | N distinct members of a tree artifact yield exactly N entries. |
| InputExpansion.SpawnInputExpander.ManifestInput | src/main/java/com/google/devtools/build/lib/exec/SpawnInputExpander.java:209-213 | A null manifest target becomes the empty marker. Otherwise it becomes the input at `execRoot.getRelative(value)`. |
| ExpansionProofs.FilesetManifestContents | src/main/java/com/google/devtools/build/lib/exec/SpawnInputExpander.java:208-215 | A built manifest succeeds iff every entry location is relative. It adds exactly the keys `base/location`. With distinct locations, each key holds its entry's target input or the empty marker. |
| InputExpansion.SpawnInputExpander.AddFilesetManifest | src/main/java/com/google/devtools/build/lib/exec/SpawnInputExpander.java:197-207 | A non-fileset artifact fails with the internal `NotAFileset`. A manifest constructor failure under the configured policy becomes `ForbiddenRelativeSymlink`. |
| ExpansionProofs.RunfileFilesetMountPoint | src/main/java/com/google/devtools/build/lib/exec/SpawnInputExpander.java:139-146 | A fileset reached through runfiles is mounted at the runfile's location, root joined with path. |
| ExpansionProofs.StandaloneFilesetMountPoint | src/main/java/com/google/devtools/build/lib/exec/SpawnInputExpander.java:187-193 | A standalone fileset is mounted at its own exec path. |
| ExpansionProofs.MissingFilesetExpansionFails | src/main/java/com/google/devtools/build/lib/exec/SpawnInputExpander.java:139-145 | A runfile fileset with no expansion makes the whole mapping fail. |
| ExpansionProofs.StrictRejectsNonFileRunfile | src/main/java/com/google/devtools/build/lib/exec/SpawnInputExpander.java:147-151 | In strict mode, a plain runfile whose metadata is not a file makes the whole mapping fail. |
| ExpansionProofs.AddRunfileErrors | src/main/java/com/google/devtools/build/lib/exec/SpawnInputExpander.java:125-155 | A runfile fails with `ForbiddenNonFile` only in strict mode, and only for a plain artifact whose metadata is known and not a file. Tree artifacts, filesets and absent artifacts are never checked. |
| ExpansionProofs.NullRunfileNeverOmitted | src/main/java/com/google/devtools/build/lib/exec/SpawnInputExpander.java:119-157 | When the mapping succeeds, every runfile without an artifact has its destination `base/root/path` among the keys. |
| ExpansionProofs.AllRunfilesPresent | src/main/java/com/google/devtools/build/lib/exec/SpawnInputExpander.java:230-255 | The mapping contains all runfiles: when it succeeds, every runfile entry can be added on its own and every key it adds is a key of the result. |
| ExpansionProofs.MappingHasNoTreeArtifacts | src/main/java/com/google/devtools/build/lib/exec/SpawnInputExpander.java:230-255 | The mapping contains no tree artifact as a value. Trees among the direct inputs and runfiles appear only as their member files. |
| ExpansionProofs.NonStrictNeverForbidsNonFile | src/main/java/com/google/devtools/build/lib/exec/SpawnInputExpander.java:147-151 | With strict off, the mapping never fails with `ForbiddenNonFile`. |
| ExpansionProofs.AbsoluteRunfilesRootFails | src/main/java/com/google/devtools/build/lib/exec/SpawnInputExpander.java:119-122 | A runfiles root that is absolute, at any position, makes adding the runfiles fail. |
| ExpansionProofs.RunfilesExample | src/main/java/com/google/devtools/build/lib/exec/SpawnInputExpander.java:119-157 | Under root "bin", an entry backed by an artifact maps to that artifact and an entry with no artifact maps to the empty marker, at "bin/data.txt" and "bin/empty.txt". |
| ExpansionProofs.FailingRunfileFailsMapping | src/main/java/com/google/devtools/build/lib/exec/SpawnInputExpander.java:119-157 | Any runfile that fails on its own makes the whole mapping fail, whatever comes before it. |
| ExpansionProofs.AddRunfilesFrame | src/main/java/com/google/devtools/build/lib/exec/SpawnInputExpander.java:160-171 | Adding runfiles to an existing table gives the same result as the public overload, which starts from an empty table, written over that table. So the public result holds only runfiles-derived keys. |
| ExpansionProofs.RunfilesUnderBase | src/main/java/com/google/devtools/build/lib/exec/SpawnInputExpander.java:119-157 | Every key of the public runfiles result starts with the base directory's segments (paths without `..` normalisation). |
| ExpansionProofs.DirectInputsTable | src/main/java/com/google/devtools/build/lib/exec/SpawnInputExpander.java:218-228 | The direct-input phase succeeds iff every expanded input's exec path is relative. It then adds exactly one key per expanded input, `base/execPath`. When distinct inputs have distinct exec paths, each key holds its own input. |
| ExpansionProofs.PhaseOrder | src/main/java/com/google/devtools/build/lib/exec/SpawnInputExpander.java:239-255 | The mapping is the direct-input table, overwritten by the runfiles table, overwritten by the standalone-fileset table, each phase computed on its own. The mapping fails iff some phase fails, and it fails with the first failing phase's error. |
| ExpansionProofs.LaterPhaseWins | src/main/java/com/google/devtools/build/lib/exec/SpawnInputExpander.java:245-254 | A destination written by a later phase holds that phase's input: filesets over runfiles over direct inputs. |
| ExpansionProofs.DestinationsUnderBase | src/main/java/com/google/devtools/build/lib/exec/SpawnInputExpander.java:239-255 | With a relative base directory, no destination is absolute. Every destination starts with the base directory's segments (paths without `..` normalisation). |
| InputExpansion.ExpandArtifacts | src/main/java/com/google/devtools/build/lib/exec/SpawnInputExpander.java:223-224 | Tree artifacts among the direct inputs are replaced by exactly their members. Every other artifact is kept whole, and nothing else appears. |
| InputExpansion.NewSpawnInputExpander | src/main/java/com/google/devtools/build/lib/exec/SpawnInputExpander.java:72-74 | The two-argument constructor keeps the exec root and strict flag and uses the ERROR relative-symlink policy. |
| Objc.NewObjcConfiguration | src/main/java/com/google/devtools/build/lib/rules/objc/ObjcConfiguration.java:82-119 | Fails with a null-option error iff a simulator setting or the compilation mode is null. The error names the first null option in the source's check order: the six simulator settings, then the compilation mode. dSYMs are generated iff forced, or auto-dSYM is on in a DBG build. The dotd pruning plan is USE iff requested. The other modelled options are copied. |
| Objc.CheckNotNull | src/main/java/com/google/devtools/build/lib/rules/objc/ObjcConfiguration.java:83-98 | Passes a present value through unchanged and names the missing option otherwise. |
| Objc.CoptsForCompilationMode | src/main/java/com/google/devtools/build/lib/rules/objc/ObjcConfiguration.java:270-288 | DBG gives `DBG_COPTS`, followed by `GLIBCXX_DBG_COPTS` iff debugging with glibcxx. FASTBUILD gives the fastbuild options. OPT gives `OPT_COPTS`. |
| Objc.StrippingFromOptions | src/main/java/com/google/devtools/build/lib/rules/objc/ObjcConfiguration.java:309-315 | Binaries are stripped iff binary stripping is enabled and the mode is OPT. |
| Objc.DebugEntitlementsFromOptions | src/main/java/com/google/devtools/build/lib/rules/objc/ObjcConfiguration.java:337-348 | Device debug entitlements are used iff the option is set and the mode is not OPT. |
| Objc.StrippingExcludesDebugEntitlements | src/main/java/com/google/devtools/build/lib/rules/objc/ObjcConfiguration.java:313-348 | No configuration both strips binaries and uses device debug entitlements. |
| Objc.SimulatorDeviceForPlatformType | src/main/java/com/google/devtools/build/lib/rules/objc/ObjcConfiguration.java:195-207 | IOS, TVOS and WATCHOS return their own device. Every other platform fails with an unsupported-simulator error. |
| Objc.SimulatorVersionForPlatformType | src/main/java/com/google/devtools/build/lib/rules/objc/ObjcConfiguration.java:212-224 | IOS, TVOS and WATCHOS return their own version. Every other platform fails with an unsupported-simulator error. |
| Objc.SimulatorLookupsAgree | src/main/java/com/google/devtools/build/lib/rules/objc/ObjcConfiguration.java:195-224 | The device and version lookups accept the same platforms and fail with the same error. |

## Left out

- The body of `FilesetManifest.constructFilesetManifest` is not part of this model. That is where the ERROR / RESOLVE / IGNORE relative-symlink policy is applied. It is a function parameter from (links, location, policy) to manifest entries or the message of a forbidden relative symlink. The model only fixes which policy is passed to it.
- `ActionInputHelper.expandArtifacts` and the artifact expander internals are not part of this model. Tree expansion is a given sequence of parent-relative member paths per tree artifact. Middleman expansion is left out, and so is the middleman precondition at line 127, which is only a precondition.
- The metadata provider is a function from an artifact to optional metadata carrying only whether it is a file. The `IOException` it may throw is not modelled.
- `PathFragment` normalisation (`.`, `..`, Windows drive letters) and the parsing of a fileset target string into a path are not modelled. A manifest target is already a path.
- Direct spawn inputs are modelled as artifacts only. Virtual action inputs among a spawn's inputs are left out.
- When the package-private `addRunfilesToInputs(Map, ...)`, `addFilesetManifests` or `addFilesetManifest` throws, the caller's map is left partly written. The model returns only the error and no table.
- `TreeMap` versus `HashMap` and the sorted view of the result are left out. The table is a Dafny `map`. Iteration order of the Java maps is the order of the input sequences.
- InputMaps.AddMapping: the key starts with the base directory only because `getRelative` is modelled as plain segment concatenation. The source rejects only absolute targets, and a relative `../x` is normalised out of the base directory. What carries over to the source is that no key is absolute when the base directory is relative.
- ExpansionProofs.RunfilesUnderBase: the below-base part holds only without `..` normalisation, for the same reason as `AddMapping`.
- ExpansionProofs.DestinationsUnderBase: the below-base part holds only without `..` normalisation. Only "no destination is absolute" carries over to the source.
- Null map values cannot occur in the model's table type. "The returned map never contains null values" therefore holds by typing. The empty marker is the value for absent runfile artifacts and fileset targets.
- Objc.NewObjcConfiguration: list options are non-null lists of non-null strings. The `NullPointerException` that `ImmutableList.copyOf` throws on a null `copts` or `fastbuildOptions` list, or on a null element, is not modelled.
- In `ObjcConfiguration`, the plain getters, the instantiator constructor and the fields that only copy an option are left out: link maps, memleaks, copts, module maps, signing certificate, extra entitlements, native protos, header thinning, header scanner, Apple SDK, strict module maps. So are the Skylark and serialization annotations. `DottedVersion` is an uninterpreted wrapper around its text.

## Behaviour of the code worth noting

- Strict mode is applied only to plain runfile artifacts. Direct inputs and fileset entries are never checked.
- Metadata that is unknown (null) passes the strict check. Only known metadata that is not a file is rejected.
- An absolute runfiles root fails with its own precondition error (`AbsoluteRunfilesRoot`), before any of that root's entries are added. An absolute target location fails in `addMapping`.
- Of the two expander lookups, only a missing fileset expansion fails (an internal error). Tree expansion has no error path in `addRunfilesToInputs`.
- A fileset among the direct inputs is not dispatched specially. It is mapped whole at its exec path.
