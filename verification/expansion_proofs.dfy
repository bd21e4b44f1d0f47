/**
 Properties of the spawn input mapping engine: each phase writes the same
 entries whatever the table already held, so the whole mapping is the
 direct-input table overwritten by the runfiles table overwritten by the
 fileset table; tree artifacts expand to one entry per member; fileset
 entries become their targets or the empty marker; every destination starts
 with the base directory (paths are not `..`-normalised here); and strict
 mode is the only source of `ForbiddenNonFile`.
 */
module ExpansionProofs {
  import opened Results
  import opened Paths
  import opened Actions
  import opened InputMaps
  import opened InputExpansion

  // ---------------------------------------------------------------------------
  // Frame: every phase writes the same entries over any starting table.

  lemma AddTreeFilesFrame(m: InputMap, location: PathFragment, tree: Artifact, members: seq<PathFragment>, base: PathFragment)
    ensures AddTreeFiles(m, location, tree, members, base) == Overlay(m, AddTreeFiles(map[], location, tree, members, base))
  {
    WriteStepFramed(TreeMemberLocation(location), TreeMemberInput(tree), base);
    FoldFrame(m, members, WriteStep(TreeMemberLocation(location), TreeMemberInput(tree), base));
  }

  lemma AddFilesetManifestFrame(
    x: SpawnInputExpander, location: PathFragment, fileset: Artifact, links: seq<FilesetOutputSymlink>,
    m: InputMap, base: PathFragment, construct: ManifestConstructor)
    ensures x.AddFilesetManifest(location, fileset, links, m, base, construct)
         == Overlay(m, x.AddFilesetManifest(location, fileset, links, map[], base, construct))
  {
    var manifest := construct(links, location, x.relSymlinkBehavior);
    if fileset.IsFileset() && manifest.Success? {
      WriteStepFramed(EntryLocation, x.EntryInput(), base);
      FoldFrame(m, manifest.value, WriteStep(EntryLocation, x.EntryInput(), base));
    }
  }

  lemma AddRunfileFrame(
    x: SpawnInputExpander, m: InputMap, location: PathFragment, artifact: Option<Artifact>,
    md: MetadataProvider, exp: ArtifactExpander, base: PathFragment, construct: ManifestConstructor)
    ensures x.AddRunfile(m, location, artifact, md, exp, base, construct)
         == Overlay(m, x.AddRunfile(map[], location, artifact, md, exp, base, construct))
  {
    match artifact
    case None =>
      AddMappingFrame(m, location, EmptyMarker, base);
    case Some(a) =>
      if a.IsTreeArtifact() {
        AddTreeFilesFrame(m, location, a, exp.treeMembers(a), base);
      } else if a.IsFileset() {
        if exp.getFileset(a).Some? {
          AddFilesetManifestFrame(x, location, a, exp.getFileset(a).value, m, base, construct);
        }
      } else {
        AddMappingFrame(m, location, File(WholeArtifact(a)), base);
      }
  }

  lemma RunfileStepFramed(
    x: SpawnInputExpander, root: PathFragment, md: MetadataProvider, exp: ArtifactExpander,
    base: PathFragment, construct: ManifestConstructor)
    ensures Framed(x.RunfileStep(root, md, exp, base, construct))
  {
    var step := x.RunfileStep(root, md, exp, base, construct);
    forall m: InputMap, e: RunfilesEntry
      ensures step(m, e) == Overlay(m, step(map[], e))
    {
      AddRunfileFrame(x, m, root.GetRelative(e.path), e.artifact, md, exp, base, construct);
    }
  }

  lemma RootStepFramed(
    x: SpawnInputExpander, md: MetadataProvider, exp: ArtifactExpander, base: PathFragment, construct: ManifestConstructor)
    ensures Framed(x.RootStep(md, exp, base, construct))
  {
    var step := x.RootStep(md, exp, base, construct);
    forall m: InputMap, r: RunfilesRoot
      ensures step(m, r) == Overlay(m, step(map[], r))
    {
      if !r.root.absolute {
        RunfileStepFramed(x, r.root, md, exp, base, construct);
        FoldFrame(m, r.mappings, x.RunfileStep(r.root, md, exp, base, construct));
      }
    }
  }

  lemma FilesetStepFramed(x: SpawnInputExpander, base: PathFragment, construct: ManifestConstructor)
    ensures Framed(x.FilesetStep(base, construct))
  {
    var step := x.FilesetStep(base, construct);
    forall m: InputMap, f: FilesetMapping
      ensures step(m, f) == Overlay(m, step(map[], f))
    {
      AddFilesetManifestFrame(x, f.fileset.execPath, f.fileset, f.links, m, base, construct);
    }
  }

  /** Adding runfiles to a table is the public, fresh-table result written over it. */
  lemma AddRunfilesFrame(
    x: SpawnInputExpander, m: InputMap, runfiles: seq<RunfilesRoot>, md: MetadataProvider,
    exp: ArtifactExpander, base: PathFragment, construct: ManifestConstructor)
    ensures x.AddRunfilesInto(m, runfiles, md, exp, base, construct)
         == Overlay(m, x.AddRunfilesToInputs(runfiles, md, exp, base, construct))
  {
    RootStepFramed(x, md, exp, base, construct);
    FoldFrame(m, runfiles, x.RootStep(md, exp, base, construct));
  }

  lemma AddFilesetManifestsFrame(
    x: SpawnInputExpander, filesets: seq<FilesetMapping>, m: InputMap, base: PathFragment, construct: ManifestConstructor)
    ensures x.AddFilesetManifests(filesets, m, base, construct)
         == Overlay(m, x.AddFilesetManifests(filesets, map[], base, construct))
  {
    FilesetStepFramed(x, base, construct);
    FoldFrame(m, filesets, x.FilesetStep(base, construct));
  }

  // ---------------------------------------------------------------------------
  // Phase order.

  /**
   The whole mapping is the direct-input table, overwritten by the runfiles
   table, overwritten by the standalone fileset table (each phase computed
   on its own); it fails with the first failing phase's error.
   */
  lemma PhaseOrder(
    x: SpawnInputExpander, spawn: Spawn, exp: ArtifactExpander, base: PathFragment,
    md: MetadataProvider, construct: ManifestConstructor)
    ensures var r := x.GetInputMapping(spawn, exp, base, md, construct);
      var inputs := AddInputs(map[], spawn.inputFiles, exp, base);
      var runfiles := x.AddRunfilesToInputs(spawn.runfiles, md, exp, base, construct);
      var filesets := x.AddFilesetManifests(spawn.filesetMappings, map[], base, construct);
      && (r.Success? <==> inputs.Success? && runfiles.Success? && filesets.Success?)
      && (r.Success? ==> r.value == inputs.value + runfiles.value + filesets.value)
      && (inputs.Failure? ==> r == Failure(inputs.error))
      && (inputs.Success? && runfiles.Failure? ==> r == Failure(runfiles.error))
      && (inputs.Success? && runfiles.Success? && filesets.Failure? ==> r == Failure(filesets.error))
  {
    var inputs := AddInputs(map[], spawn.inputFiles, exp, base);
    if inputs.Success? {
      AddRunfilesFrame(x, inputs.value, spawn.runfiles, md, exp, base, construct);
      var runfiles := x.AddRunfilesToInputs(spawn.runfiles, md, exp, base, construct);
      if runfiles.Success? {
        AddFilesetManifestsFrame(x, spawn.filesetMappings, inputs.value + runfiles.value, base, construct);
      }
    }
  }

  /**
   Last write wins across phases: a destination written by a standalone
   fileset holds the fileset's input, else one written by runfiles holds the
   runfiles input, else it is a direct input's entry.
   */
  lemma LaterPhaseWins(
    x: SpawnInputExpander, spawn: Spawn, exp: ArtifactExpander, base: PathFragment,
    md: MetadataProvider, construct: ManifestConstructor, k: PathFragment)
    requires x.GetInputMapping(spawn, exp, base, md, construct).Success?
    ensures var r := x.GetInputMapping(spawn, exp, base, md, construct).value;
      var inputs := AddInputs(map[], spawn.inputFiles, exp, base);
      var runfiles := x.AddRunfilesToInputs(spawn.runfiles, md, exp, base, construct);
      var filesets := x.AddFilesetManifests(spawn.filesetMappings, map[], base, construct);
      && inputs.Success? && runfiles.Success? && filesets.Success?
      && (k in r <==> k in inputs.value || k in runfiles.value || k in filesets.value)
      && (k in filesets.value ==> r[k] == filesets.value[k])
      && (k in runfiles.value && k !in filesets.value ==> r[k] == runfiles.value[k])
      && (k in inputs.value && k !in runfiles.value && k !in filesets.value ==> r[k] == inputs.value[k])
  {
    PhaseOrder(x, spawn, exp, base, md, construct);
  }

  // ---------------------------------------------------------------------------
  // Tree artifacts.

  /**
   A tree artifact at `location` succeeds iff it has no members or its
   location and every member path are relative; it then adds exactly one key
   per member, `base/location/member`, holding that member, and changes
   nothing else.
   */
  lemma TreeExpansion(m: InputMap, location: PathFragment, tree: Artifact, members: seq<PathFragment>, base: PathFragment)
    ensures var r := AddTreeFiles(m, location, tree, members, base);
      var keys := set p | p in members :: base.GetRelative(location.GetRelative(p));
      && (r.Success? <==> |members| == 0 || (!location.absolute && forall p :: p in members ==> !p.absolute))
      && (r.Success? ==> r.value.Keys == m.Keys + keys)
      && (r.Success? ==> forall k :: k in m && k !in keys ==> r.value[k] == m[k])
      && (r.Success? ==> forall p :: p in members ==>
            base.GetRelative(location.GetRelative(p)) in r.value
            && r.value[base.GetRelative(location.GetRelative(p))] == File(TreeFileArtifact(tree, p)))
  {
    var target, input := TreeMemberLocation(location), TreeMemberInput(tree);
    var r := AddTreeFiles(m, location, tree, members, base);
    WriteAllSucceeds(m, members, target, input, base);
    if |members| > 0 {
      assert members[0] in members;
    }
    if r.Success? {
      WriteAllKeys(m, members, target, input, base);
      assert Destinations(members, target, base) == set p | p in members :: base.GetRelative(location.GetRelative(p));
      assert Consistent(members, target, input) by {
        forall i, j | 0 <= i < |members| && 0 <= j < |members| && target(members[i]) == target(members[j])
          ensures input(members[i]) == input(members[j])
        {
          assert members[i] in members && members[j] in members;
          GetRelativeInjective(location, members[i], members[j]);
        }
      }
      WriteAllValues(m, members, target, input, base);
    }
  }

  /** A tree artifact with N distinct members yields exactly N entries. */
  lemma TreeExpansionCount(location: PathFragment, tree: Artifact, members: seq<PathFragment>, base: PathFragment)
    requires forall i, j :: 0 <= i < j < |members| ==> members[i] != members[j]
    ensures var r := AddTreeFiles(map[], location, tree, members, base);
      r.Success? ==> |r.value| == |members|
  {
    var target, input := TreeMemberLocation(location), TreeMemberInput(tree);
    var r := AddTreeFiles(map[], location, tree, members, base);
    if r.Success? {
      WriteAllSucceeds(map[], members, target, input, base);
      WriteAllKeys(map[], members, target, input, base);
      forall i, j | 0 <= i < |members| && 0 <= j < |members|
                    && base.GetRelative(target(members[i])) == base.GetRelative(target(members[j]))
        ensures i == j
      {
        assert members[i] in members && members[j] in members;
        GetRelativeInjective(base, target(members[i]), target(members[j]));
        GetRelativeInjective(location, members[i], members[j]);
      }
      DestinationsCount(members, target, base);
      assert r.value.Keys == Destinations(members, target, base);
    }
  }

  // ---------------------------------------------------------------------------
  // Filesets.

  /**
   A fileset whose manifest was built succeeds iff every manifest location
   is relative; it then adds exactly the keys `base/location`, and when the
   manifest's locations are distinct (it is a map), each holds the empty
   marker for a missing target and the input at `execRoot/target` otherwise.
   */
  lemma FilesetManifestContents(
    x: SpawnInputExpander, location: PathFragment, fileset: Artifact, links: seq<FilesetOutputSymlink>,
    m: InputMap, base: PathFragment, construct: ManifestConstructor)
    requires fileset.IsFileset()
    requires construct(links, location, x.relSymlinkBehavior).Success?
    ensures var entries := construct(links, location, x.relSymlinkBehavior).value;
      var r := x.AddFilesetManifest(location, fileset, links, m, base, construct);
      && (r.Success? <==> forall e :: e in entries ==> !e.location.absolute)
      && (r.Success? ==> r.value.Keys == m.Keys + set e | e in entries :: base.GetRelative(e.location))
      && (r.Success? && (forall i, j :: 0 <= i < j < |entries| ==> entries[i].location != entries[j].location) ==>
            forall e :: e in entries ==>
              base.GetRelative(e.location) in r.value
              && r.value[base.GetRelative(e.location)] == x.ManifestInput(e.target))
  {
    var entries := construct(links, location, x.relSymlinkBehavior).value;
    var r := x.AddFilesetManifest(location, fileset, links, m, base, construct);
    WriteAllSucceeds(m, entries, EntryLocation, x.EntryInput(), base);
    if r.Success? {
      WriteAllKeys(m, entries, EntryLocation, x.EntryInput(), base);
      assert Destinations(entries, EntryLocation, base) == set e | e in entries :: base.GetRelative(e.location);
      if forall i, j :: 0 <= i < j < |entries| ==> entries[i].location != entries[j].location {
        assert Consistent(entries, EntryLocation, x.EntryInput()) by {
          forall i, j | 0 <= i < |entries| && 0 <= j < |entries| && EntryLocation(entries[i]) == EntryLocation(entries[j])
            ensures x.EntryInput()(entries[i]) == x.EntryInput()(entries[j])
          {
            assert i == j;
          }
        }
        WriteAllValues(m, entries, EntryLocation, x.EntryInput(), base);
      }
    }
  }

  /** A fileset reached through runfiles is mounted at the runfile's location (root joined with its path). */
  lemma RunfileFilesetMountPoint(
    x: SpawnInputExpander, m: InputMap, location: PathFragment, fileset: Artifact,
    md: MetadataProvider, exp: ArtifactExpander, base: PathFragment, construct: ManifestConstructor)
    requires fileset.IsFileset() && exp.getFileset(fileset).Some?
    ensures x.AddRunfile(m, location, Some(fileset), md, exp, base, construct)
         == x.AddFilesetManifest(location, fileset, exp.getFileset(fileset).value, m, base, construct)
  {
  }

  /** A standalone fileset is mounted at its own exec path. */
  lemma StandaloneFilesetMountPoint(
    x: SpawnInputExpander, m: InputMap, f: FilesetMapping, base: PathFragment, construct: ManifestConstructor)
    ensures x.FilesetStep(base, construct)(m, f)
         == x.AddFilesetManifest(f.fileset.execPath, f.fileset, f.links, m, base, construct)
  {
  }

  // ---------------------------------------------------------------------------
  // Destinations start with the base directory (no `..` normalisation).

  lemma AddRunfileUnder(
    x: SpawnInputExpander, location: PathFragment, artifact: Option<Artifact>,
    md: MetadataProvider, exp: ArtifactExpander, base: PathFragment, construct: ManifestConstructor)
    ensures var r := x.AddRunfile(map[], location, artifact, md, exp, base, construct);
      r.Success? ==> AllUnder(r.value, base)
  {
    match artifact
    case None =>
    case Some(a) =>
      if a.IsTreeArtifact() {
        WriteAllUnder(exp.treeMembers(a), TreeMemberLocation(location), TreeMemberInput(a), base);
      } else if a.IsFileset() {
        if exp.getFileset(a).Some? {
          var manifest := construct(exp.getFileset(a).value, location, x.relSymlinkBehavior);
          if manifest.Success? {
            WriteAllUnder(manifest.value, EntryLocation, x.EntryInput(), base);
          }
        }
      }
  }

  lemma RootStepUnder(
    x: SpawnInputExpander, md: MetadataProvider, exp: ArtifactExpander, base: PathFragment, construct: ManifestConstructor)
    ensures WritesUnder(x.RootStep(md, exp, base, construct), base)
  {
    forall r: RunfilesRoot | !r.root.absolute
      ensures var t := Fold(map[], r.mappings, x.RunfileStep(r.root, md, exp, base, construct));
        t.Success? ==> AllUnder(t.value, base)
    {
      var step := x.RunfileStep(r.root, md, exp, base, construct);
      RunfileStepFramed(x, r.root, md, exp, base, construct);
      forall e: RunfilesEntry
        ensures step(map[], e).Success? ==> AllUnder(step(map[], e).value, base)
      {
        AddRunfileUnder(x, r.root.GetRelative(e.path), e.artifact, md, exp, base, construct);
      }
      FoldUnder(map[], r.mappings, step, base);
    }
  }

  lemma FilesetStepUnder(x: SpawnInputExpander, base: PathFragment, construct: ManifestConstructor)
    ensures WritesUnder(x.FilesetStep(base, construct), base)
  {
    forall f: FilesetMapping
      ensures var t := x.FilesetStep(base, construct)(map[], f);
        t.Success? ==> AllUnder(t.value, base)
    {
      var manifest := construct(f.links, f.fileset.execPath, x.relSymlinkBehavior);
      if f.fileset.IsFileset() && manifest.Success? {
        WriteAllUnder(manifest.value, EntryLocation, x.EntryInput(), base);
      }
    }
  }

  /** The public runfiles result only has keys that start with the base directory. */
  lemma RunfilesUnderBase(
    x: SpawnInputExpander, runfiles: seq<RunfilesRoot>, md: MetadataProvider,
    exp: ArtifactExpander, base: PathFragment, construct: ManifestConstructor)
    ensures var r := x.AddRunfilesToInputs(runfiles, md, exp, base, construct);
      r.Success? ==> forall k :: k in r.value ==> k.StartsWith(base)
  {
    RootStepFramed(x, md, exp, base, construct);
    RootStepUnder(x, md, exp, base, construct);
    FoldUnder(map[], runfiles, x.RootStep(md, exp, base, construct), base);
  }

  /**
   Every destination of the mapping starts with the base directory, so with
   a relative base directory no destination is absolute.
   */
  lemma DestinationsUnderBase(
    x: SpawnInputExpander, spawn: Spawn, exp: ArtifactExpander, base: PathFragment,
    md: MetadataProvider, construct: ManifestConstructor)
    ensures var r := x.GetInputMapping(spawn, exp, base, md, construct);
      && (r.Success? ==> forall k :: k in r.value ==> k.StartsWith(base))
      && (r.Success? && !base.absolute ==> forall k :: k in r.value ==> !k.absolute)
  {
    PhaseOrder(x, spawn, exp, base, md, construct);
    WriteAllUnder(ExpandArtifacts(spawn.inputFiles, exp), FileExecPath, FileAsInput, base);
    RunfilesUnderBase(x, spawn.runfiles, md, exp, base, construct);
    FilesetStepFramed(x, base, construct);
    FilesetStepUnder(x, base, construct);
    FoldUnder(map[], spawn.filesetMappings, x.FilesetStep(base, construct), base);
  }

  // ---------------------------------------------------------------------------
  // Strict mode and failing runfiles.

  function IsNotForbiddenNonFile(e: ExpansionError): bool {
    !e.ForbiddenNonFile?
  }

  lemma AddFilesetManifestErrors(
    x: SpawnInputExpander, location: PathFragment, fileset: Artifact, links: seq<FilesetOutputSymlink>,
    m: InputMap, base: PathFragment, construct: ManifestConstructor)
    ensures var r := x.AddFilesetManifest(location, fileset, links, m, base, construct);
      r.Failure? ==> r.error.NotAFileset? || r.error.ForbiddenRelativeSymlink? || r.error.AbsoluteTargetLocation?
  {
    var manifest := construct(links, location, x.relSymlinkBehavior);
    if fileset.IsFileset() && manifest.Success? {
      WriteAllErrors(m, manifest.value, EntryLocation, x.EntryInput(), base);
    }
  }

  /**
   `ForbiddenNonFile` comes only from the strict-mode check of a plain
   artifact whose metadata is known and not a file: trees, filesets and
   absent artifacts are never checked.
   */
  lemma AddRunfileErrors(
    x: SpawnInputExpander, m: InputMap, location: PathFragment, artifact: Option<Artifact>,
    md: MetadataProvider, exp: ArtifactExpander, base: PathFragment, construct: ManifestConstructor)
    ensures var r := x.AddRunfile(m, location, artifact, md, exp, base, construct);
      r.Failure? && r.error.ForbiddenNonFile? ==>
        && x.strict && artifact.Some? && artifact.value.kind == NormalFile
        && FailIfDirectory(md, artifact.value).Failure?
        && r.error == ForbiddenNonFile(artifact.value)
  {
    match artifact
    case None =>
    case Some(a) =>
      if a.IsTreeArtifact() {
        WriteAllErrors(m, exp.treeMembers(a), TreeMemberLocation(location), TreeMemberInput(a), base);
      } else if a.IsFileset() {
        if exp.getFileset(a).Some? {
          AddFilesetManifestErrors(x, location, a, exp.getFileset(a).value, m, base, construct);
        }
      }
  }

  /** With strict mode off, the mapping never fails with `ForbiddenNonFile`. */
  lemma NonStrictNeverForbidsNonFile(
    x: SpawnInputExpander, spawn: Spawn, exp: ArtifactExpander, base: PathFragment,
    md: MetadataProvider, construct: ManifestConstructor)
    requires !x.strict
    ensures var r := x.GetInputMapping(spawn, exp, base, md, construct);
      r.Failure? ==> !r.error.ForbiddenNonFile?
  {
    PhaseOrder(x, spawn, exp, base, md, construct);
    WriteAllErrors(map[], ExpandArtifacts(spawn.inputFiles, exp), FileExecPath, FileAsInput, base);
    var rootStep := x.RootStep(md, exp, base, construct);
    forall m: InputMap, root: RunfilesRoot | rootStep(m, root).Failure?
      ensures IsNotForbiddenNonFile(rootStep(m, root).error)
    {
      if !root.root.absolute {
        var step := x.RunfileStep(root.root, md, exp, base, construct);
        forall m': InputMap, e: RunfilesEntry | step(m', e).Failure?
          ensures IsNotForbiddenNonFile(step(m', e).error)
        {
          AddRunfileErrors(x, m', root.root.GetRelative(e.path), e.artifact, md, exp, base, construct);
        }
        FoldErrors(m, root.mappings, step, IsNotForbiddenNonFile);
      }
    }
    FoldErrors(map[], spawn.runfiles, rootStep, IsNotForbiddenNonFile);
    var filesetStep := x.FilesetStep(base, construct);
    forall m: InputMap, f: FilesetMapping | filesetStep(m, f).Failure?
      ensures IsNotForbiddenNonFile(filesetStep(m, f).error)
    {
      AddFilesetManifestErrors(x, f.fileset.execPath, f.fileset, f.links, m, base, construct);
    }
    FoldErrors(map[], spawn.filesetMappings, filesetStep, IsNotForbiddenNonFile);
  }

  /** A runfile that cannot be added on its own makes the whole mapping fail. */
  lemma FailingRunfileFailsMapping(
    x: SpawnInputExpander, spawn: Spawn, exp: ArtifactExpander, base: PathFragment,
    md: MetadataProvider, construct: ManifestConstructor, i: nat, j: nat)
    requires i < |spawn.runfiles| && j < |spawn.runfiles[i].mappings|
    requires var root := spawn.runfiles[i].root; var e := spawn.runfiles[i].mappings[j];
      x.AddRunfile(map[], root.GetRelative(e.path), e.artifact, md, exp, base, construct).Failure?
    ensures x.GetInputMapping(spawn, exp, base, md, construct).Failure?
  {
    PhaseOrder(x, spawn, exp, base, md, construct);
    var root := spawn.runfiles[i];
    var rootStep := x.RootStep(md, exp, base, construct);
    RootStepFramed(x, md, exp, base, construct);
    if !root.root.absolute {
      var step := x.RunfileStep(root.root, md, exp, base, construct);
      RunfileStepFramed(x, root.root, md, exp, base, construct);
      FoldSucceeds(map[], root.mappings, step);
      assert step(map[], root.mappings[j]).Failure?;
    }
    assert rootStep(map[], spawn.runfiles[i]).Failure?;
    FoldSucceeds(map[], spawn.runfiles, rootStep);
  }

  /**
   In strict mode, a plain runfile whose metadata says it is not a file
   makes the whole mapping fail.
   */
  lemma StrictRejectsNonFileRunfile(
    x: SpawnInputExpander, spawn: Spawn, exp: ArtifactExpander, base: PathFragment,
    md: MetadataProvider, construct: ManifestConstructor, i: nat, j: nat)
    requires x.strict
    requires i < |spawn.runfiles| && j < |spawn.runfiles[i].mappings|
    requires var a := spawn.runfiles[i].mappings[j].artifact;
      a.Some? && a.value.kind == NormalFile && md(a.value) == Some(FileMetadata(false))
    ensures x.GetInputMapping(spawn, exp, base, md, construct).Failure?
  {
    FailingRunfileFailsMapping(x, spawn, exp, base, md, construct, i, j);
  }

  /** A runfile fileset the expander never expanded makes the whole mapping fail. */
  lemma MissingFilesetExpansionFails(
    x: SpawnInputExpander, spawn: Spawn, exp: ArtifactExpander, base: PathFragment,
    md: MetadataProvider, construct: ManifestConstructor, i: nat, j: nat)
    requires i < |spawn.runfiles| && j < |spawn.runfiles[i].mappings|
    requires var a := spawn.runfiles[i].mappings[j].artifact;
      a.Some? && a.value.IsFileset() && exp.getFileset(a.value).None?
    ensures x.GetInputMapping(spawn, exp, base, md, construct).Failure?
  {
    FailingRunfileFailsMapping(x, spawn, exp, base, md, construct, i, j);
  }

  /** A runfiles root that is absolute makes the runfiles phase fail. */
  lemma AbsoluteRunfilesRootFails(
    x: SpawnInputExpander, runfiles: seq<RunfilesRoot>, md: MetadataProvider,
    exp: ArtifactExpander, base: PathFragment, construct: ManifestConstructor, i: nat)
    requires i < |runfiles| && runfiles[i].root.absolute
    ensures x.AddRunfilesToInputs(runfiles, md, exp, base, construct).Failure?
  {
    var rootStep := x.RootStep(md, exp, base, construct);
    RootStepFramed(x, md, exp, base, construct);
    assert rootStep(map[], runfiles[i]) == Failure(AbsoluteRunfilesRoot(runfiles[i].root));
    FoldSucceeds(map[], runfiles, rootStep);
  }

  /**
   A worked example: below the root "bin", "data.txt" backed by an artifact
   and "empty.txt" with no artifact give the artifact and the empty marker.
   */
  lemma RunfilesExample(x: SpawnInputExpander, data: Artifact, md: MetadataProvider,
                        exp: ArtifactExpander, construct: ManifestConstructor)
    requires data.kind == NormalFile && !x.strict
    ensures var bin := PathFragment(false, ["bin"]);
      var runfiles := [RunfilesRoot(bin, [
        RunfilesEntry(PathFragment(false, ["data.txt"]), Some(data)),
        RunfilesEntry(PathFragment(false, ["empty.txt"]), None)])];
      x.AddRunfilesToInputs(runfiles, md, exp, PathFragment(false, []), construct)
        == Success(map[PathFragment(false, ["bin", "data.txt"]) := File(WholeArtifact(data)),
                       PathFragment(false, ["bin", "empty.txt"]) := EmptyMarker])
  {
    var bin := PathFragment(false, ["bin"]);
    var base := PathFragment(false, []);
    var entries := [RunfilesEntry(PathFragment(false, ["data.txt"]), Some(data)),
                    RunfilesEntry(PathFragment(false, ["empty.txt"]), None)];
    var step := x.RunfileStep(bin, md, exp, base, construct);
    var dataKey := PathFragment(false, ["bin", "data.txt"]);
    var emptyKey := PathFragment(false, ["bin", "empty.txt"]);
    assert base.GetRelative(bin.GetRelative(entries[0].path)) == dataKey;
    assert base.GetRelative(bin.GetRelative(entries[1].path)) == emptyKey;
    var afterData := map[dataKey := File(WholeArtifact(data))];
    assert step(map[], entries[0]) == Success(afterData);
    assert step(afterData, entries[1]) == Success(afterData[emptyKey := EmptyMarker]);
    var done := afterData[emptyKey := EmptyMarker];
    assert Fold(afterData, entries[1..], step) == Fold(done, entries[1..][1..], step);
    assert entries[1..][1..] == [];
    assert Fold(map[], entries, step) == Success(done);
    var runfiles := [RunfilesRoot(bin, entries)];
    var rootStep := x.RootStep(md, exp, base, construct);
    assert rootStep(map[], runfiles[0]) == Success(done);
    assert runfiles[1..] == [];
    assert Fold(map[], runfiles, rootStep) == Success(done);
  }

  /**
   A runfile with no artifact is never left out: when the mapping succeeds,
   its destination `base/root/path` is a key of the result.
   */
  lemma NullRunfileNeverOmitted(
    x: SpawnInputExpander, spawn: Spawn, exp: ArtifactExpander, base: PathFragment,
    md: MetadataProvider, construct: ManifestConstructor, i: nat, j: nat)
    requires i < |spawn.runfiles| && j < |spawn.runfiles[i].mappings|
    requires spawn.runfiles[i].mappings[j].artifact.None?
    requires x.GetInputMapping(spawn, exp, base, md, construct).Success?
    ensures var root := spawn.runfiles[i].root; var e := spawn.runfiles[i].mappings[j];
      base.GetRelative(root.GetRelative(e.path)) in x.GetInputMapping(spawn, exp, base, md, construct).value
  {
    PhaseOrder(x, spawn, exp, base, md, construct);
    var runfiles := x.AddRunfilesToInputs(spawn.runfiles, md, exp, base, construct);
    var root := spawn.runfiles[i];
    var e := root.mappings[j];
    var rootStep := x.RootStep(md, exp, base, construct);
    RootStepFramed(x, md, exp, base, construct);
    FoldKeysGrow(map[], spawn.runfiles, rootStep);
    var step := x.RunfileStep(root.root, md, exp, base, construct);
    RunfileStepFramed(x, root.root, md, exp, base, construct);
    assert rootStep(map[], root) == Fold(map[], root.mappings, step);
    FoldKeysGrow(map[], root.mappings, step);
    assert base.GetRelative(root.root.GetRelative(e.path)) in step(map[], e).value;
  }

  /**
   The direct-input table: it succeeds iff every expanded input has a
   relative exec path, it then holds exactly one key per expanded input (its
   exec path below the base), and when distinct expanded inputs have
   distinct exec paths each key holds its own input.
   */
  lemma DirectInputsTable(m: InputMap, inputFiles: seq<Artifact>, exp: ArtifactExpander, base: PathFragment)
    ensures var files := ExpandArtifacts(inputFiles, exp);
      var r := AddInputs(m, inputFiles, exp, base);
      && (r.Success? <==> forall f :: f in files ==> !f.ExecPath().absolute)
      && (r.Success? ==> r.value.Keys == m.Keys + set f | f in files :: base.GetRelative(f.ExecPath()))
      && (r.Success? && (forall f, g :: f in files && g in files && f.ExecPath() == g.ExecPath() ==> f == g) ==>
            forall f :: f in files ==>
              base.GetRelative(f.ExecPath()) in r.value && r.value[base.GetRelative(f.ExecPath())] == File(f))
  {
    var files := ExpandArtifacts(inputFiles, exp);
    WriteAllSucceeds(m, files, FileExecPath, FileAsInput, base);
    WriteAllKeys(m, files, FileExecPath, FileAsInput, base);
    assert Destinations(files, FileExecPath, base) == set f | f in files :: base.GetRelative(f.ExecPath());
    if forall f, g :: f in files && g in files && f.ExecPath() == g.ExecPath() ==> f == g {
      WriteAllValues(m, files, FileExecPath, FileAsInput, base);
    }
  }

  /**
   Every runfile is present: when the mapping succeeds, each runfile entry
   can be added on its own and every key it adds is a key of the result.
   */
  lemma AllRunfilesPresent(
    x: SpawnInputExpander, spawn: Spawn, exp: ArtifactExpander, base: PathFragment,
    md: MetadataProvider, construct: ManifestConstructor, i: nat, j: nat)
    requires i < |spawn.runfiles| && j < |spawn.runfiles[i].mappings|
    requires x.GetInputMapping(spawn, exp, base, md, construct).Success?
    ensures var root := spawn.runfiles[i].root; var e := spawn.runfiles[i].mappings[j];
      var added := x.AddRunfile(map[], root.GetRelative(e.path), e.artifact, md, exp, base, construct);
      && added.Success?
      && added.value.Keys <= x.GetInputMapping(spawn, exp, base, md, construct).value.Keys
  {
    PhaseOrder(x, spawn, exp, base, md, construct);
    var root := spawn.runfiles[i];
    var rootStep := x.RootStep(md, exp, base, construct);
    RootStepFramed(x, md, exp, base, construct);
    FoldKeysGrow(map[], spawn.runfiles, rootStep);
    var step := x.RunfileStep(root.root, md, exp, base, construct);
    RunfileStepFramed(x, root.root, md, exp, base, construct);
    assert rootStep(map[], root) == Fold(map[], root.mappings, step);
    FoldKeysGrow(map[], root.mappings, step);
  }

  /** An input that is a whole tree artifact rather than one of its files. */
  predicate IsWholeTree(v: Input) {
    v.File? && v.file.WholeArtifact? && v.file.artifact.IsTreeArtifact()
  }

  function NotWholeTree(v: Input): bool {
    !IsWholeTree(v)
  }

  /** A manifest entry never becomes a file input. */
  lemma FilesetManifestNoTree(
    x: SpawnInputExpander, location: PathFragment, fileset: Artifact, links: seq<FilesetOutputSymlink>,
    base: PathFragment, construct: ManifestConstructor)
    ensures var r := x.AddFilesetManifest(location, fileset, links, map[], base, construct);
      r.Success? ==> AllValues(r.value, NotWholeTree)
  {
    var manifest := construct(links, location, x.relSymlinkBehavior);
    if fileset.IsFileset() && manifest.Success? {
      WriteAllValuesSatisfy(map[], manifest.value, EntryLocation, x.EntryInput(), base, NotWholeTree);
    }
  }

  /** A single runfile never adds a whole tree artifact: trees are added member by member. */
  lemma AddRunfileNoTree(
    x: SpawnInputExpander, location: PathFragment, artifact: Option<Artifact>,
    md: MetadataProvider, exp: ArtifactExpander, base: PathFragment, construct: ManifestConstructor)
    ensures var r := x.AddRunfile(map[], location, artifact, md, exp, base, construct);
      r.Success? ==> AllValues(r.value, NotWholeTree)
  {
    match artifact
    case None =>
    case Some(a) =>
      if a.IsTreeArtifact() {
        WriteAllValuesSatisfy(map[], exp.treeMembers(a), TreeMemberLocation(location), TreeMemberInput(a), base, NotWholeTree);
      } else if a.IsFileset() {
        if exp.getFileset(a).Some? {
          FilesetManifestNoTree(x, location, a, exp.getFileset(a).value, base, construct);
        }
      }
  }

  /**
   A successful mapping holds no tree artifact as a value: direct inputs and
   runfiles that are trees appear only as their member files.
   */
  lemma MappingHasNoTreeArtifacts(
    x: SpawnInputExpander, spawn: Spawn, exp: ArtifactExpander, base: PathFragment,
    md: MetadataProvider, construct: ManifestConstructor)
    requires x.GetInputMapping(spawn, exp, base, md, construct).Success?
    ensures var r := x.GetInputMapping(spawn, exp, base, md, construct).value;
      forall k :: k in r ==> !(r[k].File? && r[k].file.WholeArtifact? && r[k].file.artifact.IsTreeArtifact())
  {
    PhaseOrder(x, spawn, exp, base, md, construct);
    var inputs := AddInputs(map[], spawn.inputFiles, exp, base);
    var runfiles := x.AddRunfilesToInputs(spawn.runfiles, md, exp, base, construct);
    var filesets := x.AddFilesetManifests(spawn.filesetMappings, map[], base, construct);
    WriteAllValuesSatisfy(map[], ExpandArtifacts(spawn.inputFiles, exp), FileExecPath, FileAsInput, base, NotWholeTree);

    var rootStep := x.RootStep(md, exp, base, construct);
    RootStepFramed(x, md, exp, base, construct);
    forall i | 0 <= i < |spawn.runfiles| && rootStep(map[], spawn.runfiles[i]).Success?
      ensures AllValues(rootStep(map[], spawn.runfiles[i]).value, NotWholeTree)
    {
      var root := spawn.runfiles[i];
      var step := x.RunfileStep(root.root, md, exp, base, construct);
      RunfileStepFramed(x, root.root, md, exp, base, construct);
      forall j | 0 <= j < |root.mappings| && step(map[], root.mappings[j]).Success?
        ensures AllValues(step(map[], root.mappings[j]).value, NotWholeTree)
      {
        var e := root.mappings[j];
        AddRunfileNoTree(x, root.root.GetRelative(e.path), e.artifact, md, exp, base, construct);
      }
      FoldValues(map[], root.mappings, step, NotWholeTree);
    }
    FoldValues(map[], spawn.runfiles, rootStep, NotWholeTree);

    var filesetStep := x.FilesetStep(base, construct);
    FilesetStepFramed(x, base, construct);
    forall i | 0 <= i < |spawn.filesetMappings| && filesetStep(map[], spawn.filesetMappings[i]).Success?
      ensures AllValues(filesetStep(map[], spawn.filesetMappings[i]).value, NotWholeTree)
    {
      var f := spawn.filesetMappings[i];
      FilesetManifestNoTree(x, f.fileset.execPath, f.fileset, f.links, base, construct);
    }
    FoldValues(map[], spawn.filesetMappings, filesetStep, NotWholeTree);
  }

  /** A tree artifact reached through runfiles is added member by member at its location. */
  lemma TreeRunfileExpansion(
    x: SpawnInputExpander, m: InputMap, location: PathFragment, tree: Artifact,
    md: MetadataProvider, exp: ArtifactExpander, base: PathFragment, construct: ManifestConstructor)
    requires tree.IsTreeArtifact()
    ensures x.AddRunfile(m, location, Some(tree), md, exp, base, construct)
         == AddTreeFiles(m, location, tree, exp.treeMembers(tree), base)
  {
  }
}
