/**
 The spawn input mapping engine: turns a spawn's direct inputs, runfiles and
 filesets into one table from base-directory-relative destinations to inputs.
 Each Java loop is a `Fold` over the entries in iteration order; each thrown
 exception is a `Failure`.
 */
module InputExpansion {
  import opened Results
  import opened Paths
  import opened Actions
  import opened InputMaps

  /**
   The engine's configuration: the exec root fileset targets are resolved
   against, whether plain runfiles must be files, and the fileset policy.
   */
  datatype SpawnInputExpander = SpawnInputExpander(
    execRoot: PathFragment,
    strict: bool,
    relSymlinkBehavior: RelativeSymlinkBehavior)
  {
    /** A manifest target: none is the empty marker, otherwise the path under the exec root. */
    function ManifestInput(target: Option<PathFragment>): (r: Input)
      ensures r == EmptyMarker <==> target.None?
      ensures target.Some? ==> r.FromPath? && r.path == execRoot.GetRelative(target.value)
    {
      match target
      case None => EmptyMarker
      case Some(value) => FromPath(execRoot.GetRelative(value))
    }

    /**
     Adds one runfile found at `location` (root joined with its path):
     no artifact gives the empty marker, a tree artifact gives its members,
     a fileset gives its manifest, and a plain artifact gives itself after
     the strict-mode check.
     */
    function AddRunfile(
      inputMap: InputMap, location: PathFragment, artifact: Option<Artifact>,
      actionFileCache: MetadataProvider, artifactExpander: ArtifactExpander,
      baseDirectory: PathFragment, constructManifest: ManifestConstructor
    ): (r: MapResult)
      ensures artifact.None? ==>
        && (r.Success? <==> !location.absolute)
        && (r.Success? ==> WritesOnly(inputMap, r.value, baseDirectory.GetRelative(location), EmptyMarker))
      ensures artifact.Some? && artifact.value.kind == NormalFile ==>
        var forbidden := strict && FailIfDirectory(actionFileCache, artifact.value).Failure?;
        && (r.Success? <==> !forbidden && !location.absolute)
        && (forbidden ==> r == Failure(ForbiddenNonFile(artifact.value)))
        && (r.Success? ==>
              WritesOnly(inputMap, r.value, baseDirectory.GetRelative(location), File(WholeArtifact(artifact.value))))
      ensures artifact.Some? && artifact.value.IsFileset() && artifactExpander.getFileset(artifact.value).None? ==>
        r == Failure(MissingFilesetExpansion(artifact.value)) && r.error.IsInternal()
    {
      match artifact
      case None =>
        AddMapping(inputMap, location, EmptyMarker, baseDirectory)
      case Some(localArtifact) =>
        if localArtifact.IsTreeArtifact() then
          AddTreeFiles(inputMap, location, localArtifact, artifactExpander.treeMembers(localArtifact), baseDirectory)
        else if localArtifact.IsFileset() then
          match artifactExpander.getFileset(localArtifact)
          case None => Failure(MissingFilesetExpansion(localArtifact))
          case Some(filesetLinks) =>
            AddFilesetManifest(location, localArtifact, filesetLinks, inputMap, baseDirectory, constructManifest)
        else
          var _ :- if strict then FailIfDirectory(actionFileCache, localArtifact) else Success(());
          AddMapping(inputMap, location, File(WholeArtifact(localArtifact)), baseDirectory)
    }

    /** The inner runfiles loop: one `AddRunfile` per entry below `root`. */
    function RunfileStep(
      root: PathFragment, actionFileCache: MetadataProvider, artifactExpander: ArtifactExpander,
      baseDirectory: PathFragment, constructManifest: ManifestConstructor
    ): (InputMap, RunfilesEntry) -> MapResult {
      (m: InputMap, e: RunfilesEntry) =>
        AddRunfile(m, root.GetRelative(e.path), e.artifact, actionFileCache, artifactExpander,
                   baseDirectory, constructManifest)
    }

    /** The outer runfiles loop body: check the root is relative, then add its entries. */
    function RootStep(
      actionFileCache: MetadataProvider, artifactExpander: ArtifactExpander,
      baseDirectory: PathFragment, constructManifest: ManifestConstructor
    ): (InputMap, RunfilesRoot) -> MapResult {
      (m: InputMap, r: RunfilesRoot) =>
        if r.root.absolute then Failure(AbsoluteRunfilesRoot(r.root))
        else Fold(m, r.mappings, RunfileStep(r.root, actionFileCache, artifactExpander, baseDirectory, constructManifest))
    }

    /** Adds all runfiles to an existing table (the package-private overload). */
    function AddRunfilesInto(
      inputMap: InputMap, runfiles: seq<RunfilesRoot>, actionFileCache: MetadataProvider,
      artifactExpander: ArtifactExpander, baseDirectory: PathFragment, constructManifest: ManifestConstructor
    ): MapResult {
      Fold(inputMap, runfiles, RootStep(actionFileCache, artifactExpander, baseDirectory, constructManifest))
    }

    /** Adds all runfiles to a fresh table (the public overload). */
    function AddRunfilesToInputs(
      runfiles: seq<RunfilesRoot>, actionFileCache: MetadataProvider,
      artifactExpander: ArtifactExpander, baseDirectory: PathFragment, constructManifest: ManifestConstructor
    ): MapResult {
      AddRunfilesInto(map[], runfiles, actionFileCache, artifactExpander, baseDirectory, constructManifest)
    }

    /** The input a manifest entry is written as. */
    function EntryInput(): ManifestEntry -> Input {
      (e: ManifestEntry) => ManifestInput(e.target)
    }

    /**
     Mounts one fileset at `location`: the artifact must be a fileset, the
     manifest constructor applies the relative-symlink policy, and each
     manifest entry is added.
     */
    function AddFilesetManifest(
      location: PathFragment, filesetArtifact: Artifact, filesetLinks: seq<FilesetOutputSymlink>,
      inputMappings: InputMap, baseDirectory: PathFragment, constructManifest: ManifestConstructor
    ): (r: MapResult)
      ensures !filesetArtifact.IsFileset() ==> r == Failure(NotAFileset(filesetArtifact)) && r.error.IsInternal()
      ensures filesetArtifact.IsFileset() && constructManifest(filesetLinks, location, relSymlinkBehavior).Failure? ==>
        r == Failure(ForbiddenRelativeSymlink(constructManifest(filesetLinks, location, relSymlinkBehavior).error))
    {
      if !filesetArtifact.IsFileset() then
        Failure(NotAFileset(filesetArtifact))
      else
        match constructManifest(filesetLinks, location, relSymlinkBehavior)
        case Failure(message) => Failure(ForbiddenRelativeSymlink(message))
        case Success(entries) => WriteAll(inputMappings, entries, EntryLocation, EntryInput(), baseDirectory)
    }

    /** The standalone fileset loop body: a fileset is mounted at its own exec path. */
    function FilesetStep(baseDirectory: PathFragment, constructManifest: ManifestConstructor)
      : (InputMap, FilesetMapping) -> MapResult
    {
      (m: InputMap, f: FilesetMapping) =>
        AddFilesetManifest(f.fileset.execPath, f.fileset, f.links, m, baseDirectory, constructManifest)
    }

    /** Adds every standalone fileset of the spawn. */
    function AddFilesetManifests(
      filesetMappings: seq<FilesetMapping>, inputMappings: InputMap,
      baseDirectory: PathFragment, constructManifest: ManifestConstructor
    ): MapResult {
      Fold(inputMappings, filesetMappings, FilesetStep(baseDirectory, constructManifest))
    }

    /**
     The whole mapping: direct inputs first, then runfiles, then standalone
     filesets, all into one table.
     */
    function GetInputMapping(
      spawn: Spawn, artifactExpander: ArtifactExpander, baseDirectory: PathFragment,
      actionInputFileCache: MetadataProvider, constructManifest: ManifestConstructor
    ): MapResult {
      var afterInputs :- AddInputs(map[], spawn.inputFiles, artifactExpander, baseDirectory);
      var afterRunfiles :- AddRunfilesInto(afterInputs, spawn.runfiles, actionInputFileCache,
                                           artifactExpander, baseDirectory, constructManifest);
      AddFilesetManifests(spawn.filesetMappings, afterRunfiles, baseDirectory, constructManifest)
    }
  }

  /** The two-argument constructor: the relative-symlink policy defaults to ERROR. */
  function NewSpawnInputExpander(execRoot: PathFragment, strict: bool): (x: SpawnInputExpander)
    ensures x.execRoot == execRoot && x.strict == strict
    ensures x.relSymlinkBehavior == RelativeSymlinkBehavior.Error
  {
    SpawnInputExpander(execRoot, strict, RelativeSymlinkBehavior.Error)
  }

  /** Strict-mode check: known metadata that is not a file is rejected; unknown metadata passes. */
  function FailIfDirectory(actionFileCache: MetadataProvider, input: Artifact): (r: Result<(), ExpansionError>)
    ensures r.Failure? <==> actionFileCache(input).Some? && !actionFileCache(input).value.isFile
    ensures r.Failure? ==> r.error == ForbiddenNonFile(input)
  {
    match actionFileCache(input)
    case Some(FileMetadata(false)) => Failure(ForbiddenNonFile(input))
    case _ => Success(())
  }

  /** Where a tree member goes: below the tree's location, at its parent-relative path. */
  function TreeMemberLocation(location: PathFragment): PathFragment -> PathFragment {
    (p: PathFragment) => location.GetRelative(p)
  }

  /** A tree member as an input. */
  function TreeMemberInput(tree: Artifact): PathFragment -> Input {
    (p: PathFragment) => File(TreeFileArtifact(tree, p))
  }

  /** Adds one entry per expanded member of a tree artifact found at `location`. */
  function AddTreeFiles(
    inputMap: InputMap, location: PathFragment, tree: Artifact, members: seq<PathFragment>, baseDirectory: PathFragment
  ): MapResult {
    WriteAll(inputMap, members, TreeMemberLocation(location), TreeMemberInput(tree), baseDirectory)
  }

  /** A manifest entry's location, relative to the base directory. */
  function EntryLocation(e: ManifestEntry): PathFragment {
    e.location
  }

  /** The members of a tree artifact, given their parent-relative paths. */
  function TreeMembers(tree: Artifact, paths: seq<PathFragment>): (r: seq<FileInput>)
    ensures |r| == |paths|
    ensures forall i :: 0 <= i < |r| ==> r[i] == TreeFileArtifact(tree, paths[i])
  {
    seq(|paths|, i requires 0 <= i < |paths| => TreeFileArtifact(tree, paths[i]))
  }

  /**
   Expands the direct inputs: a tree artifact is replaced by its members, any
   other artifact is kept as a whole.
   */
  function ExpandArtifacts(artifacts: seq<Artifact>, artifactExpander: ArtifactExpander): (r: seq<FileInput>)
    ensures forall f :: f in r && f.WholeArtifact? ==> f.artifact in artifacts && !f.artifact.IsTreeArtifact()
    ensures forall f :: f in r && f.TreeFileArtifact? ==>
      f.parent in artifacts && f.parent.IsTreeArtifact() && f.parentRelativePath in artifactExpander.treeMembers(f.parent)
    ensures forall a :: a in artifacts && !a.IsTreeArtifact() ==> WholeArtifact(a) in r
    ensures forall a, p :: a in artifacts && a.IsTreeArtifact() && p in artifactExpander.treeMembers(a) ==>
      TreeFileArtifact(a, p) in r
  {
    if |artifacts| == 0 then
      []
    else
      var a := artifacts[0];
      var expanded := if a.IsTreeArtifact() then TreeMembers(a, artifactExpander.treeMembers(a)) else [WholeArtifact(a)];
      expanded + ExpandArtifacts(artifacts[1..], artifactExpander)
  }

  /** A file input's exec path. */
  function FileExecPath(f: FileInput): PathFragment {
    f.ExecPath()
  }

  /** A file input as a table value. */
  function FileAsInput(f: FileInput): Input {
    File(f)
  }

  /** Adds the expanded direct inputs, each at its own exec path. */
  function AddInputs(
    inputMap: InputMap, inputFiles: seq<Artifact>, artifactExpander: ArtifactExpander, baseDirectory: PathFragment
  ): MapResult {
    WriteAll(inputMap, ExpandArtifacts(inputFiles, artifactExpander), FileExecPath, FileAsInput, baseDirectory)
  }
}
