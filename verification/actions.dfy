/**
 The data model of the spawn input mapping engine: artifacts, the inputs
 they expand to, runfiles trees, fileset declarations and the collaborators
 the engine consults (artifact expander, metadata provider, fileset manifest
 constructor).
 */
module Actions {
  import opened Results
  import opened Paths

  /** The closed set of artifact shapes the engine dispatches on. */
  datatype ArtifactKind = NormalFile | TreeArtifact | Fileset

  /** A declared build artifact, identified by its exec-root-relative path. */
  datatype Artifact = Artifact(execPath: PathFragment, kind: ArtifactKind) {
    predicate IsTreeArtifact() {
      kind == TreeArtifact
    }

    predicate IsFileset() {
      kind == Fileset
    }
  }

  /** A concrete file input: a whole artifact, or one member of an expanded tree artifact. */
  datatype FileInput =
    | WholeArtifact(artifact: Artifact)
    | TreeFileArtifact(parent: Artifact, parentRelativePath: PathFragment)
  {
    /** The member of a tree artifact lives under its parent's exec path. */
    function ExecPath(): PathFragment {
      match this
      case WholeArtifact(a) => a.execPath
      case TreeFileArtifact(p, rel) => p.execPath.GetRelative(rel)
    }
  }

  /**
   A value of the input table. `EmptyMarker` stands for "no content"; `FromPath`
   is an input created from a resolved fileset symlink target.
   */
  datatype Input =
    | EmptyMarker
    | File(file: FileInput)
    | FromPath(path: PathFragment)

  /** The only part of an artifact's metadata the engine looks at. */
  datatype FileMetadata = FileMetadata(isFile: bool)

  /** Policy for fileset symlinks whose relative target may leave the fileset. */
  datatype RelativeSymlinkBehavior = Error | Resolve | Ignore

  /** One symlink declaration of a fileset; only the manifest constructor interprets it. */
  datatype FilesetOutputSymlink = FilesetOutputSymlink(name: PathFragment, target: string)

  /** One entry of a fileset manifest: a location and an optional target (None = empty). */
  datatype ManifestEntry = ManifestEntry(location: PathFragment, target: Option<PathFragment>)

  /** One runfile: a path below its root and an optional backing artifact. */
  datatype RunfilesEntry = RunfilesEntry(path: PathFragment, artifact: Option<Artifact>)

  /** The runfiles below one root, in iteration order. */
  datatype RunfilesRoot = RunfilesRoot(root: PathFragment, mappings: seq<RunfilesEntry>)

  /** A fileset declared directly on the action, with its symlinks. */
  datatype FilesetMapping = FilesetMapping(fileset: Artifact, links: seq<FilesetOutputSymlink>)

  /** The part of a spawn the engine reads. */
  datatype Spawn = Spawn(
    inputFiles: seq<Artifact>,
    runfiles: seq<RunfilesRoot>,
    filesetMappings: seq<FilesetMapping>)

  /**
   The artifact expander: the parent-relative paths of a tree artifact's
   members, and a fileset's symlinks (None when the fileset was never expanded).
   */
  datatype ArtifactExpander = ArtifactExpander(
    treeMembers: Artifact -> seq<PathFragment>,
    getFileset: Artifact -> Option<seq<FilesetOutputSymlink>>)

  /** The metadata provider: None when no metadata is known for the artifact. */
  type MetadataProvider = Artifact -> Option<FileMetadata>

  /**
   The fileset manifest constructor: from a fileset's symlinks, its mount
   location and the relative-symlink policy, either the manifest entries or
   the message of a forbidden relative symlink.
   */
  type ManifestConstructor =
    (seq<FilesetOutputSymlink>, PathFragment, RelativeSymlinkBehavior) -> Result<seq<ManifestEntry>, string>
}
