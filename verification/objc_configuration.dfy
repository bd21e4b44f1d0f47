/**
 The derived settings of the Objective-C configuration fragment: dSYM
 generation, default compiler options per compilation mode, binary
 stripping, device debug entitlements, simulator selection per platform and
 the .d-file pruning mode.
 */
module Objc {
  import opened Results

  datatype CompilationMode = Dbg | Fastbuild | Opt

  datatype PlatformType = Ios | Watchos | Tvos | Macos

  datatype DotdPruningMode = Use | DoNotUse

  /** A version such as "10.3"; its structure is not modelled. */
  datatype DottedVersion = DottedVersion(text: string)

  datatype ConfigError =
    | NullOption(name: string)                       // Preconditions.checkNotNull
    | SimulatorUnsupported(platform: PlatformType)   // IllegalArgumentException

  /** Default options for debug builds. */
  const DbgCopts: seq<string> := ["-O0", "-DDEBUG=1", "-fstack-protector", "-fstack-protector-all", "-g"]

  /** Extra debug options added when debugging with libstdc++ checks. */
  const GlibcxxDbgCopts: seq<string> := ["-D_GLIBCXX_DEBUG", "-D_GLIBCXX_DEBUG_PEDANTIC", "-D_GLIBCPP_CONCEPT_CHECKS"]

  /** Default options for optimized builds. */
  const OptCopts: seq<string> := ["-Os", "-DNDEBUG=1", "-Wno-unused-variable", "-Winit-self", "-Wno-extra"]

  /** The command-line options the derived settings are computed from; None stands for null. */
  datatype ObjcCommandLineOptions = ObjcCommandLineOptions(
    iosSimulatorDevice: Option<string>,
    iosSimulatorVersion: Option<DottedVersion>,
    watchosSimulatorDevice: Option<string>,
    watchosSimulatorVersion: Option<DottedVersion>,
    tvosSimulatorDevice: Option<string>,
    tvosSimulatorVersion: Option<DottedVersion>,
    appleGenerateDsym: bool,
    appleEnableAutoDsymDbg: bool,
    fastbuildOptions: seq<string>,
    enableBinaryStripping: bool,
    debugWithGlibcxx: bool,
    deviceDebugEntitlements: bool,
    useDotdPruning: bool)

  /** The configuration fragment (the fields that only copy an option are not modelled). */
  datatype ObjcConfiguration = ObjcConfiguration(
    iosSimulatorVersion: DottedVersion,
    iosSimulatorDevice: string,
    watchosSimulatorVersion: DottedVersion,
    watchosSimulatorDevice: string,
    tvosSimulatorVersion: DottedVersion,
    tvosSimulatorDevice: string,
    generateDsym: bool,
    compilationMode: CompilationMode,
    fastbuildOptions: seq<string>,
    enableBinaryStripping: bool,
    debugWithGlibcxx: bool,
    deviceDebugEntitlements: bool,
    dotdPruningPlan: DotdPruningMode)

  /**
   Builds the fragment from the options: the six simulator settings and the
   compilation mode must be non-null (checked in that order); dSYMs are
   generated when forced, or automatically in debug builds when enabled; .d
   pruning is used iff requested.
   */
  function NewObjcConfiguration(opts: ObjcCommandLineOptions, compilationMode: Option<CompilationMode>)
    : (r: Result<ObjcConfiguration, ConfigError>)
    ensures r.Success? <==>
      && opts.iosSimulatorDevice.Some? && opts.iosSimulatorVersion.Some?
      && opts.watchosSimulatorDevice.Some? && opts.watchosSimulatorVersion.Some?
      && opts.tvosSimulatorDevice.Some? && opts.tvosSimulatorVersion.Some?
      && compilationMode.Some?
    ensures opts.iosSimulatorDevice.None? ==> r == Failure(NullOption("iosSimulatorDevice"))
    ensures (opts.iosSimulatorDevice.Some? && opts.iosSimulatorVersion.None?) ==>
      r == Failure(NullOption("iosSimulatorVersion"))
    ensures (opts.iosSimulatorDevice.Some? && opts.iosSimulatorVersion.Some?
           && opts.watchosSimulatorDevice.None?) ==>
      r == Failure(NullOption("watchosSimulatorDevice"))
    ensures (opts.iosSimulatorDevice.Some? && opts.iosSimulatorVersion.Some?
           && opts.watchosSimulatorDevice.Some? && opts.watchosSimulatorVersion.None?) ==>
      r == Failure(NullOption("watchosSimulatorVersion"))
    ensures (opts.iosSimulatorDevice.Some? && opts.iosSimulatorVersion.Some?
           && opts.watchosSimulatorDevice.Some? && opts.watchosSimulatorVersion.Some?
           && opts.tvosSimulatorDevice.None?) ==>
      r == Failure(NullOption("tvosSimulatorDevice"))
    ensures (opts.iosSimulatorDevice.Some? && opts.iosSimulatorVersion.Some?
           && opts.watchosSimulatorDevice.Some? && opts.watchosSimulatorVersion.Some?
           && opts.tvosSimulatorDevice.Some? && opts.tvosSimulatorVersion.None?) ==>
      r == Failure(NullOption("tvosSimulatorVersion"))
    ensures (opts.iosSimulatorDevice.Some? && opts.iosSimulatorVersion.Some?
           && opts.watchosSimulatorDevice.Some? && opts.watchosSimulatorVersion.Some?
           && opts.tvosSimulatorDevice.Some? && opts.tvosSimulatorVersion.Some?
           && compilationMode.None?) ==>
      r == Failure(NullOption("compilationMode"))
    ensures r.Failure? ==> r.error.NullOption?
    ensures r.Success? ==>
      var c := r.value;
      && c.compilationMode == compilationMode.value
      && c.iosSimulatorDevice == opts.iosSimulatorDevice.value
      && c.iosSimulatorVersion == opts.iosSimulatorVersion.value
      && c.watchosSimulatorDevice == opts.watchosSimulatorDevice.value
      && c.watchosSimulatorVersion == opts.watchosSimulatorVersion.value
      && c.tvosSimulatorDevice == opts.tvosSimulatorDevice.value
      && c.tvosSimulatorVersion == opts.tvosSimulatorVersion.value
      && (c.generateDsym <==> opts.appleGenerateDsym || (opts.appleEnableAutoDsymDbg && c.compilationMode == Dbg))
      && (c.dotdPruningPlan == Use <==> opts.useDotdPruning)
      && c.fastbuildOptions == opts.fastbuildOptions
      && c.enableBinaryStripping == opts.enableBinaryStripping
      && c.debugWithGlibcxx == opts.debugWithGlibcxx
      && c.deviceDebugEntitlements == opts.deviceDebugEntitlements
  {
    var iosDevice :- CheckNotNull(opts.iosSimulatorDevice, "iosSimulatorDevice");
    var iosVersion :- CheckNotNull(opts.iosSimulatorVersion, "iosSimulatorVersion");
    var watchosDevice :- CheckNotNull(opts.watchosSimulatorDevice, "watchosSimulatorDevice");
    var watchosVersion :- CheckNotNull(opts.watchosSimulatorVersion, "watchosSimulatorVersion");
    var tvosDevice :- CheckNotNull(opts.tvosSimulatorDevice, "tvosSimulatorDevice");
    var tvosVersion :- CheckNotNull(opts.tvosSimulatorVersion, "tvosSimulatorVersion");
    var mode :- CheckNotNull(compilationMode, "compilationMode");
    Success(ObjcConfiguration(
      iosVersion, iosDevice, watchosVersion, watchosDevice, tvosVersion, tvosDevice,
      opts.appleGenerateDsym || (opts.appleEnableAutoDsymDbg && mode == Dbg),
      mode,
      opts.fastbuildOptions,
      opts.enableBinaryStripping,
      opts.debugWithGlibcxx,
      opts.deviceDebugEntitlements,
      if opts.useDotdPruning then Use else DoNotUse))
  }

  /** A null check that names the offending option. */
  function CheckNotNull<T>(value: Option<T>, name: string): (r: Result<T, ConfigError>)
    ensures r.Success? <==> value.Some?
    ensures r.Success? ==> r.value == value.value
    ensures r.Failure? ==> r.error == NullOption(name)
  {
    match value
    case Some(v) => Success(v)
    case None => Failure(NullOption(name))
  }

  /**
   The default compiler options of the configured mode: the debug options
   (followed by the libstdc++ debug options iff requested), the user's
   fastbuild options, or the optimized-build options.
   */
  function CoptsForCompilationMode(c: ObjcConfiguration): (r: seq<string>)
    ensures c.compilationMode == Dbg ==>
      && |r| >= |DbgCopts| && r[..|DbgCopts|] == DbgCopts
      && (|r| > |DbgCopts| <==> c.debugWithGlibcxx)
      && (c.debugWithGlibcxx ==> r[|DbgCopts|..] == GlibcxxDbgCopts)
    ensures c.compilationMode == Fastbuild ==> r == c.fastbuildOptions
    ensures c.compilationMode == Opt ==> r == OptCopts
  {
    match c.compilationMode
    case Dbg => if c.debugWithGlibcxx then DbgCopts + GlibcxxDbgCopts else DbgCopts
    case Fastbuild => c.fastbuildOptions
    case Opt => OptCopts
  }

  /** Whether linked binaries get symbol and dead-code stripping. */
  predicate ShouldStripBinary(c: ObjcConfiguration) {
    c.enableBinaryStripping && c.compilationMode == Opt
  }

  /** Whether device debug entitlements are added when signing. */
  predicate UseDeviceDebugEntitlements(c: ObjcConfiguration) {
    c.deviceDebugEntitlements && c.compilationMode != Opt
  }

  /** True for the platforms that have a simulator. */
  predicate HasSimulator(p: PlatformType) {
    p == Ios || p == Tvos || p == Watchos
  }

  /** The simulated device for a platform; platforms without a simulator are rejected. */
  function SimulatorDeviceForPlatformType(c: ObjcConfiguration, platformType: PlatformType)
    : (r: Result<string, ConfigError>)
    ensures r.Failure? <==> !HasSimulator(platformType)
    ensures r.Failure? ==> r.error == SimulatorUnsupported(platformType)
    ensures platformType == Ios ==> r == Success(c.iosSimulatorDevice)
    ensures platformType == Tvos ==> r == Success(c.tvosSimulatorDevice)
    ensures platformType == Watchos ==> r == Success(c.watchosSimulatorDevice)
  {
    match platformType
    case Ios => Success(c.iosSimulatorDevice)
    case Tvos => Success(c.tvosSimulatorDevice)
    case Watchos => Success(c.watchosSimulatorDevice)
    case _ => Failure(SimulatorUnsupported(platformType))
  }

  /** The simulator SDK version for a platform; platforms without a simulator are rejected. */
  function SimulatorVersionForPlatformType(c: ObjcConfiguration, platformType: PlatformType)
    : (r: Result<DottedVersion, ConfigError>)
    ensures r.Failure? <==> !HasSimulator(platformType)
    ensures r.Failure? ==> r.error == SimulatorUnsupported(platformType)
    ensures platformType == Ios ==> r == Success(c.iosSimulatorVersion)
    ensures platformType == Tvos ==> r == Success(c.tvosSimulatorVersion)
    ensures platformType == Watchos ==> r == Success(c.watchosSimulatorVersion)
  {
    match platformType
    case Ios => Success(c.iosSimulatorVersion)
    case Tvos => Success(c.tvosSimulatorVersion)
    case Watchos => Success(c.watchosSimulatorVersion)
    case _ => Failure(SimulatorUnsupported(platformType))
  }

  /** The device and version lookups accept and reject the same platforms. */
  lemma SimulatorLookupsAgree(c: ObjcConfiguration, p: PlatformType)
    ensures SimulatorDeviceForPlatformType(c, p).Success? <==> SimulatorVersionForPlatformType(c, p).Success?
    ensures SimulatorDeviceForPlatformType(c, p).Failure? ==>
      SimulatorDeviceForPlatformType(c, p).error == SimulatorVersionForPlatformType(c, p).error
  {
  }

  /** Stripping happens exactly in optimized builds with the stripping option set. */
  lemma StrippingFromOptions(opts: ObjcCommandLineOptions, mode: CompilationMode)
    requires NewObjcConfiguration(opts, Some(mode)).Success?
    ensures ShouldStripBinary(NewObjcConfiguration(opts, Some(mode)).value)
      <==> opts.enableBinaryStripping && mode == Opt
  {
  }

  /** Debug entitlements are used exactly in non-optimized builds with the option set. */
  lemma DebugEntitlementsFromOptions(opts: ObjcCommandLineOptions, mode: CompilationMode)
    requires NewObjcConfiguration(opts, Some(mode)).Success?
    ensures UseDeviceDebugEntitlements(NewObjcConfiguration(opts, Some(mode)).value)
      <==> opts.deviceDebugEntitlements && mode != Opt
  {
  }

  /** A binary is never both stripped and signed with debug entitlements. */
  lemma StrippingExcludesDebugEntitlements(c: ObjcConfiguration)
    ensures !(ShouldStripBinary(c) && UseDeviceDebugEntitlements(c))
  {
  }
}
