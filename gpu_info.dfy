/** GPU capability detection: the architecture tier, default buffering mode and
    default precision that the first CUDA device implies.

    The two CUDA runtime queries (device count and device properties) are inputs
    of `DetectGpu`; the classification ladder itself is the pure function
    `Classify` of the combined capability score `sm = major * 10 + minor`.
 */
module Gpu {

  /** Architecture tier, with the enum codes of the C++ declaration. */
  datatype GpuArchitecture = Unknown | Turing | Ampere | AdaLovelace

  datatype BufferingMode = Double | Triple

  datatype PrecisionMode = FP32 | FP16

  function ArchitectureCode(a: GpuArchitecture): int {
    match a
    case Unknown => 0
    case Turing => 75
    case Ampere => 86
    case AdaLovelace => 89
  }

  function BufferingCode(m: BufferingMode): int {
    match m
    case Double => 2
    case Triple => 3
  }

  function PrecisionCode(p: PrecisionMode): int {
    match p
    case FP32 => 0
    case FP16 => 1
  }

  /** The record filled in by `DetectGpu`. */
  datatype GpuInfo = GpuInfo(
    name: string,
    deviceId: int,
    computeCapabilityMajor: int,
    computeCapabilityMinor: int,
    totalMemoryMB: nat,
    architecture: GpuArchitecture,
    defaultBuffering: BufferingMode,
    defaultPrecision: PrecisionMode)

  /** A value-initialised `GpuInfo`, with the member initialisers of the struct. */
  const DefaultGpuInfo := GpuInfo("", 0, 0, 0, 0, Unknown, Double, FP32)

  /** What the classification ladder decides for one device. */
  datatype Policy = Policy(architecture: GpuArchitecture, buffering: BufferingMode, precision: PrecisionMode)

  /** The combined capability score. */
  function SmScore(major: int, minor: int): int {
    major * 10 + minor
  }

  /** The descending threshold ladder: the first band whose threshold `sm`
      reaches decides the tier and both defaults. */
  function Classify(sm: int): (p: Policy)
    ensures p.buffering == Triple <==> sm >= 89
    ensures p.precision == FP16 <==> sm >= 80
    ensures p.architecture == Unknown <==> sm < 75
  {
    if sm >= 89 then Policy(AdaLovelace, Triple, FP16)
    else if sm >= 80 then Policy(Ampere, Double, FP16)
    else if sm >= 75 then Policy(Turing, Double, FP32)
    else Policy(Unknown, Double, FP32)
  }

  /** The score a device needs to reach a tier; Unknown needs nothing. */
  function Threshold(a: GpuArchitecture): int
    requires a != Unknown
  {
    match a
    case Turing => 75
    case Ampere => 80
    case AdaLovelace => 89
  }

  /** Position of a tier in the ladder, lowest first. */
  function Rank(a: GpuArchitecture): nat {
    match a
    case Unknown => 0
    case Turing => 1
    case Ampere => 2
    case AdaLovelace => 3
  }

  /** Each tier is chosen exactly on its band of scores, with its defaults. */
  lemma ClassifyBands(sm: int)
    ensures Classify(sm) == Policy(AdaLovelace, Triple, FP16) <==> 89 <= sm
    ensures Classify(sm) == Policy(Ampere, Double, FP16) <==> 80 <= sm < 89
    ensures Classify(sm) == Policy(Turing, Double, FP32) <==> 75 <= sm < 80
    ensures Classify(sm) == Policy(Unknown, Double, FP32) <==> sm < 75
  {
  }

  /** Compute capabilities 9.0, 8.6, 7.5 and 6.1 land in the four tiers. */
  lemma ClassifyExamples()
    ensures Classify(SmScore(9, 0)) == Policy(AdaLovelace, Triple, FP16)
    ensures Classify(SmScore(8, 6)) == Policy(Ampere, Double, FP16)
    ensures Classify(SmScore(7, 5)) == Policy(Turing, Double, FP32)
    ensures Classify(SmScore(6, 1)) == Policy(Unknown, Double, FP32)
  {
  }

  /** A device reaches a tier (or a higher one) exactly when its score reaches
      that tier's threshold: the ladder picks the highest tier whose threshold
      is met. */
  lemma ClassifyIsHighestThresholdMet(sm: int, a: GpuArchitecture)
    requires a != Unknown
    ensures Rank(a) <= Rank(Classify(sm).architecture) <==> sm >= Threshold(a)
  {
  }

  /** A higher score never yields a lower tier, and the enum codes grow with the tier. */
  lemma ClassifyMonotone(sm1: int, sm2: int)
    requires sm1 <= sm2
    ensures Rank(Classify(sm1).architecture) <= Rank(Classify(sm2).architecture)
    ensures ArchitectureCode(Classify(sm1).architecture) <= ArchitectureCode(Classify(sm2).architecture)
  {
  }

  /** The default policy of the ladder depends only on the tier it picks. */
  lemma ClassifyDependsOnTierOnly(sm1: int, sm2: int)
    requires Classify(sm1).architecture == Classify(sm2).architecture
    ensures Classify(sm1) == Classify(sm2)
  {
  }

  /** The enum codes are pairwise distinct; Ampere's code (86) is not its
      classification threshold (80), while Turing's and Ada Lovelace's are. */
  lemma ArchitectureCodes()
    ensures forall a, b :: ArchitectureCode(a) == ArchitectureCode(b) ==> a == b
    ensures ArchitectureCode(Ampere) != Threshold(Ampere)
    ensures ArchitectureCode(Turing) == Threshold(Turing)
    ensures ArchitectureCode(AdaLovelace) == Threshold(AdaLovelace)
    ensures BufferingCode(Double) == 2 && BufferingCode(Triple) == 3
    ensures PrecisionCode(FP32) == 0 && PrecisionCode(FP16) == 1
  {
  }

  /** The struct defaults are the policy of the lowest band: a caller that keeps
      the default after a failed detection gets what an old GPU would get. */
  lemma DefaultIsLowestBandPolicy(sm: int)
    requires sm < 75
    ensures Classify(sm) == Policy(DefaultGpuInfo.architecture, DefaultGpuInfo.defaultBuffering, DefaultGpuInfo.defaultPrecision)
    ensures DefaultGpuInfo.deviceId == 0 && DefaultGpuInfo.computeCapabilityMajor == 0
    ensures DefaultGpuInfo.computeCapabilityMinor == 0 && DefaultGpuInfo.totalMemoryMB == 0
  {
  }

  /** Human-readable name of a tier. */
  function GpuArchitectureName(a: GpuArchitecture): (s: string)
    ensures s == "Unknown" <==> a == Unknown
  {
    match a
    case Turing => "Turing"
    case Ampere => "Ampere"
    case AdaLovelace => "Ada Lovelace"
    case Unknown => "Unknown"
  }

  /** Distinct tiers have distinct names, so the name identifies the tier. */
  lemma GpuArchitectureNameInjective(a: GpuArchitecture, b: GpuArchitecture)
    requires GpuArchitectureName(a) == GpuArchitectureName(b)
    ensures a == b
  {
  }

  /** Outcome of a CUDA runtime call. */
  datatype CudaStatus = CudaSuccess | CudaError(code: int)

  /** The fields of `cudaDeviceProp` that detection reads. */
  datatype DeviceProps = DeviceProps(name: string, major: int, minor: int, totalGlobalMem: nat)

  const BytesPerMB: nat := 1024 * 1024

  /** Detects the first device. `countStatus`/`deviceCount` are what the device
      count query reported, `propsStatus`/`props` what the properties query of
      device 0 reported. `info` is the caller's record; `result` is that record
      after the call. */
  method DetectGpu(info: GpuInfo, countStatus: CudaStatus, deviceCount: int,
                   propsStatus: CudaStatus, props: DeviceProps)
    returns (found: bool, result: GpuInfo)
    ensures found <==> countStatus == CudaSuccess && deviceCount != 0 && propsStatus == CudaSuccess
    ensures !found ==> result == info
    ensures found ==> result.deviceId == 0 && result.name == props.name
    ensures found ==> result.computeCapabilityMajor == props.major && result.computeCapabilityMinor == props.minor
    ensures found ==> result.totalMemoryMB * BytesPerMB <= props.totalGlobalMem < (result.totalMemoryMB + 1) * BytesPerMB
    ensures found ==> Policy(result.architecture, result.defaultBuffering, result.defaultPrecision)
                      == Classify(SmScore(props.major, props.minor))
  {
    if countStatus != CudaSuccess || deviceCount == 0 {
      return false, info;
    }
    if propsStatus != CudaSuccess {
      return false, info;
    }
    result := info.(deviceId := 0, name := props.name,
                    computeCapabilityMajor := props.major, computeCapabilityMinor := props.minor,
                    totalMemoryMB := props.totalGlobalMem / BytesPerMB);
    var sm := props.major * 10 + props.minor;
    var policy := Classify(sm);
    result := result.(architecture := policy.architecture, defaultBuffering := policy.buffering,
                      defaultPrecision := policy.precision);
    found := true;
  }
}
