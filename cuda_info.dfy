/** The CUDA report (CUDAInfo.py): the compute-capability core table, the
    per-device report built from a device's attribute dictionary, and the
    loop that merges every device's report into one flat dictionary. */
module CudaInfo {
  import opened Wrappers
  import opened Decimal
  import opened Report

  // ---------------------------------------------------------------------
  // Cores per streaming multiprocessor
  // ---------------------------------------------------------------------

  /** The concatenated lookup key `str(major) + str(minor)`. */
  function SmKey(major: int, minor: int): string {
    IntToString(major) + IntToString(minor)
  }

  /** `convertSMVer2Cores`: an if/elif chain on the concatenated key, falling
      through to `None` for an architecture that is not listed. */
  function ConvertSMVer2Cores(major: int, minor: int): (cores: Option<nat>)
    ensures cores.Some? ==> cores.value == 64 || cores.value == 128 || cores.value == 192
  {
    var sm := SmKey(major, minor);
    if sm == "30" then Some(192)       // Kepler GK10x
    else if sm == "32" then Some(192)  // Kepler GK10x
    else if sm == "35" then Some(192)  // Kepler GK11x
    else if sm == "37" then Some(192)  // Kepler GK21x
    else if sm == "50" then Some(128)  // Maxwell GM10x
    else if sm == "52" then Some(128)  // Maxwell GM20x
    else if sm == "53" then Some(128)  // Maxwell GM20x
    else if sm == "60" then Some(64)   // Pascal GP100
    else if sm == "61" then Some(128)  // Pascal GP10x
    else if sm == "62" then Some(128)  // Pascal GP10x
    else if sm == "70" then Some(64)   // Volta GV100
    else if sm == "72" then Some(64)   // Volta GV10B
    else if sm == "75" then Some(64)   // Turing TU10x
    else None
  }

  /** The architecture table itself, keyed by the (major, minor) pair. */
  const CoreCountTable: map<(int, int), nat> :=
    map[(3, 0) := 192, (3, 2) := 192, (3, 5) := 192, (3, 7) := 192,
        (5, 0) := 128, (5, 2) := 128, (5, 3) := 128,
        (6, 0) := 64, (6, 1) := 128, (6, 2) := 128,
        (7, 0) := 64, (7, 2) := 64, (7, 5) := 64]

  /** The concatenated key has two characters exactly when both numbers are
      single non-negative digits, and is then those two digits. */
  lemma SmKeyShape(major: int, minor: int)
    ensures |SmKey(major, minor)| == 2 <==> 0 <= major < 10 && 0 <= minor < 10
    ensures 0 <= major < 10 && 0 <= minor < 10 ==>
              SmKey(major, minor) == [DigitChar(major), DigitChar(minor)]
  {
  }

  /** Two-digit keys name exactly one pair of single digits. */
  lemma SmKeyDigits(major: int, minor: int, a: nat, b: nat)
    requires 0 <= major < 10 && 0 <= minor < 10 && a < 10 && b < 10
    ensures SmKey(major, minor) == [DigitChar(a), DigitChar(b)] <==> major == a && minor == b
  {
    SmKeyShape(major, minor);
    if SmKey(major, minor) == [DigitChar(a), DigitChar(b)] {
      assert DigitChar(major) == DigitChar(a) && DigitChar(minor) == DigitChar(b);
    }
  }

  /** Matching on the string key agrees with looking the integer pair up in
      the table: no pair outside the table (such as major 30) produces a
      listed key. */
  lemma ConvertAgreesWithTable(major: int, minor: int)
    ensures ConvertSMVer2Cores(major, minor) ==
              if (major, minor) in CoreCountTable then Some(CoreCountTable[(major, minor)]) else None
  {
    SmKeyShape(major, minor);
    if 0 <= major < 10 && 0 <= minor < 10 {
      SmKeyDigits(major, minor, 3, 0);
      SmKeyDigits(major, minor, 3, 2);
      SmKeyDigits(major, minor, 3, 5);
      SmKeyDigits(major, minor, 3, 7);
      SmKeyDigits(major, minor, 5, 0);
      SmKeyDigits(major, minor, 5, 2);
      SmKeyDigits(major, minor, 5, 3);
      SmKeyDigits(major, minor, 6, 0);
      SmKeyDigits(major, minor, 6, 1);
      SmKeyDigits(major, minor, 6, 2);
      SmKeyDigits(major, minor, 7, 0);
      SmKeyDigits(major, minor, 7, 2);
      SmKeyDigits(major, minor, 7, 5);
    }
  }

  /** The thirteen listed architectures and their core counts. */
  lemma KnownArchitectures()
    ensures forall major, minor :: (major, minor) in CoreCountTable ==>
              ConvertSMVer2Cores(major, minor) == Some(CoreCountTable[(major, minor)])
  {
    forall major, minor | (major, minor) in CoreCountTable
      ensures ConvertSMVer2Cores(major, minor) == Some(CoreCountTable[(major, minor)])
    {
      ConvertAgreesWithTable(major, minor);
    }
  }

  /** Every pair outside the thirteen listed ones has no core count; in
      particular a multi-digit major never matches, whatever the minor. */
  lemma UnknownArchitecture(major: int, minor: int)
    requires (major, minor) !in CoreCountTable
    ensures ConvertSMVer2Cores(major, minor) == None
  {
    ConvertAgreesWithTable(major, minor);
  }

  // ---------------------------------------------------------------------
  // Driver version and capability text
  // ---------------------------------------------------------------------

  /** The CUDA driver API packs a driver version as 1000 * major + 10 * minor. */
  function PackDriverVersion(major: int, minor: int): int {
    1000 * major + 10 * minor
  }

  /** `driverVersion // 1000`. Python's `//` and `%` round toward minus
      infinity; for the positive divisors used here that is Dafny's `/`. */
  function DriverMajor(driverVersion: int): (major: int)
    ensures 1000 * major <= driverVersion < 1000 * major + 1000
  {
    driverVersion / 1000
  }

  /** `(driverVersion % 100) // 10`. */
  function DriverMinor(driverVersion: int): (minor: int)
    ensures 0 <= minor < 10
    ensures 10 * minor <= driverVersion % 100 < 10 * minor + 10
  {
    (driverVersion % 100) / 10
  }

  /** Quotient and remainder by the decimal divisors used here are the
      unique pair with `v == d * q + r` and `0 <= r < d`. */
  lemma DecimalDivision(v: int, d: int, q: int, r: int)
    requires d == 10 || d == 100 || d == 1000
    requires v == d * q + r && 0 <= r < d
    ensures v / d == q && v % d == r
  {
  }

  /** Decoding a packed version gives back the major and a one-digit minor. */
  lemma DriverVersionRoundTrip(major: int, minor: int)
    requires 0 <= minor <= 9
    ensures DriverMajor(PackDriverVersion(major, minor)) == major
    ensures DriverMinor(PackDriverVersion(major, minor)) == minor
  {
    var v := PackDriverVersion(major, minor);
    DecimalDivision(v, 1000, major, 10 * minor);
    DecimalDivision(v, 100, 10 * major, 10 * minor);
    DecimalDivision(10 * minor, 10, minor, 0);
  }

  /** The decoded pair re-packs to the version exactly when the version has
      no hundreds digit and no units digit; otherwise those digits are lost. */
  lemma DriverVersionDecodeExact(driverVersion: int)
    ensures (PackDriverVersion(DriverMajor(driverVersion), DriverMinor(driverVersion)) == driverVersion)
            <==> driverVersion % 1000 < 100 && driverVersion % 10 == 0
  {
    var q, r := driverVersion / 1000, driverVersion % 1000;
    var tens, units := (r % 100) / 10, r % 10;
    DecimalDivision(driverVersion, 100, 10 * q + r / 100, r % 100);
    DecimalDivision(driverVersion, 10, 100 * q + r / 10, r % 10);
    DecimalDivision(r % 100, 10, tens, (r % 100) % 10);
    DecimalDivision(r, 10, 10 * (r / 100) + tens, (r % 100) % 10);
  }

  /** The 'CUDA Driver Version / Runtime Version' text. */
  function VersionText(driverVersion: int, runtimeVersion: (int, int)): string {
    IntToString(DriverMajor(driverVersion)) + "." + IntToString(DriverMinor(driverVersion))
      + " / " + IntToString(runtimeVersion.0) + "." + IntToString(runtimeVersion.1)
  }

  /** The 'CUDA Capability Major/Minor version number' text. */
  function CapabilityText(major: int, minor: int): string {
    IntToString(major) + "." + IntToString(minor)
  }

  /** The capability text is the decimal major, a dot, then the decimal
      minor, and it names the pair uniquely. */
  lemma CapabilityTextDetermines(major: int, minor: int, major': int, minor': int)
    ensures (CapabilityText(major, minor) == CapabilityText(major', minor'))
            <==> major == major' && minor == minor'
  {
    if CapabilityText(major, minor) == CapabilityText(major', minor') {
      SplitAtFirst(IntToString(major), IntToString(minor), IntToString(major'), IntToString(minor'), '.');
      IntToStringInjective(major, major');
      IntToStringInjective(minor, minor');
    }
  }

  // ---------------------------------------------------------------------
  // getDeviceInfo
  // ---------------------------------------------------------------------

  /** The device attributes getDeviceInfo reads, named after the driver's
      attribute identifiers (`COMPUTE_CAPABILITY_MAJOR` is
      ComputeCapabilityMajor, and so on). */
  datatype Attr =
    | ComputeCapabilityMajor | ComputeCapabilityMinor | MultiprocessorCount | ClockRate
    | MemoryClockRate | GlobalMemoryBusWidth | L2CacheSize | MaximumTexture1dWidth
    | MaximumTexture2dWidth | MaximumTexture2dHeight | MaximumTexture3dWidth
    | MaximumTexture3dHeight | MaximumTexture3dDepth | MaximumTexture1dLayeredWidth
    | MaximumTexture1dLayeredLayers | MaximumSurface2dLayeredWidth | MaximumSurface2dLayeredHeight
    | MaximumSurface2dLayeredLayers | TotalConstantMemory | MaxSharedMemoryPerBlock
    | MaxRegistersPerBlock | WarpSize | MaxThreadsPerMultiprocessor | MaxThreadsPerBlock
    | MaxBlockDimX | MaxBlockDimY | MaxBlockDimZ | MaxGridDimX | MaxGridDimY | MaxGridDimZ
    | MaxPitch | TextureAlignment | ConcurrentKernels | AsyncEngineCount | KernelExecTimeout
    | Integrated | CanMapHostMemory | SurfaceAlignment | EccEnabled | UnifiedAddressing | PciBusId
    | PciDeviceId | ComputeMode

  /** A device as the driver exposes it: its name, its total memory in bytes
      and its attribute dictionary. */
  datatype Device = Device(name: string, totalMemory: int, attrs: map<Attr, int>)

  /** What getDeviceInfo raises: a missing attribute (`KeyError`), or the
      product of the multiprocessor count and a `None` core count. */
  datatype Error = KeyError(missing: Attr) | TypeError

  /** The labels of the CUDA report; LabelText gives each one's text. */
  datatype Label =
    | DevicesDetected | DeviceId | DeviceName | DriverRuntimeVersion | CapabilityVersion
    | GlobalMemory | Multiprocessors | CoresPerMultiprocessor | TotalCores | GpuClockRate
    | MemoryClock | MemoryBusWidth | L2Cache | MaxTexture1d | MaxTexture2d | MaxTexture3d
    | MaxLayeredTexture1d | MaxLayeredTexture2d | ConstantMemory | SharedMemoryPerBlock
    | RegistersPerBlock | Warp | ThreadsPerMultiprocessor | ThreadsPerBlock | BlockDimensions
    | GridDimensions | MemoryPitch | TextureAlign | ConcurrentCopyAndExecution | RunTimeLimit
    | IntegratedGpu | HostMemoryMapping | SurfaceAlign | EccSupport | UnifiedAddressingSupport | PciIds
    | Mode

  function LabelText(l: Label): string {
    match l
    case DevicesDetected => "CUDA device(s) detected"
    case DeviceId => "Device ID"
    case DeviceName => "Device name"
    case DriverRuntimeVersion => "CUDA Driver Version / Runtime Version"
    case CapabilityVersion => "CUDA Capability Major/Minor version number"
    case GlobalMemory => "Total amount of global memory"
    case Multiprocessors => "Multiprocessors Count"
    case CoresPerMultiprocessor => "CUDA Cores/MP"
    case TotalCores => "Total Cuda Cores"
    case GpuClockRate => "GPU Clock rate"
    case MemoryClock => "Memory Clock rate"
    case MemoryBusWidth => "Memory Bus Width"
    case L2Cache => "L2 Cache Size"
    case MaxTexture1d => "Max Texture Dimension Size (x)"
    case MaxTexture2d => "Max Texture Dimension Size (x,y)"
    case MaxTexture3d => "Max Texture Dimension Size (x,y,z)"
    case MaxLayeredTexture1d => "Max Layered Texture Size (1D) x layers"
    case MaxLayeredTexture2d => "Max Layered Texture Size (2D) x layers"
    case ConstantMemory => "Total amount of constant memory"
    case SharedMemoryPerBlock => "Total amount of shared memory per block"
    case RegistersPerBlock => "Total number of registers available per block"
    case Warp => "Warp size"
    case ThreadsPerMultiprocessor => "Maximum number of threads per multiprocessor"
    case ThreadsPerBlock => "Maximum number of threads per block"
    case BlockDimensions => "Maximum sizes of each dimension of a block"
    case GridDimensions => "Maximum sizes of each dimension of a grid"
    case MemoryPitch => "Maximum memory pitch"
    case TextureAlign => "Texture alignment"
    case ConcurrentCopyAndExecution => "Concurrent copy and kernel execution"
    case RunTimeLimit => "Run time limit on kernels"
    case IntegratedGpu => "Integrated GPU sharing Host Memory"
    case HostMemoryMapping => "Support host page-locked memory mapping"
    case SurfaceAlign => "Alignment requirement for Surfaces"
    case EccSupport => "Device has ECC support"
    case UnifiedAddressingSupport => "Device supports Unified Addressing (UVA)"
    case PciIds => "Device PCI Bus ID / PCI location ID"
    case Mode => "Compute Mode"
  }

  /** The label whose text has length `len` and, at index 26 for the two
      38-character texts and at its end for all others, the character with
      code `code`. */
  function LabelOfKey(len: int, code: int): Option<Label> {
    if len == 9 then
      if code == 68 then Some(DeviceId)
      else if code == 101 then Some(Warp)
      else None
    else if len == 11 then Some(DeviceName)
    else if len == 12 then Some(Mode)
    else if len == 13 then
      if code == 80 then Some(CoresPerMultiprocessor)
      else if code == 101 then Some(L2Cache)
      else None
    else if len == 14 then Some(GpuClockRate)
    else if len == 16 then
      if code == 115 then Some(TotalCores)
      else if code == 104 then Some(MemoryBusWidth)
      else None
    else if len == 17 then
      if code == 101 then Some(MemoryClock)
      else if code == 116 then Some(TextureAlign)
      else None
    else if len == 20 then Some(MemoryPitch)
    else if len == 21 then Some(Multiprocessors)
    else if len == 22 then Some(EccSupport)
    else if len == 23 then Some(DevicesDetected)
    else if len == 25 then Some(RunTimeLimit)
    else if len == 29 then Some(GlobalMemory)
    else if len == 30 then Some(MaxTexture1d)
    else if len == 31 then Some(ConstantMemory)
    else if len == 32 then Some(MaxTexture2d)
    else if len == 34 then
      if code == 41 then Some(MaxTexture3d)
      else if code == 121 then Some(IntegratedGpu)
      else if code == 115 then Some(SurfaceAlign)
      else None
    else if len == 35 then
      if code == 107 then Some(ThreadsPerBlock)
      else if code == 68 then Some(PciIds)
      else None
    else if len == 36 then Some(ConcurrentCopyAndExecution)
    else if len == 37 then Some(DriverRuntimeVersion)
    else if len == 38 then
      if code == 49 then Some(MaxLayeredTexture1d)
      else if code == 50 then Some(MaxLayeredTexture2d)
      else None
    else if len == 39 then
      if code == 107 then Some(SharedMemoryPerBlock)
      else if code == 103 then Some(HostMemoryMapping)
      else None
    else if len == 40 then Some(UnifiedAddressingSupport)
    else if len == 41 then Some(GridDimensions)
    else if len == 42 then
      if code == 114 then Some(CapabilityVersion)
      else if code == 107 then Some(BlockDimensions)
      else None
    else if len == 44 then Some(ThreadsPerMultiprocessor)
    else if len == 45 then Some(RegistersPerBlock)
    else None
  }

  /** Recovers a label from its text: the inverse of LabelText, which
      LabelTextRecovered proves. */
  function LabelOfText(s: string): Option<Label> {
    if |s| == 0 then None
    else LabelOfKey(|s|, if |s| == 38 then s[26] as int else s[|s| - 1] as int)
  }

  /* LabelTextRecovered is proved a few labels at a time, so that each proof
     unfolds only a few of the texts. */
  lemma LabelTextRecovered0(l: Label)
    requires l in {DevicesDetected, DeviceId, DeviceName, DriverRuntimeVersion, CapabilityVersion}
    ensures LabelOfText(LabelText(l)) == Some(l)
  {
  }

  lemma LabelTextRecovered1(l: Label)
    requires l in {GlobalMemory, Multiprocessors, CoresPerMultiprocessor, TotalCores, GpuClockRate}
    ensures LabelOfText(LabelText(l)) == Some(l)
  {
  }

  lemma LabelTextRecovered2(l: Label)
    requires l in {MemoryClock, MemoryBusWidth, L2Cache, MaxTexture1d, MaxTexture2d}
    ensures LabelOfText(LabelText(l)) == Some(l)
  {
  }

  lemma LabelTextRecovered3(l: Label)
    requires l in {MaxTexture3d, MaxLayeredTexture1d, MaxLayeredTexture2d, ConstantMemory}
    ensures LabelOfText(LabelText(l)) == Some(l)
  {
  }

  lemma LabelTextRecovered4(l: Label)
    requires l in {SharedMemoryPerBlock, RegistersPerBlock, Warp, ThreadsPerMultiprocessor}
    ensures LabelOfText(LabelText(l)) == Some(l)
  {
  }

  lemma LabelTextRecovered5(l: Label)
    requires l in {ThreadsPerBlock, BlockDimensions, GridDimensions}
    ensures LabelOfText(LabelText(l)) == Some(l)
  {
  }

  lemma LabelTextRecovered6(l: Label)
    requires l in {MemoryPitch, TextureAlign, ConcurrentCopyAndExecution}
    ensures LabelOfText(LabelText(l)) == Some(l)
  {
  }

  lemma LabelTextRecovered7(l: Label)
    requires l in {RunTimeLimit, IntegratedGpu, HostMemoryMapping, SurfaceAlign}
    ensures LabelOfText(LabelText(l)) == Some(l)
  {
  }

  lemma LabelTextRecovered8(l: Label)
    requires l in {EccSupport, UnifiedAddressingSupport, PciIds, Mode}
    ensures LabelOfText(LabelText(l)) == Some(l)
  {
  }

  /** Every label is recovered from its text. */
  lemma LabelTextRecovered(l: Label)
    ensures LabelOfText(LabelText(l)) == Some(l)
  {
    if l in {DevicesDetected, DeviceId, DeviceName, DriverRuntimeVersion, CapabilityVersion} {
      LabelTextRecovered0(l);
    } else if l in {GlobalMemory, Multiprocessors, CoresPerMultiprocessor, TotalCores, GpuClockRate} {
      LabelTextRecovered1(l);
    } else if l in {MemoryClock, MemoryBusWidth, L2Cache, MaxTexture1d, MaxTexture2d} {
      LabelTextRecovered2(l);
    } else if l in {MaxTexture3d, MaxLayeredTexture1d, MaxLayeredTexture2d, ConstantMemory} {
      LabelTextRecovered3(l);
    } else if l in {SharedMemoryPerBlock, RegistersPerBlock, Warp, ThreadsPerMultiprocessor} {
      LabelTextRecovered4(l);
    } else if l in {ThreadsPerBlock, BlockDimensions, GridDimensions} {
      LabelTextRecovered5(l);
    } else if l in {MemoryPitch, TextureAlign, ConcurrentCopyAndExecution} {
      LabelTextRecovered6(l);
    } else if l in {RunTimeLimit, IntegratedGpu, HostMemoryMapping, SurfaceAlign} {
      LabelTextRecovered7(l);
    } else {
      LabelTextRecovered8(l);
    }
  }

  /** Distinct labels have distinct texts, so the dictionary keyed by label
      text has one entry per label: the merge properties proved over labels
      hold of the script's string-keyed dictionary. */
  lemma LabelTextInjective(a: Label, b: Label)
    ensures LabelText(a) == LabelText(b) ==> a == b
  {
    LabelTextRecovered(a);
    LabelTextRecovered(b);
  }

  /** The attributes getDeviceInfo reads after the core-count
      multiplication, in the order it reads them. */
  const ReadAfterCores: seq<Attr> := [
    ClockRate, MemoryClockRate, GlobalMemoryBusWidth, L2CacheSize,
    MaximumTexture1dWidth, MaximumTexture2dWidth, MaximumTexture2dHeight, MaximumTexture3dWidth,
    MaximumTexture3dHeight, MaximumTexture3dDepth, MaximumTexture1dLayeredWidth, MaximumTexture1dLayeredLayers,
    MaximumSurface2dLayeredWidth, MaximumSurface2dLayeredHeight, MaximumSurface2dLayeredLayers, TotalConstantMemory,
    MaxSharedMemoryPerBlock, MaxRegistersPerBlock, WarpSize, MaxThreadsPerMultiprocessor,
    MaxThreadsPerBlock, MaxBlockDimX, MaxBlockDimY, MaxBlockDimZ,
    MaxGridDimX, MaxGridDimY, MaxGridDimZ, MaxPitch,
    TextureAlignment, ConcurrentKernels, AsyncEngineCount, KernelExecTimeout,
    Integrated, CanMapHostMemory, SurfaceAlignment, EccEnabled,
    UnifiedAddressing, PciBusId, PciDeviceId, ComputeMode
  ]

  /** Every attribute getDeviceInfo reads is present. */
  predicate AllPresent(attrs: map<Attr, int>) {
    forall k: Attr :: k in attrs
  }

  /** The read order covers every attribute: the three read before the core
      count, then the rest. */
  lemma ReadOrderComplete(k: Attr)
    ensures k == ComputeCapabilityMajor || k == ComputeCapabilityMinor || k == MultiprocessorCount
            || k in ReadAfterCores
  {
  }

  /** The first of `names` that `attrs` lacks: the `KeyError` that reading
      them in order raises. */
  function FirstMissing(attrs: map<Attr, int>, names: seq<Attr>): (missing: Option<Attr>)
    ensures missing.None? <==> forall i :: 0 <= i < |names| ==> names[i] in attrs
    ensures missing.Some? ==> missing.value in names && missing.value !in attrs
    ensures missing.Some? ==> exists i :: 0 <= i < |names| && names[i] == missing.value
                                && names[i] !in attrs && forall j :: 0 <= j < i ==> names[j] in attrs
  {
    if names == [] then None
    else if names[0] !in attrs then Some(names[0])
    else
      var rest := FirstMissing(attrs, names[1..]);
      assert forall i :: 1 <= i < |names| ==> names[i] == names[1..][i - 1];
      rest
  }

  lemma AllRead(attrs: map<Attr, int>)
    requires ComputeCapabilityMajor in attrs && ComputeCapabilityMinor in attrs && MultiprocessorCount in attrs
    requires FirstMissing(attrs, ReadAfterCores).None?
    ensures AllPresent(attrs)
  {
    forall k: Attr ensures k in attrs {
      ReadOrderComplete(k);
      if k in ReadAfterCores {
        var i :| 0 <= i < |ReadAfterCores| && ReadAfterCores[i] == k;
      }
    }
  }

  /** The exception getDeviceInfo raises for a device with attributes
      `attrs`, if any: `KeyError` for the first attribute it reads that is
      missing, in the order the source reads them, and `TypeError` when the
      architecture is unlisted, which surfaces right after the multiprocessor
      count is read. */
  function ReadFailure(attrs: map<Attr, int>): (failure: Option<Error>)
    ensures failure.None? ==> AllPresent(attrs)
    ensures failure.None? ==> ConvertSMVer2Cores(attrs[ComputeCapabilityMajor], attrs[ComputeCapabilityMinor]).Some?
  {
    if ComputeCapabilityMajor !in attrs then Some(KeyError(ComputeCapabilityMajor))
    else if ComputeCapabilityMinor !in attrs then Some(KeyError(ComputeCapabilityMinor))
    else if MultiprocessorCount !in attrs then Some(KeyError(MultiprocessorCount))
    else if ConvertSMVer2Cores(attrs[ComputeCapabilityMajor], attrs[ComputeCapabilityMinor]).None? then
      Some(TypeError)
    else match FirstMissing(attrs, ReadAfterCores)
      case Some(key) => Some(KeyError(key))
      case None =>
        AllRead(attrs);
        None
  }

  /** `getDeviceInfo(device_id)`: the exception of the first failing read,
      or else the report. The dictionary is local to the call, so the entries
      assigned before an exception are never seen. */
  function GetDeviceInfo(deviceId: nat, device: Device, runtimeVersion: (int, int), driverVersion: int)
    : Result<Report<Label>, Error>
  {
    var attrs := device.attrs;
    match ReadFailure(attrs)
    case Some(failure) => Err(failure)
    case None =>
      var cores := ConvertSMVer2Cores(attrs[ComputeCapabilityMajor], attrs[ComputeCapabilityMinor]);
      Ok(BuildReport(deviceId, device, cores.value, runtimeVersion, driverVersion))
  }

  /** The report of a device whose attributes are all present and whose
      architecture has `perMp` cores per multiprocessor: one entry per
      device label, each assigned once. */
  function BuildReport(deviceId: nat, device: Device, perMp: nat, runtimeVersion: (int, int), driverVersion: int)
    : Report<Label>
    requires AllPresent(device.attrs)
  {
    map l | l in DeviceLabels :: DeviceField(l, deviceId, device, perMp, runtimeVersion, driverVersion)
  }

  /** The value getDeviceInfo assigns to label `l`. */
  function DeviceField(l: Label, deviceId: nat, device: Device, perMp: nat, runtimeVersion: (int, int),
                       driverVersion: int): Value
    requires l in DeviceLabels
    requires AllPresent(device.attrs)
  {
    var a := device.attrs;
    match l
    case DevicesDetected => assert false; Number(0)
    case DeviceId => Text("Device " + NatToString(deviceId))
    case DeviceName => Text(device.name)
    case DriverRuntimeVersion => Text(VersionText(driverVersion, runtimeVersion))
    case CapabilityVersion => Text(CapabilityText(a[ComputeCapabilityMajor], a[ComputeCapabilityMinor]))
    case GlobalMemory => Text(IntToString(device.totalMemory / MiB) + " MBytes")
    case Multiprocessors => Number(a[MultiprocessorCount])
    case CoresPerMultiprocessor => Number(perMp)
    case TotalCores => Text(IntToString(a[MultiprocessorCount] * perMp) + " CUDA Cores")
    case GpuClockRate => Ratio(a[ClockRate], 1000, " MHz")
    case MemoryClock => Ratio(a[MemoryClockRate], 1000, " MHz")
    case MemoryBusWidth => Text(IntToString(a[GlobalMemoryBusWidth]) + "-bit")
    case L2Cache => Ratio(a[L2CacheSize], MiB, " MBytes")
    case MaxTexture1d => Text("1D = (" + IntToString(a[MaximumTexture1dWidth]) + ")")
    case MaxTexture2d =>
      Text("2D = (" + IntToString(a[MaximumTexture2dWidth]) + ", " + IntToString(a[MaximumTexture2dHeight]) + ")")
    case MaxTexture3d =>
      Text("3D = (" + IntToString(a[MaximumTexture3dWidth]) + ", " + IntToString(a[MaximumTexture3dHeight])
           + ", " + IntToString(a[MaximumTexture3dDepth]) + ")")
    case MaxLayeredTexture1d =>
      Text("1D = (" + IntToString(a[MaximumTexture1dLayeredWidth]) + ") x "
           + IntToString(a[MaximumTexture1dLayeredLayers]))
    case MaxLayeredTexture2d =>
      Text("2D = (" + IntToString(a[MaximumSurface2dLayeredWidth]) + ", "
           + IntToString(a[MaximumSurface2dLayeredHeight]) + ") x "
           + IntToString(a[MaximumSurface2dLayeredLayers]))
    case ConstantMemory => Text(IntToString(a[TotalConstantMemory]) + " Bytes")
    case SharedMemoryPerBlock => Text(IntToString(a[MaxSharedMemoryPerBlock]) + " Bytes")
    case RegistersPerBlock => Number(a[MaxRegistersPerBlock])
    case Warp => Number(a[WarpSize])
    case ThreadsPerMultiprocessor => Number(a[MaxThreadsPerMultiprocessor])
    case ThreadsPerBlock => Number(a[MaxThreadsPerBlock])
    case BlockDimensions =>
      Text(IntToString(a[MaxBlockDimX]) + " x " + IntToString(a[MaxBlockDimY]) + " x "
           + IntToString(a[MaxBlockDimZ]))
    case GridDimensions =>
      Text(IntToString(a[MaxGridDimX]) + " x " + IntToString(a[MaxGridDimY]) + " x "
           + IntToString(a[MaxGridDimZ]))
    case MemoryPitch => Text("Bytes")
    case TextureAlign => Text("Bytes")
    case ConcurrentCopyAndExecution =>
      Text(BoolToString(a[ConcurrentKernels] != 0) + " with " + IntToString(a[AsyncEngineCount])
           + " copy engine(s)")
    case RunTimeLimit => Flag(a[KernelExecTimeout] != 0)
    case IntegratedGpu => Flag(a[Integrated] != 0)
    case HostMemoryMapping => Flag(a[CanMapHostMemory] != 0)
    case SurfaceAlign => Flag(a[SurfaceAlignment] != 0)
    case EccSupport => Flag(a[EccEnabled] != 0)
    case UnifiedAddressingSupport => Flag(a[UnifiedAddressing] != 0)
    case PciIds => Text(IntToString(a[PciBusId]) + " / " + IntToString(a[PciDeviceId]))
    case Mode => Number(a[ComputeMode])
  }

  /** The labels of every device report: all but the device count. */
  const DeviceLabels: set<Label> := {
    DeviceId, DeviceName, DriverRuntimeVersion, CapabilityVersion,
    GlobalMemory, Multiprocessors, CoresPerMultiprocessor, TotalCores,
    GpuClockRate, MemoryClock, MemoryBusWidth, L2Cache,
    MaxTexture1d, MaxTexture2d, MaxTexture3d, MaxLayeredTexture1d,
    MaxLayeredTexture2d, ConstantMemory, SharedMemoryPerBlock, RegistersPerBlock,
    Warp, ThreadsPerMultiprocessor, ThreadsPerBlock, BlockDimensions,
    GridDimensions, MemoryPitch, TextureAlign, ConcurrentCopyAndExecution,
    RunTimeLimit, IntegratedGpu, HostMemoryMapping, SurfaceAlign,
    EccSupport, UnifiedAddressingSupport, PciIds, Mode
  }

  /** Whether getDeviceInfo can produce a report for `device`: every
      attribute it reads is present and the architecture is listed. */
  predicate Reportable(device: Device) {
    && AllPresent(device.attrs)
    && (device.attrs[ComputeCapabilityMajor], device.attrs[ComputeCapabilityMinor]) in CoreCountTable
  }

  /** getDeviceInfo lists its attributes in order; the outcome only depends
      on which of them are present. */
  lemma {:induction false} FirstMissingKeysOnly(a1: map<Attr, int>, a2: map<Attr, int>, names: seq<Attr>)
    requires a1.Keys == a2.Keys
    ensures FirstMissing(a1, names) == FirstMissing(a2, names)
    decreases |names|
  {
    if names != [] {
      FirstMissingKeysOnly(a1, a2, names[1..]);
    }
  }

  /** getDeviceInfo produces a report exactly for a reportable device, and
      that report has the fixed label set; otherwise it raises `KeyError` for
      an attribute it reads that is missing, or `TypeError` for an unlisted
      architecture. */
  lemma DeviceInfoOutcome(deviceId: nat, device: Device, runtimeVersion: (int, int), driverVersion: int)
    ensures var r := GetDeviceInfo(deviceId, device, runtimeVersion, driverVersion);
            && (r.Ok? <==> Reportable(device))
            && (r.Ok? ==> r.value.Keys == DeviceLabels)
            && (r.Err? && r.error.KeyError? ==> r.error.missing !in device.attrs)
            && (r.Err? && r.error.TypeError? ==>
                  (device.attrs[ComputeCapabilityMajor], device.attrs[ComputeCapabilityMinor])
                    !in CoreCountTable)
  {
    var attrs := device.attrs;
    if ComputeCapabilityMajor in attrs && ComputeCapabilityMinor in attrs && MultiprocessorCount in attrs {
      ConvertAgreesWithTable(attrs[ComputeCapabilityMajor], attrs[ComputeCapabilityMinor]);
      var missing := FirstMissing(attrs, ReadAfterCores);
      if missing.None? {
        AllRead(attrs);
      }
    }
  }

  /** The report of a reportable device is built with the table's core
      count for its architecture. */
  lemma DeviceReport(deviceId: nat, device: Device, runtimeVersion: (int, int), driverVersion: int)
    requires Reportable(device)
    ensures var a := device.attrs;
            var perMp := CoreCountTable[(a[ComputeCapabilityMajor], a[ComputeCapabilityMinor])];
            GetDeviceInfo(deviceId, device, runtimeVersion, driverVersion)
              == Ok(BuildReport(deviceId, device, perMp, runtimeVersion, driverVersion))
  {
    DeviceInfoOutcome(deviceId, device, runtimeVersion, driverVersion);
    ConvertAgreesWithTable(device.attrs[ComputeCapabilityMajor], device.attrs[ComputeCapabilityMinor]);
  }

  /** The core-count fields of a built report. */
  lemma ReportCoreFields(deviceId: nat, device: Device, perMp: nat, runtimeVersion: (int, int), driverVersion: int)
    requires AllPresent(device.attrs)
    ensures var r := BuildReport(deviceId, device, perMp, runtimeVersion, driverVersion);
            var a := device.attrs;
            && r[CoresPerMultiprocessor] == Number(perMp)
            && r[Multiprocessors] == Number(a[MultiprocessorCount])
            && r[TotalCores] == Text(IntToString(a[MultiprocessorCount] * perMp) + " CUDA Cores")
            && r[CapabilityVersion] == Text(CapabilityText(a[ComputeCapabilityMajor], a[ComputeCapabilityMinor]))
  {
  }

  /** For a listed architecture the report carries the table's cores per
      multiprocessor, the multiprocessor count, that count times the cores
      per multiprocessor as the total, and the capability as
      `major.minor`. */
  lemma CoreCountFields(deviceId: nat, device: Device, runtimeVersion: (int, int), driverVersion: int)
    requires Reportable(device)
    ensures var r := GetDeviceInfo(deviceId, device, runtimeVersion, driverVersion);
            var a := device.attrs;
            var perMp := CoreCountTable[(a[ComputeCapabilityMajor], a[ComputeCapabilityMinor])];
            && r.Ok?
            && r.value[CoresPerMultiprocessor] == Number(perMp)
            && r.value[Multiprocessors] == Number(a[MultiprocessorCount])
            && r.value[TotalCores] == Text(IntToString(a[MultiprocessorCount] * perMp) + " CUDA Cores")
            && r.value[CapabilityVersion]
                 == Text(CapabilityText(a[ComputeCapabilityMajor], a[ComputeCapabilityMinor]))
  {
    var a := device.attrs;
    var perMp := CoreCountTable[(a[ComputeCapabilityMajor], a[ComputeCapabilityMinor])];
    DeviceReport(deviceId, device, runtimeVersion, driverVersion);
    ReportCoreFields(deviceId, device, perMp, runtimeVersion, driverVersion);
  }

  /** An unlisted architecture makes the core multiplication fail: the
      device yields `TypeError` (or the `KeyError` of a missing
      multiprocessor count, which is read first) instead of a report. */
  lemma UnknownArchitectureNoReport(deviceId: nat, device: Device, runtimeVersion: (int, int), driverVersion: int)
    requires ComputeCapabilityMajor in device.attrs && ComputeCapabilityMinor in device.attrs
    requires (device.attrs[ComputeCapabilityMajor], device.attrs[ComputeCapabilityMinor]) !in CoreCountTable
    ensures GetDeviceInfo(deviceId, device, runtimeVersion, driverVersion)
              == Err(if MultiprocessorCount in device.attrs then TypeError else KeyError(MultiprocessorCount))
  {
    UnknownArchitecture(device.attrs[ComputeCapabilityMajor], device.attrs[ComputeCapabilityMinor]);
  }

  /** The pitch and texture-alignment fields of a built report. */
  lemma ReportPitchFields(deviceId: nat, device: Device, perMp: nat, runtimeVersion: (int, int), driverVersion: int)
    requires AllPresent(device.attrs)
    ensures var r := BuildReport(deviceId, device, perMp, runtimeVersion, driverVersion);
            r[MemoryPitch] == Text("Bytes") && r[TextureAlign] == Text("Bytes")
  {
  }

  /** The pitch and texture-alignment labels always read "Bytes": their
      format string has no placeholder. */
  lemma PitchAndAlignmentText(deviceId: nat, device: Device, runtimeVersion: (int, int), driverVersion: int)
    requires Reportable(device)
    ensures var r := GetDeviceInfo(deviceId, device, runtimeVersion, driverVersion);
            r.Ok? && r.value[MemoryPitch] == Text("Bytes") && r.value[TextureAlign] == Text("Bytes")
  {
    var a := device.attrs;
    var perMp := CoreCountTable[(a[ComputeCapabilityMajor], a[ComputeCapabilityMinor])];
    DeviceReport(deviceId, device, runtimeVersion, driverVersion);
    ReportPitchFields(deviceId, device, perMp, runtimeVersion, driverVersion);
  }

  /** Which read fails depends only on which attributes are present and on
      the architecture. */
  lemma ReadFailureKeysOnly(a1: map<Attr, int>, a2: map<Attr, int>)
    requires a1.Keys == a2.Keys
    requires ComputeCapabilityMajor in a1 ==> a1[ComputeCapabilityMajor] == a2[ComputeCapabilityMajor]
    requires ComputeCapabilityMinor in a1 ==> a1[ComputeCapabilityMinor] == a2[ComputeCapabilityMinor]
    ensures ReadFailure(a1) == ReadFailure(a2)
  {
    FirstMissingKeysOnly(a1, a2, ReadAfterCores);
  }

  /** None of the identity, version and core-count fields reads the pitch or
      the texture alignment. */
  lemma PitchIgnoredByIdentity(l: Label, deviceId: nat, device: Device, perMp: nat,
                          runtimeVersion: (int, int), driverVersion: int, pitch: int, alignment: int)
    requires l in {DeviceId, DeviceName, DriverRuntimeVersion, CapabilityVersion, GlobalMemory,
                Multiprocessors, CoresPerMultiprocessor, TotalCores, GpuClockRate}
    requires AllPresent(device.attrs)
    ensures var changed := device.(attrs := device.attrs[MaxPitch := pitch][TextureAlignment := alignment]);
            DeviceField(l, deviceId, changed, perMp, runtimeVersion, driverVersion)
              == DeviceField(l, deviceId, device, perMp, runtimeVersion, driverVersion)
  {
  }

  /** None of the memory and texture fields reads the pitch or the texture
      alignment. */
  lemma PitchIgnoredByMemoryAndTextures(l: Label, deviceId: nat, device: Device, perMp: nat,
                          runtimeVersion: (int, int), driverVersion: int, pitch: int, alignment: int)
    requires l in {MemoryClock, MemoryBusWidth, L2Cache, MaxTexture1d, MaxTexture2d,
                MaxTexture3d, MaxLayeredTexture1d, MaxLayeredTexture2d, ConstantMemory}
    requires AllPresent(device.attrs)
    ensures var changed := device.(attrs := device.attrs[MaxPitch := pitch][TextureAlignment := alignment]);
            DeviceField(l, deviceId, changed, perMp, runtimeVersion, driverVersion)
              == DeviceField(l, deviceId, device, perMp, runtimeVersion, driverVersion)
  {
  }

  /** None of the block, thread and grid fields, nor the two "Bytes" fields,
      reads the pitch or the texture alignment. */
  lemma PitchIgnoredByThreadLimits(l: Label, deviceId: nat, device: Device, perMp: nat,
                          runtimeVersion: (int, int), driverVersion: int, pitch: int, alignment: int)
    requires l in {SharedMemoryPerBlock, RegistersPerBlock, Warp, ThreadsPerMultiprocessor,
                ThreadsPerBlock, BlockDimensions, GridDimensions, MemoryPitch, TextureAlign}
    requires AllPresent(device.attrs)
    ensures var changed := device.(attrs := device.attrs[MaxPitch := pitch][TextureAlignment := alignment]);
            DeviceField(l, deviceId, changed, perMp, runtimeVersion, driverVersion)
              == DeviceField(l, deviceId, device, perMp, runtimeVersion, driverVersion)
  {
  }

  /** None of the feature flags, the PCI ids and the compute mode reads the
      pitch or the texture alignment. */
  lemma PitchIgnoredByFeatures(l: Label, deviceId: nat, device: Device, perMp: nat,
                          runtimeVersion: (int, int), driverVersion: int, pitch: int, alignment: int)
    requires l in {ConcurrentCopyAndExecution, RunTimeLimit, IntegratedGpu, HostMemoryMapping,
                SurfaceAlign, EccSupport, UnifiedAddressingSupport, PciIds, Mode}
    requires AllPresent(device.attrs)
    ensures var changed := device.(attrs := device.attrs[MaxPitch := pitch][TextureAlignment := alignment]);
            DeviceField(l, deviceId, changed, perMp, runtimeVersion, driverVersion)
              == DeviceField(l, deviceId, device, perMp, runtimeVersion, driverVersion)
  {
  }

  lemma BuildReportIgnoresPitch(deviceId: nat, device: Device, perMp: nat, runtimeVersion: (int, int),
                                driverVersion: int, pitch: int, alignment: int)
    requires AllPresent(device.attrs)
    ensures var changed := device.(attrs := device.attrs[MaxPitch := pitch][TextureAlignment := alignment]);
            BuildReport(deviceId, changed, perMp, runtimeVersion, driverVersion)
              == BuildReport(deviceId, device, perMp, runtimeVersion, driverVersion)
  {
    var changed := device.(attrs := device.attrs[MaxPitch := pitch][TextureAlignment := alignment]);
    forall l | l in DeviceLabels
      ensures DeviceField(l, deviceId, changed, perMp, runtimeVersion, driverVersion)
              == DeviceField(l, deviceId, device, perMp, runtimeVersion, driverVersion)
    {
      if l in {DeviceId, DeviceName, DriverRuntimeVersion, CapabilityVersion, GlobalMemory,
               Multiprocessors, CoresPerMultiprocessor, TotalCores, GpuClockRate} {
        PitchIgnoredByIdentity(l, deviceId, device, perMp, runtimeVersion, driverVersion, pitch, alignment);
      } else if l in {MemoryClock, MemoryBusWidth, L2Cache, MaxTexture1d, MaxTexture2d,
                      MaxTexture3d, MaxLayeredTexture1d, MaxLayeredTexture2d, ConstantMemory} {
        PitchIgnoredByMemoryAndTextures(l, deviceId, device, perMp, runtimeVersion, driverVersion, pitch, alignment);
      } else if l in {SharedMemoryPerBlock, RegistersPerBlock, Warp, ThreadsPerMultiprocessor,
                      ThreadsPerBlock, BlockDimensions, GridDimensions, MemoryPitch, TextureAlign} {
        PitchIgnoredByThreadLimits(l, deviceId, device, perMp, runtimeVersion, driverVersion, pitch, alignment);
      } else {
        PitchIgnoredByFeatures(l, deviceId, device, perMp, runtimeVersion, driverVersion, pitch, alignment);
      }
    }
  }

  /** The pitch and texture-alignment values are read, and must exist, but
      never reach the report: changing them changes nothing. */
  lemma PitchAndAlignmentDropped(deviceId: nat, device: Device, runtimeVersion: (int, int), driverVersion: int,
                                 pitch: int, alignment: int)
    requires MaxPitch in device.attrs && TextureAlignment in device.attrs
    ensures var changed := device.(attrs := device.attrs[MaxPitch := pitch][TextureAlignment := alignment]);
            GetDeviceInfo(deviceId, changed, runtimeVersion, driverVersion)
              == GetDeviceInfo(deviceId, device, runtimeVersion, driverVersion)
  {
    var changed := device.(attrs := device.attrs[MaxPitch := pitch][TextureAlignment := alignment]);
    ReadFailureKeysOnly(changed.attrs, device.attrs);
    if ReadFailure(device.attrs).None? {
      var perMp := ConvertSMVer2Cores(device.attrs[ComputeCapabilityMajor], device.attrs[ComputeCapabilityMinor]).value;
      BuildReportIgnoresPitch(deviceId, device, perMp, runtimeVersion, driverVersion, pitch, alignment);
    }
  }

  // ---------------------------------------------------------------------
  // cudaInfo
  // ---------------------------------------------------------------------

  /** The dictionary before the loop: only the device count. */
  function InitialReport(deviceCount: nat): Report<Label> {
    map[DevicesDetected := Text(NatToString(deviceCount))]
  }

  /** What getDeviceInfo gives for each device id in turn. */
  function DeviceOutcomes(devices: seq<Device>, runtimeVersion: (int, int), driverVersion: int)
    : (outcomes: seq<Result<Report<Label>, Error>>)
    ensures |outcomes| == |devices|
    ensures forall i :: 0 <= i < |devices| ==> outcomes[i] == GetDeviceInfo(i, devices[i], runtimeVersion, driverVersion)
  {
    seq(|devices|, i requires 0 <= i < |devices| => GetDeviceInfo(i, devices[i], runtimeVersion, driverVersion))
  }

  /** The value of `cudaInfo()`: the device count, then every device's
      report merged in device order, or the first exception raised. */
  function CudaReport(devices: seq<Device>, runtimeVersion: (int, int), driverVersion: int)
    : Result<Report<Label>, Error>
  {
    MergeAll(InitialReport(|devices|), DeviceOutcomes(devices, runtimeVersion, driverVersion))
  }

  /** `cudaInfo()`: the device count, then every device's report copied key
      by key into one dictionary; an exception from any device ends it. */
  method CudaInfo(devices: seq<Device>, runtimeVersion: (int, int), driverVersion: int)
    returns (result: Result<Report<Label>, Error>)
    ensures result == CudaReport(devices, runtimeVersion, driverVersion)
  {
    ghost var outcomes := DeviceOutcomes(devices, runtimeVersion, driverVersion);
    var output := InitialReport(|devices|);
    var deviceId := 0;
    while deviceId < |devices|
      invariant deviceId <= |devices|
      invariant MergeAll(InitialReport(|devices|), outcomes[..deviceId]) == Ok(output)
    {
      var info := GetDeviceInfo(deviceId, devices[deviceId], runtimeVersion, driverVersion);
      assert info == outcomes[deviceId];
      if info.Err? {
        MergeAllStops(InitialReport(|devices|), outcomes, deviceId);
        return info;
      }
      MergeAllStep(InitialReport(|devices|), outcomes, deviceId, output);
      output := Update(output, info.value);
      deviceId := deviceId + 1;
    }
    assert outcomes[..deviceId] == outcomes;
    return Ok(output);
  }

  /** `cudaInfo()` returns a dictionary exactly when every device reports,
      and otherwise raises the exception of the first device that does not. */
  lemma CudaReportOutcome(devices: seq<Device>, runtimeVersion: (int, int), driverVersion: int)
    ensures var r := CudaReport(devices, runtimeVersion, driverVersion);
            && (r.Ok? <==> forall i :: 0 <= i < |devices| ==> Reportable(devices[i]))
            && (r.Err? ==> exists i :: 0 <= i < |devices| && !Reportable(devices[i])
                             && (forall j :: 0 <= j < i ==> Reportable(devices[j]))
                             && GetDeviceInfo(i, devices[i], runtimeVersion, driverVersion) == Err(r.error))
  {
    var outcomes := DeviceOutcomes(devices, runtimeVersion, driverVersion);
    MergeAllOutcome(InitialReport(|devices|), outcomes);
    forall i | 0 <= i < |devices|
      ensures outcomes[i].Ok? <==> Reportable(devices[i])
    {
      DeviceInfoOutcome(i, devices[i], runtimeVersion, driverVersion);
    }
  }

  /** When `cudaInfo()` returns a dictionary, every device produced a report
      with the device labels. */
  lemma DevicesReported(devices: seq<Device>, runtimeVersion: (int, int), driverVersion: int)
    requires CudaReport(devices, runtimeVersion, driverVersion).Ok?
    ensures var outcomes := DeviceOutcomes(devices, runtimeVersion, driverVersion);
            forall i :: 0 <= i < |outcomes| ==> outcomes[i].Ok? && outcomes[i].value.Keys == DeviceLabels
  {
    var outcomes := DeviceOutcomes(devices, runtimeVersion, driverVersion);
    MergeAllOutcome(InitialReport(|devices|), outcomes);
    forall i | 0 <= i < |outcomes|
      ensures outcomes[i].Ok? && outcomes[i].value.Keys == DeviceLabels
    {
      DeviceInfoOutcome(i, devices[i], runtimeVersion, driverVersion);
    }
  }

  /** Every device writes the same labels, so the dictionary `cudaInfo()`
      returns is the device count plus exactly the last device's report;
      with no devices the count is the only entry. */
  lemma LastDeviceWins(devices: seq<Device>, runtimeVersion: (int, int), driverVersion: int)
    requires CudaReport(devices, runtimeVersion, driverVersion).Ok?
    ensures var output := CudaReport(devices, runtimeVersion, driverVersion).value;
            && (|devices| == 0 ==> output == InitialReport(0))
            && (|devices| > 0 ==>
                  var last := GetDeviceInfo(|devices| - 1, devices[|devices| - 1], runtimeVersion, driverVersion);
                  last.Ok? && output == InitialReport(|devices|) + last.value)
  {
    DevicesReported(devices, runtimeVersion, driverVersion);
    MergeAllLastWins(InitialReport(|devices|), DeviceOutcomes(devices, runtimeVersion, driverVersion), DeviceLabels);
  }

  /** The device-count entry is never overwritten by a device's report, and
      the dictionary holds the count plus the device labels (none of them
      when there is no device). */
  lemma DeviceCountSurvives(devices: seq<Device>, runtimeVersion: (int, int), driverVersion: int)
    requires CudaReport(devices, runtimeVersion, driverVersion).Ok?
    ensures DevicesDetected in CudaReport(devices, runtimeVersion, driverVersion).value
    ensures CudaReport(devices, runtimeVersion, driverVersion).value[DevicesDetected] == Text(NatToString(|devices|))
    ensures CudaReport(devices, runtimeVersion, driverVersion).value.Keys
              == {DevicesDetected} + (if |devices| == 0 then {} else DeviceLabels)
  {
    DevicesReported(devices, runtimeVersion, driverVersion);
    CountNotDeviceLabel();
    MergeAllKeys(InitialReport(|devices|), DeviceOutcomes(devices, runtimeVersion, driverVersion), DeviceLabels);
  }

  /** The device-count label is not one a device writes. */
  lemma CountNotDeviceLabel()
    ensures DevicesDetected !in DeviceLabels
  {
  }
}
