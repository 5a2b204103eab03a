/** OpenCLInfo.py: the per-device report of `getDeviceInfo` and the nested
    platform/device loop of `openclInfo` that merges those reports into one
    dictionary. The pyopencl platform and device objects are given as
    records; `cl.get_platforms()` is the sequence `platforms`. */
module OpenClInfo {
  import opened Wrappers
  import opened Decimal
  import opened Report

  /** The device properties getDeviceInfo reads. `typeName` stands for
      `cl.device_type.to_string(device.type)`. */
  datatype ClDevice = ClDevice(
    name: string, typeName: string, version: string, driverVersion: string, vendor: string,
    available: int, addressBits: int, maxComputeUnits: int, maxClockFrequency: int,
    globalMemSize: int, globalMemCacheSize: int, localMemSize: int, maxMemAllocSize: int,
    maxConstantArgs: int, maxWorkGroupSize: int, maxWorkItemDimensions: int,
    maxWorkItemSizes: seq<int>, imageSupport: int,
    image2dMaxHeight: int, image2dMaxWidth: int,
    image3dMaxDepth: int, image3dMaxHeight: int, image3dMaxWidth: int)

  /** A platform: its name, vendor and version, and `get_devices()`. */
  datatype ClPlatform = ClPlatform(name: string, vendor: string, version: string, devices: seq<ClDevice>)

  /** The device properties whose labels only device reports write. */
  datatype ClProperty =
    | DeviceVersion | DriverVersion | Available | AddressBits | MaxComputeUnits
    | MaxClockFrequency | GlobalMemory | GlobalCacheMemory | LocalMemory | MaxAllocableMemory
    | MaxConstantArgs | MaxWorkGroupSize | MaxWorkItemDimensions | MaxWorkItemSize
    | ImageSupport | MaxImage2dSize | MaxImage3dSize

  /** The labels of the OpenCL report; `DeviceEntry(i)` is the key
      `'Device {:d}'.format(i)`. `'Vendor'` is written both by platforms and
      by devices. LabelText gives each label's text. */
  datatype ClLabel =
    | PlatformsDetected | Platform | Vendor | Version | NumberOfDevices
    | DeviceEntry(index: nat)
    | Property(property: ClProperty)

  function LabelText(l: ClLabel): string {
    match l
    case PlatformsDetected => "Platform(s) detected"
    case Platform => "Platform"
    case Vendor => "Vendor"
    case Version => "Version"
    case NumberOfDevices => "Number of devices"
    case DeviceEntry(i) => "Device " + NatToString(i)
    case Property(p) => PropertyText(p)
  }

  function PropertyText(p: ClProperty): string {
    match p
    case DeviceVersion => "Device version"
    case DriverVersion => "Driver version"
    case Available => "Available"
    case AddressBits => "Address bits"
    case MaxComputeUnits => "Max compute units"
    case MaxClockFrequency => "Max clock frequency"
    case GlobalMemory => "Global memory"
    case GlobalCacheMemory => "Global cache memory"
    case LocalMemory => "Local memory"
    case MaxAllocableMemory => "Max allocable memory"
    case MaxConstantArgs => "Max constant args"
    case MaxWorkGroupSize => "Max work group siz"
    case MaxWorkItemDimensions => "Max work item dimensions"
    case MaxWorkItemSize => "Max work item size"
    case ImageSupport => "Image support"
    case MaxImage2dSize => "Max Image2D size (H x W)"
    case MaxImage3dSize => "Max Image3D size (D x H x W)"
  }

  /** Two device entries share a key exactly when their indices are equal:
      this is where devices of different platforms collide. */
  lemma DeviceEntryText(i: nat, j: nat)
    ensures LabelText(DeviceEntry(i)) == LabelText(DeviceEntry(j)) <==> i == j
  {
    if LabelText(DeviceEntry(i)) == LabelText(DeviceEntry(j)) {
      var si, sj := NatToString(i), NatToString(j);
      assert si == LabelText(DeviceEntry(i))[7..];
      assert sj == LabelText(DeviceEntry(j))[7..];
      NatToStringRoundTrip(i);
      NatToStringRoundTrip(j);
    }
  }

  /** A device entry's text is `Device ` followed by a decimal digit. */
  lemma DeviceEntryShape(i: nat)
    ensures |LabelText(DeviceEntry(i))| >= 8
    ensures LabelText(DeviceEntry(i))[..7] == "Device " && IsDigit(LabelText(DeviceEntry(i))[7])
  {
    assert LabelText(DeviceEntry(i))[7] == NatToString(i)[0];
  }

  /** No property shares its text with another property. */
  lemma PropertyTextInjective(p: ClProperty, q: ClProperty)
    ensures PropertyText(p) == PropertyText(q) ==> p == q
  {
  }

  /** A platform header label shares its text with no other label that is
      not a device entry. */
  lemma HeaderTextDistinct(a: ClLabel, b: ClLabel)
    requires !a.DeviceEntry? && !a.Property? && !b.DeviceEntry?
    ensures LabelText(a) == LabelText(b) ==> a == b
  {
  }

  /** No label other than a device entry has a decimal digit after a
      seven-character prefix, so none reads as `Device ` and a number. */
  lemma NonEntryShape(l: ClLabel)
    requires !l.DeviceEntry?
    ensures |LabelText(l)| < 8 || !IsDigit(LabelText(l)[7])
  {
  }

  /** Distinct labels have distinct texts, so the dictionary keyed by label
      text has one entry per label: the merge properties proved over labels
      hold of the script's string-keyed dictionary. */
  lemma {:induction false} LabelTextInjective(a: ClLabel, b: ClLabel)
    ensures LabelText(a) == LabelText(b) ==> a == b
  {
    if LabelText(a) == LabelText(b) {
      if a.DeviceEntry? && b.DeviceEntry? {
        DeviceEntryText(a.index, b.index);
      } else if a.DeviceEntry? {
        DeviceEntryShape(a.index);
        NonEntryShape(b);
      } else if b.DeviceEntry? {
        DeviceEntryShape(b.index);
        NonEntryShape(a);
      } else if a.Property? && b.Property? {
        PropertyTextInjective(a.property, b.property);
      } else if a.Property? {
        HeaderTextDistinct(b, a);
      } else {
        HeaderTextDistinct(a, b);
      }
    }
  }

  /** `int(x / d)` for a power of two `d`: the quotient of an exact float
      division, truncated toward zero. */
  function TruncDiv(x: int, d: nat): (q: int)
    requires d > 0
    ensures x >= 0 ==> d * q <= x < d * q + d
    ensures x < 0 ==> d * q - d < x <= d * q
  {
    if x >= 0 then x / d else -((-x) / d)
  }

  /** One label per device property. */
  const PropertyLabels: set<ClLabel> := set p: ClProperty :: Property(p)

  /** The keys of the report on device `deviceId` of a platform. */
  function DeviceLabelsFor(deviceId: nat): set<ClLabel> {
    {DeviceEntry(deviceId), Vendor} + PropertyLabels
  }

  /** The value getDeviceInfo stores under a property label. */
  function PropertyValue(p: ClProperty, device: ClDevice): Value {
    match p
    case DeviceVersion => Text(device.version)
    case DriverVersion => Text(device.driverVersion)
    case Available => Flag(device.available != 0)
    case AddressBits => Number(device.addressBits)
    case MaxComputeUnits => Number(device.maxComputeUnits)
    case MaxClockFrequency => Text(IntToString(device.maxClockFrequency) + " MHz")
    case GlobalMemory => Text(IntToString(TruncDiv(device.globalMemSize, MiB)) + " MB")
    case GlobalCacheMemory => Text(IntToString(device.globalMemCacheSize) + " B")
    case LocalMemory => Text(IntToString(TruncDiv(device.localMemSize, 1024)) + " KB")
    case MaxAllocableMemory => Text(IntToString(TruncDiv(device.maxMemAllocSize, MiB)) + " MB")
    case MaxConstantArgs => Number(device.maxConstantArgs)
    case MaxWorkGroupSize => Number(device.maxWorkGroupSize)
    case MaxWorkItemDimensions => Number(device.maxWorkItemDimensions)
    case MaxWorkItemSize => Sizes(device.maxWorkItemSizes)
    case ImageSupport => Flag(device.imageSupport != 0)
    case MaxImage2dSize => Text(IntToString(device.image2dMaxHeight) + "x" + IntToString(device.image2dMaxWidth))
    case MaxImage3dSize =>
      Text(IntToString(device.image3dMaxDepth) + "x" + IntToString(device.image3dMaxHeight)
           + "x" + IntToString(device.image3dMaxWidth))
  }

  /** The value of a device's `Device <i>` entry: its name and its type. */
  function EntryValue(device: ClDevice): Value {
    Text(device.name + " - [Type: " + device.typeName + "]")
  }

  /** The value getDeviceInfo stores under the label `l` for `device`. */
  function DeviceField(l: ClLabel, device: ClDevice): Value
    requires l.DeviceEntry? || l == Vendor || l.Property?
  {
    match l
    case DeviceEntry(_) => EntryValue(device)
    case Vendor => Text(device.vendor)
    case Property(p) => PropertyValue(p, device)
    case PlatformsDetected => assert false; Number(0)
    case Platform => assert false; Number(0)
    case Version => assert false; Number(0)
    case NumberOfDevices => assert false; Number(0)
  }

  /** `getDeviceInfo(platform_id, device_id)`: the report on one device. */
  function GetDeviceInfo(platforms: seq<ClPlatform>, platformId: nat, deviceId: nat): Report<ClLabel>
    requires platformId < |platforms| && deviceId < |platforms[platformId].devices|
  {
    var device := platforms[platformId].devices[deviceId];
    map l | l in DeviceLabelsFor(deviceId) :: DeviceField(l, device)
  }

  /** None of the platform-level labels is a device label. */
  lemma DeviceLabelFacts(deviceId: nat)
    ensures PlatformsDetected !in DeviceLabelsFor(deviceId)
    ensures Platform !in DeviceLabelsFor(deviceId)
    ensures Version !in DeviceLabelsFor(deviceId)
    ensures NumberOfDevices !in DeviceLabelsFor(deviceId)
  {
  }

  /** A device report holds no other device's entry. */
  lemma OtherEntryAbsent(deviceId: nat, j: nat)
    requires j != deviceId
    ensures DeviceEntry(j) !in DeviceLabelsFor(deviceId)
  {
  }

  /** Every device report has the same nineteen labels: its own
      `Device <i>` entry, `'Vendor'` and one label per device property; none
      of them is a platform-level label. */
  lemma DeviceReportLabels(platforms: seq<ClPlatform>, platformId: nat, deviceId: nat)
    requires platformId < |platforms| && deviceId < |platforms[platformId].devices|
    ensures var info := GetDeviceInfo(platforms, platformId, deviceId);
            && info.Keys == {DeviceEntry(deviceId), Vendor} + PropertyLabels
            && PlatformsDetected !in info && Platform !in info && Version !in info && NumberOfDevices !in info
  {
    DeviceLabelFacts(deviceId);
  }

  /** The entry of a device report holds the device's name and type, and
      `'Vendor'` its vendor. */
  lemma DeviceReportValues(platforms: seq<ClPlatform>, platformId: nat, deviceId: nat)
    requires platformId < |platforms| && deviceId < |platforms[platformId].devices|
    ensures var info := GetDeviceInfo(platforms, platformId, deviceId);
            var device := platforms[platformId].devices[deviceId];
            && DeviceEntry(deviceId) in info && Vendor in info
            && info[DeviceEntry(deviceId)] == EntryValue(device)
            && info[Vendor] == Text(device.vendor)
  {
  }

  /** Each property label of a device report holds the property's value. */
  lemma DevicePropertyValue(platforms: seq<ClPlatform>, platformId: nat, deviceId: nat, p: ClProperty)
    requires platformId < |platforms| && deviceId < |platforms[platformId].devices|
    ensures var info := GetDeviceInfo(platforms, platformId, deviceId);
            && Property(p) in info
            && info[Property(p)] == PropertyValue(p, platforms[platformId].devices[deviceId])
  {
    assert Property(p) in PropertyLabels;
  }

  /** What a property label shows of a device, up to the rendering's
      precision: the field itself for strings, ints and lists, whether it is
      non-zero for flags, and the memory sizes only in whole MB or KB. */
  predicate SameReading(p: ClProperty, d1: ClDevice, d2: ClDevice) {
    match p
    case DeviceVersion => d1.version == d2.version
    case DriverVersion => d1.driverVersion == d2.driverVersion
    case Available => (d1.available != 0) == (d2.available != 0)
    case AddressBits => d1.addressBits == d2.addressBits
    case MaxComputeUnits => d1.maxComputeUnits == d2.maxComputeUnits
    case MaxClockFrequency => d1.maxClockFrequency == d2.maxClockFrequency
    case GlobalMemory => TruncDiv(d1.globalMemSize, MiB) == TruncDiv(d2.globalMemSize, MiB)
    case GlobalCacheMemory => d1.globalMemCacheSize == d2.globalMemCacheSize
    case LocalMemory => TruncDiv(d1.localMemSize, 1024) == TruncDiv(d2.localMemSize, 1024)
    case MaxAllocableMemory => TruncDiv(d1.maxMemAllocSize, MiB) == TruncDiv(d2.maxMemAllocSize, MiB)
    case MaxConstantArgs => d1.maxConstantArgs == d2.maxConstantArgs
    case MaxWorkGroupSize => d1.maxWorkGroupSize == d2.maxWorkGroupSize
    case MaxWorkItemDimensions => d1.maxWorkItemDimensions == d2.maxWorkItemDimensions
    case MaxWorkItemSize => d1.maxWorkItemSizes == d2.maxWorkItemSizes
    case ImageSupport => (d1.imageSupport != 0) == (d2.imageSupport != 0)
    case MaxImage2dSize => d1.image2dMaxHeight == d2.image2dMaxHeight && d1.image2dMaxWidth == d2.image2dMaxWidth
    case MaxImage3dSize =>
      && d1.image3dMaxDepth == d2.image3dMaxDepth
      && d1.image3dMaxHeight == d2.image3dMaxHeight
      && d1.image3dMaxWidth == d2.image3dMaxWidth
  }

  /** `h + "x" + w` names its two ints uniquely. */
  lemma PairTextInjective(h1: int, w1: int, h2: int, w2: int)
    ensures IntToString(h1) + "x" + IntToString(w1) == IntToString(h2) + "x" + IntToString(w2)
            <==> h1 == h2 && w1 == w2
  {
    if IntToString(h1) + "x" + IntToString(w1) == IntToString(h2) + "x" + IntToString(w2) {
      IntToStringChars(h1, 'x');
      IntToStringChars(h2, 'x');
      SplitAtFirst(IntToString(h1), IntToString(w1), IntToString(h2), IntToString(w2), 'x');
      IntToStringInjective(h1, h2);
      IntToStringInjective(w1, w2);
    }
  }

  /** `d + "x" + h + "x" + w` names its three ints uniquely. */
  lemma TripleTextInjective(d1: int, h1: int, w1: int, d2: int, h2: int, w2: int)
    ensures IntToString(d1) + "x" + IntToString(h1) + "x" + IntToString(w1)
              == IntToString(d2) + "x" + IntToString(h2) + "x" + IntToString(w2)
            <==> d1 == d2 && h1 == h2 && w1 == w2
  {
    var rest1 := IntToString(h1) + "x" + IntToString(w1);
    var rest2 := IntToString(h2) + "x" + IntToString(w2);
    assert IntToString(d1) + "x" + IntToString(h1) + "x" + IntToString(w1) == IntToString(d1) + "x" + rest1;
    assert IntToString(d2) + "x" + IntToString(h2) + "x" + IntToString(w2) == IntToString(d2) + "x" + rest2;
    if IntToString(d1) + "x" + rest1 == IntToString(d2) + "x" + rest2 {
      IntToStringChars(d1, 'x');
      IntToStringChars(d2, 'x');
      SplitAtFirst(IntToString(d1), rest1, IntToString(d2), rest2, 'x');
      IntToStringInjective(d1, d2);
      PairTextInjective(h1, w1, h2, w2);
    }
  }

  /** Two devices show the same value under a property label exactly when
      they have the same reading of that property: the rendering loses only
      the sub-unit part of the memory sizes and the magnitude of the flags. */
  lemma PropertyValueDetermines(p: ClProperty, d1: ClDevice, d2: ClDevice)
    ensures PropertyValue(p, d1) == PropertyValue(p, d2) <==> SameReading(p, d1, d2)
  {
    match p
    case MaxClockFrequency => UnitTextInjective(d1.maxClockFrequency, d2.maxClockFrequency, " MHz");
    case GlobalMemory =>
      UnitTextInjective(TruncDiv(d1.globalMemSize, MiB), TruncDiv(d2.globalMemSize, MiB), " MB");
    case GlobalCacheMemory => UnitTextInjective(d1.globalMemCacheSize, d2.globalMemCacheSize, " B");
    case LocalMemory =>
      UnitTextInjective(TruncDiv(d1.localMemSize, 1024), TruncDiv(d2.localMemSize, 1024), " KB");
    case MaxAllocableMemory =>
      UnitTextInjective(TruncDiv(d1.maxMemAllocSize, MiB), TruncDiv(d2.maxMemAllocSize, MiB), " MB");
    case MaxImage2dSize =>
      PairTextInjective(d1.image2dMaxHeight, d1.image2dMaxWidth, d2.image2dMaxHeight, d2.image2dMaxWidth);
    case MaxImage3dSize =>
      TripleTextInjective(d1.image3dMaxDepth, d1.image3dMaxHeight, d1.image3dMaxWidth,
                          d2.image3dMaxDepth, d2.image3dMaxHeight, d2.image3dMaxWidth);
    case _ =>
  }

  /** Two devices with the same index get the same report exactly when they
      have the same entry text, the same vendor and the same reading of every
      property: the report keeps everything it shows and nothing else. */
  lemma ReportDeterminesDevice(platforms: seq<ClPlatform>, platformId: nat,
                               platforms': seq<ClPlatform>, platformId': nat, deviceId: nat)
    requires platformId < |platforms| && deviceId < |platforms[platformId].devices|
    requires platformId' < |platforms'| && deviceId < |platforms'[platformId'].devices|
    ensures var d1 := platforms[platformId].devices[deviceId];
            var d2 := platforms'[platformId'].devices[deviceId];
            GetDeviceInfo(platforms, platformId, deviceId) == GetDeviceInfo(platforms', platformId', deviceId)
            <==> EntryValue(d1) == EntryValue(d2) && d1.vendor == d2.vendor
                 && forall p: ClProperty :: SameReading(p, d1, d2)
  {
    var d1 := platforms[platformId].devices[deviceId];
    var d2 := platforms'[platformId'].devices[deviceId];
    var r1 := GetDeviceInfo(platforms, platformId, deviceId);
    var r2 := GetDeviceInfo(platforms', platformId', deviceId);
    DeviceReportValues(platforms, platformId, deviceId);
    DeviceReportValues(platforms', platformId', deviceId);
    if r1 == r2 {
      forall p: ClProperty ensures SameReading(p, d1, d2) {
        DevicePropertyValue(platforms, platformId, deviceId, p);
        DevicePropertyValue(platforms', platformId', deviceId, p);
        PropertyValueDetermines(p, d1, d2);
      }
    }
    if EntryValue(d1) == EntryValue(d2) && d1.vendor == d2.vendor && forall p: ClProperty :: SameReading(p, d1, d2) {
      forall l | l in DeviceLabelsFor(deviceId) ensures DeviceField(l, d1) == DeviceField(l, d2) {
        if l.Property? {
          PropertyValueDetermines(l.property, d1, d2);
        }
      }
      assert r1 == r2;
    }
  }

  /** The dictionary `openclInfo` starts from. */
  function InitialReport(platformCount: nat): Report<ClLabel> {
    map[PlatformsDetected := Text(NatToString(platformCount))]
  }

  /** The four entries the outer loop writes for a platform. */
  function HeaderReport(platform: ClPlatform): Report<ClLabel> {
    map[Platform := Text(platform.name), Vendor := Text(platform.vendor),
        Version := Text(platform.version), NumberOfDevices := Number(|platform.devices|)]
  }

  /** What one pass of the outer loop copies in, in order: the platform's
      header, then the report on each of its devices. */
  function PlatformRound(platforms: seq<ClPlatform>, platformId: nat): seq<Report<ClLabel>>
    requires platformId < |platforms|
  {
    var devices := platforms[platformId].devices;
    [HeaderReport(platforms[platformId])]
      + seq(|devices|, i requires 0 <= i < |devices| => GetDeviceInfo(platforms, platformId, i))
  }

  /** The passes of the outer loop, one per platform. */
  function Rounds(platforms: seq<ClPlatform>): seq<seq<Report<ClLabel>>> {
    seq(|platforms|, r requires 0 <= r < |platforms| => PlatformRound(platforms, r))
  }

  /** The dictionary `openclInfo` builds. */
  function OpenClReport(platforms: seq<ClPlatform>): Report<ClLabel> {
    MergeRounds(InitialReport(|platforms|), Rounds(platforms))
  }

  /** The pass for platform `r` holds its header first and then device `i`'s
      report at position `i + 1`. */
  lemma RoundShape(platforms: seq<ClPlatform>, r: nat)
    requires r < |platforms|
    ensures |Rounds(platforms)| == |platforms|
    ensures Rounds(platforms)[r] == PlatformRound(platforms, r)
    ensures |PlatformRound(platforms, r)| == |platforms[r].devices| + 1
    ensures PlatformRound(platforms, r)[0] == HeaderReport(platforms[r])
    ensures forall i :: 0 <= i < |platforms[r].devices| ==>
              PlatformRound(platforms, r)[i + 1] == GetDeviceInfo(platforms, r, i)
  {
  }

  /** The platform count, the entry of a device index platform `r` does not
      have, and a property label when platform `r` has no device, are
      written by no report of that platform's pass. */
  lemma NotInRound(platforms: seq<ClPlatform>, r: nat, k: ClLabel)
    requires r < |platforms|
    requires || k == PlatformsDetected
             || (k.DeviceEntry? && k.index >= |platforms[r].devices|)
             || (k.Property? && platforms[r].devices == [])
    ensures forall i :: 0 <= i < |Rounds(platforms)[r]| ==> k !in Rounds(platforms)[r][i]
  {
    RoundShape(platforms, r);
    var round := PlatformRound(platforms, r);
    forall i | 0 <= i < |round| ensures k !in round[i] {
      if i > 0 {
        DeviceLabelFacts(i - 1);
        if k.DeviceEntry? {
          OtherEntryAbsent(i - 1, k.index);
        }
      }
    }
  }

  /** Of the labels a platform's header writes, only `'Vendor'` is written
      again by its device reports. */
  lemma HeaderNotInDevices(platforms: seq<ClPlatform>, r: nat, k: ClLabel)
    requires r < |platforms|
    requires k == Platform || k == Version || k == NumberOfDevices || (k == Vendor && platforms[r].devices == [])
    ensures 0 < |Rounds(platforms)[r]| && k in Rounds(platforms)[r][0]
    ensures Rounds(platforms)[r][0][k] == HeaderReport(platforms[r])[k]
    ensures forall i :: 0 < i < |Rounds(platforms)[r]| ==> k !in Rounds(platforms)[r][i]
  {
    RoundShape(platforms, r);
    var round := PlatformRound(platforms, r);
    forall i | 0 < i < |round| ensures k !in round[i] {
      DeviceLabelFacts(i - 1);
    }
  }

  /** The last of the first `n` platforms that has a device `deviceId`. */
  function LastPlatformWith(platforms: seq<ClPlatform>, n: nat, deviceId: nat): (p: Option<nat>)
    requires n <= |platforms|
    ensures p.Some? ==> p.value < n && deviceId < |platforms[p.value].devices|
    ensures p.Some? ==> forall q :: p.value < q < n ==> |platforms[q].devices| <= deviceId
    ensures p.None? ==> forall q :: 0 <= q < n ==> |platforms[q].devices| <= deviceId
  {
    if n == 0 then None
    else if deviceId < |platforms[n - 1].devices| then Some(n - 1)
    else LastPlatformWith(platforms, n - 1, deviceId)
  }

  /** The four assignments of a platform's header copy in the first report
      of its pass. */
  lemma HeaderWritten(before: Report<ClLabel>, platforms: seq<ClPlatform>, platformId: nat)
    requires platformId < |platforms|
    ensures var platform := platforms[platformId];
            before[Platform := Text(platform.name)][Vendor := Text(platform.vendor)]
                  [Version := Text(platform.version)][NumberOfDevices := Number(|platform.devices|)]
              == MergeReports(before, PlatformRound(platforms, platformId)[..1])
  {
    var round := PlatformRound(platforms, platformId);
    MergeReportsStep(before, round, 0);
    assert round[..0] == [];
  }

  /** Copying in the report on device `deviceId` advances the pass by one
      report. */
  lemma DeviceWritten(before: Report<ClLabel>, platforms: seq<ClPlatform>, platformId: nat, deviceId: nat)
    requires platformId < |platforms| && deviceId < |platforms[platformId].devices|
    ensures MergeReports(before, PlatformRound(platforms, platformId)[..deviceId + 2])
              == MergeReports(before, PlatformRound(platforms, platformId)[..deviceId + 1])
                 + GetDeviceInfo(platforms, platformId, deviceId)
  {
    RoundShape(platforms, platformId);
    MergeReportsStep(before, PlatformRound(platforms, platformId), deviceId + 1);
  }

  /** Once every device of platform `platformId` is copied in, the pass is
      complete. */
  lemma PlatformWritten(platforms: seq<ClPlatform>, platformId: nat)
    requires platformId < |platforms|
    ensures |Rounds(platforms)| == |platforms|
    ensures var devices := platforms[platformId].devices;
            MergeReports(MergeRounds(InitialReport(|platforms|), Rounds(platforms)[..platformId]),
                         PlatformRound(platforms, platformId)[..|devices| + 1])
              == MergeRounds(InitialReport(|platforms|), Rounds(platforms)[..platformId + 1])
  {
    RoundShape(platforms, platformId);
    var round := PlatformRound(platforms, platformId);
    assert round[..|platforms[platformId].devices| + 1] == round;
    MergeRoundsStep(InitialReport(|platforms|), Rounds(platforms), platformId);
  }

  /** The loops of `openclInfo`: the platform count, then for each platform
      its header and each of its device reports copied key by key. */
  method CollectOpenClInfo(platforms: seq<ClPlatform>) returns (output: Report<ClLabel>)
    ensures output == OpenClReport(platforms)
  {
    output := map[];
    output := output[PlatformsDetected := Text(NatToString(|platforms|))];
    var platformId := 0;
    while platformId < |platforms|
      invariant platformId <= |platforms| == |Rounds(platforms)|
      invariant output == MergeRounds(InitialReport(|platforms|), Rounds(platforms)[..platformId])
    {
      var platform := platforms[platformId];
      ghost var before := output;
      output := output[Platform := Text(platform.name)];
      output := output[Vendor := Text(platform.vendor)];
      output := output[Version := Text(platform.version)];
      output := output[NumberOfDevices := Number(|platform.devices|)];
      HeaderWritten(before, platforms, platformId);
      var deviceId := 0;
      while deviceId < |platform.devices|
        invariant deviceId <= |platform.devices|
        invariant output == MergeReports(before, PlatformRound(platforms, platformId)[..deviceId + 1])
      {
        var info := GetDeviceInfo(platforms, platformId, deviceId);
        DeviceWritten(before, platforms, platformId, deviceId);
        output := Update(output, info);
        deviceId := deviceId + 1;
      }
      PlatformWritten(platforms, platformId);
      platformId := platformId + 1;
    }
    assert Rounds(platforms)[..platformId] == Rounds(platforms);
  }

  /** `openclInfo()` as written: it builds the dictionary and, having no
      return statement, gives its caller `None`. */
  method OpenClInfo(platforms: seq<ClPlatform>) returns (result: Option<Report<ClLabel>>)
    ensures result.None?
  {
    var output := CollectOpenClInfo(platforms);
    result := None;
  }

  /** `openclInfo()` returning the dictionary it builds. */
  method OpenClInfoReturning(platforms: seq<ClPlatform>) returns (result: Option<Report<ClLabel>>)
    ensures result == Some(OpenClReport(platforms))
  {
    var output := CollectOpenClInfo(platforms);
    result := Some(output);
  }

  /** Neither a platform header nor a device report writes the platform
      count, so `'Platform(s) detected'` keeps the decimal platform count. */
  lemma PlatformCountSurvives(platforms: seq<ClPlatform>)
    ensures PlatformsDetected in OpenClReport(platforms)
    ensures OpenClReport(platforms)[PlatformsDetected] == Text(NatToString(|platforms|))
  {
    var rounds := Rounds(platforms);
    forall r, i | 0 <= r < |rounds| && 0 <= i < |rounds[r]| ensures PlatformsDetected !in rounds[r][i] {
      NotInRound(platforms, r, PlatformsDetected);
    }
    MergeRoundsUntouched(InitialReport(|platforms|), rounds, PlatformsDetected);
  }

  /** The dictionary `openclInfo` builds is never empty, so the `None` it
      returns always loses information: already with no platform it holds
      `'Platform(s) detected': '0'`. */
  lemma ReportDiscarded(platforms: seq<ClPlatform>)
    ensures OpenClReport(platforms) != map[]
    ensures platforms == [] ==> OpenClReport(platforms) == map[PlatformsDetected := Text("0")]
  {
    PlatformCountSurvives(platforms);
  }

  /** A header label that no device report writes ends with the value the
      last platform's header gave it. */
  lemma HeaderSurvives(platforms: seq<ClPlatform>, k: ClLabel)
    requires platforms != []
    requires k == Platform || k == Version || k == NumberOfDevices
             || (k == Vendor && platforms[|platforms| - 1].devices == [])
    ensures k in OpenClReport(platforms)
    ensures OpenClReport(platforms)[k] == HeaderReport(platforms[|platforms| - 1])[k]
  {
    var last := |platforms| - 1;
    HeaderNotInDevices(platforms, last, k);
    MergeRoundsLastWriter(InitialReport(|platforms|), Rounds(platforms), k, last, 0);
  }

  /** With no platform the platform count is the only entry; otherwise
      `'Platform'`, `'Version'` and `'Number of devices'` describe the last
      platform. */
  lemma LastPlatformHeader(platforms: seq<ClPlatform>)
    ensures platforms == [] ==> OpenClReport(platforms).Keys == {PlatformsDetected}
    ensures platforms != [] ==>
              var last := platforms[|platforms| - 1];
              var output := OpenClReport(platforms);
              && Platform in output && output[Platform] == Text(last.name)
              && Version in output && output[Version] == Text(last.version)
              && NumberOfDevices in output && output[NumberOfDevices] == Number(|last.devices|)
  {
    if platforms != [] {
      HeaderSurvives(platforms, Platform);
      HeaderSurvives(platforms, Version);
      HeaderSurvives(platforms, NumberOfDevices);
    }
  }

  /** Device `i` of platform `r` writes label `k` last when no later
      platform has a device that writes it and no later device of platform
      `r` does: then the report holds that device's value for `k`. */
  lemma DeviceWritesLast(platforms: seq<ClPlatform>, r: nat, i: nat, k: ClLabel)
    requires r < |platforms| && i < |platforms[r].devices|
    requires || k == DeviceEntry(i)
             || (i == |platforms[r].devices| - 1 && (k.Property? || (k == Vendor && r == |platforms| - 1)))
    requires forall q :: r < q < |platforms| ==> |platforms[q].devices| <= (if k.DeviceEntry? then i else 0)
    ensures k in OpenClReport(platforms)
    ensures OpenClReport(platforms)[k] == DeviceField(k, platforms[r].devices[i])
  {
    var rounds := Rounds(platforms);
    if r < |platforms| - 1 {
      forall r', i' | r < r' < |rounds| && 0 <= i' < |rounds[r']| ensures k !in rounds[r'][i'] {
        NotInRound(platforms, r', k);
      }
    }
    RoundShape(platforms, r);
    var round := rounds[r];
    forall i' | i + 1 < i' < |round| ensures k !in round[i'] {
      OtherEntryAbsent(i' - 1, i);
    }
    assert k in DeviceLabelsFor(i);
    assert round[i + 1] == GetDeviceInfo(platforms, r, i);
    MergeRoundsLastWriter(InitialReport(|platforms|), rounds, k, r, i + 1);
  }

  /** `'Vendor'` is written by every platform and again by every device: it
      ends as the vendor of the last platform's last device, or the last
      platform's own vendor when that platform has no device, and is absent
      when there is no platform. */
  lemma VendorRule(platforms: seq<ClPlatform>)
    ensures platforms == [] ==> Vendor !in OpenClReport(platforms)
    ensures platforms != [] ==>
              var last := platforms[|platforms| - 1];
              && Vendor in OpenClReport(platforms)
              && OpenClReport(platforms)[Vendor]
                   == Text(if last.devices == [] then last.vendor else last.devices[|last.devices| - 1].vendor)
  {
    if platforms != [] {
      var n := |platforms|;
      var count := |platforms[n - 1].devices|;
      if count > 0 {
        DeviceWritesLast(platforms, n - 1, count - 1, Vendor);
      } else {
        HeaderSurvives(platforms, Vendor);
      }
    }
  }

  /** The entry `'Device <j>'` holds the name and type of device `j` of the
      last platform that has such a device: a later platform's device
      overwrites an earlier platform's device with the same index. */
  lemma DeviceEntryCollision(platforms: seq<ClPlatform>, j: nat)
    ensures LastPlatformWith(platforms, |platforms|, j).None? ==> DeviceEntry(j) !in OpenClReport(platforms)
    ensures LastPlatformWith(platforms, |platforms|, j).Some? ==>
              var p := LastPlatformWith(platforms, |platforms|, j).value;
              DeviceEntry(j) in OpenClReport(platforms)
              && OpenClReport(platforms)[DeviceEntry(j)] == EntryValue(platforms[p].devices[j])
  {
    var rounds := Rounds(platforms);
    var last := LastPlatformWith(platforms, |platforms|, j);
    var k := DeviceEntry(j);
    if last.None? {
      forall r, i | 0 <= r < |rounds| && 0 <= i < |rounds[r]| ensures k !in rounds[r][i] {
        NotInRound(platforms, r, k);
      }
      MergeRoundsUntouched(InitialReport(|platforms|), rounds, k);
    } else {
      DeviceWritesLast(platforms, last.value, j, k);
    }
  }

  /** A device-property label holds the value of the last device of the last
      platform that has any device, and is absent when no platform has one. */
  lemma LastDeviceProperties(platforms: seq<ClPlatform>, property: ClProperty)
    ensures LastPlatformWith(platforms, |platforms|, 0).None? ==> Property(property) !in OpenClReport(platforms)
    ensures LastPlatformWith(platforms, |platforms|, 0).Some? ==>
              var devices := platforms[LastPlatformWith(platforms, |platforms|, 0).value].devices;
              Property(property) in OpenClReport(platforms)
              && OpenClReport(platforms)[Property(property)] == PropertyValue(property, devices[|devices| - 1])
  {
    var rounds := Rounds(platforms);
    var last := LastPlatformWith(platforms, |platforms|, 0);
    var k := Property(property);
    if last.None? {
      forall r, i | 0 <= r < |rounds| && 0 <= i < |rounds[r]| ensures k !in rounds[r][i] {
        NotInRound(platforms, r, k);
      }
      MergeRoundsUntouched(InitialReport(|platforms|), rounds, k);
    } else {
      DeviceWritesLast(platforms, last.value, |platforms[last.value].devices| - 1, k);
    }
  }
}
