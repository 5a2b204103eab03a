# Python-GPU-Info in Dafny

A Dafny model of the computational core of Python-GPU-Info. The two scripts ask the CUDA and OpenCL
driver bindings about the installed GPUs. Each flattens the answers into one label-to-value
dictionary.

- `wrappers.dfy`: `Option` and `Result`, with the `:-` failure propagation the models use for
  Python exceptions.
- `decimal.dfy`: Python's decimal rendering of integers (`str(n)`, `'{}'.format(n)`,
  `'{:d}'.format(n)`) and of booleans. It also holds the parsers that show the rendering is
  injective.
- `report.dfy`: the report dictionary and the value kinds stored in it, plus the key-by-key copy
  loop `for key_k in d: output[key_k] = d[key_k]`, as the method `Update`. It also holds three
  specification functions for what a sequence of such copies leaves behind:
  - `MergeAll`: the reports may raise, and the first exception ends the loop;
  - `MergeReports`: a flat sequence of reports;
  - `MergeRounds`: rounds of reports.
  Each comes with "last writer wins" and "untouched keys survive" lemmas.
- `cuda_info.dfy`: models `CUDAInfo.py`.
  - `convertSMVer2Cores`, which looks up the string key `str(major) + str(minor)`.
  - The packed driver-version decoding.
  - `getDeviceInfo`, which reads a device's attribute dictionary and raises `KeyError` or
    `TypeError` where the script would.
  - The `cudaInfo` merge loop, as the method `CudaInfo`.
- `opencl_info.dfy`: models `OpenCLInfo.py`.
  - `getDeviceInfo` over an abstract device record. It yields a fixed set of 19 labels:
    `Device <i>`, `Vendor` and 17 device properties.
  - The nested platform/device loop of `openclInfo`, as the method `CollectOpenClInfo`.
  - `openclInfo` itself, which returns nothing.

Labels are datatype constructors. `LabelText` gives each label its exact text in the scripts,
including the truncated `'Max work group siz'` at OpenCLInfo.py:51.
`LabelTextInjective`, in each module, proves that distinct labels have distinct texts. A dictionary
keyed by label therefore has the same entries as the script's dictionary keyed by text.
`OpenClInfo.DeviceEntryText` shows that two `Device <i>` labels have the same text only when their
indices are equal.

Neither script parses as written:
- CUDAInfo.py:72-73 lack the closing `]` of `output['Device ID'` and `output['Device name'`.
- OpenCLInfo.py:46, 47 and 57 lack the opening quote of their format strings.

The model follows the evident intent of these lines: an ordinary subscript assignment, and the
format strings `'{} MB'`, `'{} B'` and `'{}x{}x{}'`.

Three behaviours of the code shape the model:
- An unlisted architecture makes `getDeviceInfo` raise `TypeError`. `convertSMVer2Cores` then
  returns `None`, and CUDAInfo.py:81 multiplies the multiprocessor count by it. No "unknown
  architecture" value is ever reported.
- Zero devices or zero platforms is not an error. The dictionary then holds only the count.
- A missing attribute raises `KeyError` for the first missing attribute, in the order the script
  reads them (CUDAInfo.py:65-123).

Two kinds of arithmetic are modelled exactly:
- Python's `//` and `%` by the positive constants 10, 100, 1000 and `1024**2` are Dafny's `/`
  and `%`.
- `int(x / 1024)` and `int(x / 1024**2)` in OpenCLInfo.py are `OpenClInfo.TruncDiv`, which is
  truncation toward zero. A float division by a power of two is exact for integers below 2^53, so
  `int` of it is the truncated quotient.

## Model

| member | source | states |
|---|---|---|
| Decimal.NatToStringRoundTrip | CUDAInfo.py:15 | The decimal rendering of a count parses back to that count, so `'{:d}'.format(n)` loses nothing. |
| Decimal.IntToStringRoundTrip | CUDAInfo.py:77 | `str(i)` of any int, negative included, parses back to `i`. |
| Decimal.IntToStringInjective | CUDAInfo.py:77 | Two ints render to the same text exactly when they are equal. |
| Decimal.SplitAtFirst | CUDAInfo.py:77 | A text `x + "." + y` whose left part holds no dot splits back uniquely into `x` and `y`. |
| Decimal.NatToString | CUDAInfo.py:15 | `'{:d}'.format(n)` of a count is a non-empty run of decimal digits, one digit exactly when `n < 10`. `Decimal.NatToStringRoundTrip` proves it parses back to `n`. |
| Decimal.IntToString | CUDAInfo.py:77 | `str(i)` starts with `-` exactly when `i` is negative, has one character exactly for 0 to 9, and holds no dot. `Decimal.IntToStringRoundTrip` and `Decimal.IntToStringInjective` prove it loses nothing. |
| Decimal.UnitTextInjective | OpenCLInfo.py:45-49 | A number followed by a unit, as in `'{} MHz'.format(x)`, gives equal texts exactly when the numbers are equal. |
| Report.Update | OpenCLInfo.py:22-23 | The key-by-key copy loop ends with the aggregate overridden by the device report: every key of the report gets the report's value, and every other key keeps its old value. |
| Report.MergeAllOutcome | CUDAInfo.py:16-19 | A merge over possibly failing device reports succeeds exactly when every report succeeds. Otherwise it ends with the exception of the first one that fails. |
| Report.MergeAllStops | CUDAInfo.py:17 | An exception met after `n` successful merges is the loop's final result. |
| Report.MergeAllLastWins | CUDAInfo.py:16-19 | When every report has the same keys, the merged dictionary is the initial one overridden by the last report alone. |
| Report.MergeAllKeys | CUDAInfo.py:16-19 | With reports that share one key set, the result has the initial keys plus that set (if any report exists). Initial entries outside the set are kept. |
| Report.MergeReportsUntouched | OpenCLInfo.py:20-23 | A key that no copied report holds keeps its presence and value. |
| Report.MergeReportsLastWriter | OpenCLInfo.py:20-23 | A key ends holding the value of the last report that contains it. |
| Report.MergeRoundsUntouched | OpenCLInfo.py:15-23 | Across all platform rounds, a key no report writes keeps its initial presence and value. |
| Report.MergeRoundsLastWriter | OpenCLInfo.py:15-23 | Across platform rounds, a key ends with the value of the last report, in the last round, that writes it. |
| CudaInfo.ConvertSMVer2Cores | CUDAInfo.py:22-50 | Any core count returned is 64, 128 or 192. |
| CudaInfo.SmKeyShape | CUDAInfo.py:37 | The concatenated key has two characters exactly when major and minor are both single non-negative digits, and it is then those two digits. |
| CudaInfo.SmKeyDigits | CUDAInfo.py:37 | A two-digit key names exactly one pair of single digits. |
| CudaInfo.ConvertAgreesWithTable | CUDAInfo.py:37-50 | The string-key lookup equals lookup of the integer pair in the 13-entry architecture table. It returns `None` for every pair outside the table, such as major 30. |
| CudaInfo.KnownArchitectures | CUDAInfo.py:38-50 | 3.0, 3.2, 3.5 and 3.7 give 192 cores. 5.0, 5.2, 5.3, 6.1 and 6.2 give 128. 6.0, 7.0, 7.2 and 7.5 give 64. |
| CudaInfo.UnknownArchitecture | CUDAInfo.py:37-50 | Every pair outside those 13 gives `None`. |
| CudaInfo.DriverVersionRoundTrip | CUDAInfo.py:74-75 | Decoding `1000 * M + 10 * m` with `0 <= m <= 9` by `// 1000` and `(% 100) // 10` gives back `M` and `m`. |
| CudaInfo.DriverMajor | CUDAInfo.py:75 | `driverVersion // 1000` is the major version: the version lies in `[1000 * major, 1000 * major + 1000)`. |
| CudaInfo.DriverMinor | CUDAInfo.py:75 | `(driverVersion % 100) // 10` is a single digit: the tens digit of the version's last two digits. |
| CudaInfo.DriverVersionDecodeExact | CUDAInfo.py:74-75 | The decoded pair re-packs to the driver version exactly when that version has no hundreds digit and no units digit. |
| CudaInfo.CapabilityTextDetermines | CUDAInfo.py:77 | The capability text is decimal major, dot, decimal minor, and different pairs give different texts. |
| CudaInfo.LabelTextInjective | CUDAInfo.py:15-123 | The 37 dictionary keys the script writes are pairwise different strings: equal texts mean equal labels. |
| CudaInfo.FirstMissing | CUDAInfo.py:65-123 | The result is the first attribute, in read order, that the device lacks, or `None` when all are present. |
| CudaInfo.ReadFailure | CUDAInfo.py:65-81 | No failure means every attribute is present and the architecture is listed. |
| CudaInfo.FirstMissingKeysOnly | CUDAInfo.py:65-123 | Which attribute is missing first depends only on which attributes are present. |
| CudaInfo.DeviceInfoOutcome | CUDAInfo.py:65-124 | `getDeviceInfo` returns a report exactly for a device with every attribute and a listed architecture, and that report has the fixed device label set. `KeyError` names a missing attribute. `TypeError` means an unlisted architecture. |
| CudaInfo.DeviceReport | CUDAInfo.py:67-81 | A reportable device's report is built with the table's core count for its architecture. |
| CudaInfo.CoreCountFields | CUDAInfo.py:67-81 | For a listed architecture, 'CUDA Cores/MP' is the table's cores per multiprocessor. 'Total Cuda Cores' is the multiprocessor count times that, and the capability text is `major.minor`. |
| CudaInfo.UnknownArchitectureNoReport | CUDAInfo.py:67-81 | For an unlisted architecture there is no report: `TypeError`, or the `KeyError` of a missing multiprocessor count, which is read first. |
| CudaInfo.PitchAndAlignmentText | CUDAInfo.py:111-112 | 'Maximum memory pitch' and 'Texture alignment' are always the literal 'Bytes'. |
| CudaInfo.PitchAndAlignmentDropped | CUDAInfo.py:111-112 | The pitch and alignment attributes must exist but never reach the report: changing them leaves `getDeviceInfo`'s result unchanged. |
| CudaInfo.ReadFailureKeysOnly | CUDAInfo.py:65-123 | The failure depends only on which attributes are present and on the architecture. |
| CudaInfo.GetDeviceInfo | CUDAInfo.py:52-124 | `getDeviceInfo`: the first read failure, or the built report. `CudaInfo.DeviceInfoOutcome` states when each happens and which labels the report has. |
| CudaInfo.BuildReport | CUDAInfo.py:71-124 | The report of a device with every attribute, one entry per device label. `CudaInfo.DeviceInfoOutcome` and `CudaInfo.BuildReportIgnoresPitch` state its label set and what it depends on. |
| CudaInfo.DeviceField | CUDAInfo.py:72-123 | The value written under each label. `CudaInfo.CoreCountFields` and `CudaInfo.PitchAndAlignmentText` state the core-count, capability, pitch and alignment fields. |
| CudaInfo.BuildReportIgnoresPitch | CUDAInfo.py:72-123 | No field of a built report depends on the pitch or the texture alignment. |
| CudaInfo.CudaReport | CUDAInfo.py:13-20 | What `cudaInfo()` returns. `CudaInfo.CudaReportOutcome`, `CudaInfo.LastDeviceWins` and `CudaInfo.DeviceCountSurvives` state its outcome, its keys and its values. |
| CudaInfo.CudaInfo | CUDAInfo.py:13-20 | The loop returns exactly the specification `CudaReport`: the count, then each device's report merged in order, or the first exception. |
| CudaInfo.CudaReportOutcome | CUDAInfo.py:13-20 | `cudaInfo` returns a dictionary exactly when every device is reportable. Otherwise it raises the exception of the first device that is not. |
| CudaInfo.DevicesReported | CUDAInfo.py:16-19 | When `cudaInfo` returns, every device produced a report with the fixed label set. |
| CudaInfo.LastDeviceWins | CUDAInfo.py:16-19 | Every device writes the same labels, so the result is the count plus exactly the last device's report. With zero devices it is the count alone. |
| CudaInfo.DeviceCountSurvives | CUDAInfo.py:15-19 | 'CUDA device(s) detected' always holds the decimal device count. The keys are that label plus the device labels, or that label alone with zero devices. |
| OpenClInfo.DeviceEntryText | OpenCLInfo.py:37 | The texts 'Device <i>' and 'Device <j>' are equal exactly when `i == j`. |
| OpenClInfo.LabelTextInjective | OpenCLInfo.py:14-58 | The keys written at platform and device level are pairwise different strings: equal texts mean equal labels, so `Device <i>` and `Device <j>` coincide only for `i == j`. |
| OpenClInfo.TruncDiv | OpenCLInfo.py:46-49 | `int(x / d)` is `x / d` rounded toward zero: the multiple of `d` just at or below a non-negative `x`, and just at or above a negative `x`. |
| OpenClInfo.DeviceReportLabels | OpenCLInfo.py:36-59 | Every device report has the same fixed 19 labels: its 'Device <i>' entry, 'Vendor' and the 17 property labels. None of them is a platform-level label. |
| OpenClInfo.GetDeviceInfo | OpenCLInfo.py:25-59 | `getDeviceInfo(platform_id, device_id)`. `OpenClInfo.DeviceReportLabels` states its labels and `OpenClInfo.ReportDeterminesDevice` what its values reveal of the device. |
| OpenClInfo.PropertyValueDetermines | OpenCLInfo.py:39-58 | Two devices show the same value for a property exactly when they agree on it up to the rendering: memory sizes only in whole MB or KB, flags only as true or false. |
| OpenClInfo.ReportDeterminesDevice | OpenCLInfo.py:36-59 | Two devices with the same index get equal reports exactly when their entry texts, vendors and every property reading agree. The report loses nothing else about the device. |
| OpenClInfo.LastPlatformWith | OpenCLInfo.py:15-20 | The result is the last platform, among the first `n`, that has a device with the given index, or `None` when none has. |
| OpenClInfo.HeaderReport | OpenCLInfo.py:16-19 | The four platform entries. `OpenClInfo.LastPlatformHeader` and `OpenClInfo.HeaderSurvives` state what the last platform leaves in them. |
| OpenClInfo.OpenClReport | OpenCLInfo.py:12-23 | The dictionary `openclInfo` builds. `OpenClInfo.CollectOpenClInfo` proves the loops build it, and `OpenClInfo.VendorRule`, `OpenClInfo.DeviceEntryCollision` and `OpenClInfo.LastDeviceProperties` state its values. |
| OpenClInfo.CollectOpenClInfo | OpenCLInfo.py:12-23 | The nested loops build exactly `OpenClReport`: the platform count, then for each platform its four header entries and its device reports merged in order. |
| OpenClInfo.OpenClInfo | OpenCLInfo.py:9-23 | As written, with no return statement, the caller gets `None`. |
| OpenClInfo.OpenClInfoReturning | OpenCLInfo.py:9-23 | With the return restored, the caller gets the built dictionary. |
| OpenClInfo.ReportDiscarded | OpenCLInfo.py:9-23 | The discarded dictionary is never empty. With no platform it is `{'Platform(s) detected': '0'}`. |
| OpenClInfo.PlatformCountSurvives | OpenCLInfo.py:14 | 'Platform(s) detected' always holds the decimal platform count. |
| OpenClInfo.HeaderSurvives | OpenCLInfo.py:15-23 | A header label no device report writes ends with the last platform's header value. |
| OpenClInfo.LastPlatformHeader | OpenCLInfo.py:15-19 | With no platform the count is the only key. Otherwise 'Platform', 'Version' and 'Number of devices' hold the last platform's name, version and device count. |
| OpenClInfo.DeviceWritesLast | OpenCLInfo.py:20-23 | A label last written by device `i` of platform `r` ends with that device's value. |
| OpenClInfo.VendorRule | OpenCLInfo.py:17-41 | 'Vendor' ends as the vendor of the last platform's last device, or the last platform's own vendor when it has no device, and is absent with no platform. |
| OpenClInfo.DeviceEntryCollision | OpenCLInfo.py:20-37 | 'Device <j>' holds device `j` of the last platform that has a device `j`: later platforms overwrite earlier ones. It is absent when no platform has that many devices. |
| OpenClInfo.LastDeviceProperties | OpenCLInfo.py:20-58 | Each property label holds the value for the last device of the last platform that has any device, and is absent when no platform has one. |

## Left out

- The pycuda and pyopencl calls are not modelled. Devices, platforms, attribute dictionaries,
  device names, total memory, and the runtime and driver versions are parameters. This covers
  `pycuda.autoinit`, `cuda.Device`, `get_attributes`, `get_version`, `get_driver_version`,
  `cl.get_platforms` and `get_devices`.
- `openclInfo` and its `getDeviceInfo` each call `cl.get_platforms()` and `get_devices()` again.
  The model assumes every call returns the same sequence.
- `cl.device_type.to_string(device.type)` and `str(device.name)` are taken as given strings.
  `max_work_item_sizes` is stored as an int list, not as its Python text.
- The float-valued CUDA fields (CUDAInfo.py:82-83, 85) are kept as exact `Ratio(num, den, unit)`
  values. Python's float rendering of the quotient is not modelled.
- OpenClInfo.TruncDiv: equals Python's `int(x / d)` only for |x| < 2^53. Larger memory sizes lose
  precision in the float division, and that is not modelled.
- `str(bool)` of an OpenCL or CUDA flag stored as a value is kept as `Flag(b)`. It is rendered as
  text only inside a CUDA format string, at CUDAInfo.py:113-115.
- Dictionary insertion order affects only how the result prints, and is not modelled; a `map`
  holds the contents.
- The printing in the `__main__` blocks (CUDAInfo.py:126-127, OpenCLInfo.py:61-63) is not modelled.
- The unused `prefix` parameters of both `getDeviceInfo` functions are not modelled.
- OpenClInfo.DeviceReportLabels: states the 19 labels as a set (entry, 'Vendor', 17 properties),
  not as the cardinality 19.
- OpenClInfo.GetDeviceInfo: requires a valid platform and device index. The script's `IndexError`
  for an invalid index is not modelled, because `openclInfo` only passes indices it enumerates.

## Findings

| source | as written | input that shows it | evidently intended | confidence | as-written member | corrected member |
|---|---|---|---|---|---|---|
| OpenCLInfo.py:9-23 | `openclInfo` builds `output` but has no `return`, so it returns `None` and `print(openclInfo())` prints `None` | no platforms at all: the dictionary `{'Platform(s) detected': '0'}` is built and dropped | return the dictionary, as `cudaInfo` does at CUDAInfo.py:20 | not executed | OpenClInfo.OpenClInfo (exhibited by OpenClInfo.ReportDiscarded) | OpenClInfo.OpenClInfoReturning |
