# PC information gather tool — a Dafny model of its decision logic

The tool queries WMI on a Windows host for the baseboard, the physical memory
modules, the processor and the video controllers, and asks the kernel for the
OS version numbers. It folds the inconsistently labelled memory records into
one `Memory` summary, labels the OS version, and writes the JSON report to the
first of three locations that accepts it. Everything lives in `main.go`.

This project models the parts of that file that make decisions. Each is a pure
function over immutable data:

- `MemoryNormalizer` models the memory loop (`main.go:61-120`). It is a fold
  (`Fold`, one `Step` per record) over `seq<MemoryRecord>`. The accumulator
  holds the four capacity slots and the loop variables. The bank-label switch is
  `SlotOf`. The same switch is also written as a data table (`SLOT_TABLE`,
  first exact match), and the two are proved to agree. The
  `if cur != new { cur = new }` assignments are modelled as written
  (`GatedAssign`) and proved equal to a plain overwrite.
- `Capacity` models `convertBytesToGB` exactly as Go computes it: the `uint64`
  is rounded to `float64` (53 significant bits, ties to even), divided by 2^30
  and truncated. Below 2^53 bytes this is exact integer division. For every
  `uint64` it is never below the exact quotient and at most one above it.
  `BytesToGBRoundsUpNearTop` shows a concrete input where it is one above.
- `Text.TrimSpace` models Go's `strings.TrimSpace` with `unicode.IsSpace`.
  `Decimal` models the `%v` / `strconv.Itoa` rendering of unsigned integers,
  with its inverse parser.
- `OsVersion.Classify` models the version switch and the patch string.
- `Export.SaveFile` models `SaveFile`/`saveToFile` over an `Environment`. The
  environment holds the home-directory lookup, the working-directory lookup,
  and two oracles per path: whether `os.Create` succeeds there and whether the
  write into the created file succeeds. `Outcome` combines them as
  `saveToFile` does. The function returns the result, the trace of
  attempted writes, and whether the working directory was queried.
  `TryInOrder` is the generic "first provider that succeeds" rule, and
  `SaveFileIsFirstSuccess` proves that `SaveFile` is an instance of it when
  both the home and the working-directory lookups succeed.
- `Report.Collect` models `main`'s collection pass. The queries run in order
  and the first failed query aborts the run. The motherboard and CPU come from
  the last record (`Overwrite`). The GPU comes from the first controller, and
  having no controller ends the run (`SelectGpu`).

Machine widths follow the source: `U16`, `U32` and `U64` are bounded subset
types of `nat`. The model assumes Go's 64-bit `int`, as on windows/amd64 and
windows/arm64. There `int(speed)` and `int(build)` never wrap, because a
`uint32` always fits. The truncated gigabyte count is at most 2^34, so
`int(gigabytes)` never overflows either.

Behaviour of the code worth noting:

- Only the CPU name and the memory display name are trimmed. The motherboard
  and GPU labels are `"%s, %s"` of the raw fields.
- The capacity conversion goes through `float64`, not integer division. The two
  differ only above 2^53 bytes.
- If `os.Create` succeeds but `Write` fails, the file is left behind. So "all
  candidates failed" means that no candidate holds the report, not that no file
  was created. `WriteStatus.WriteFailed` records this case.
- An unknown SMBIOS memory type code leaves the previous record's type in
  place, not an empty string. The type is empty only when no record has code
  26 or 34.

## Model

| member | source | states |
|---|---|---|
| Text.TrimSpace | main.go:118 | The result neither starts nor ends with a space, and it is a contiguous slice of the input with only spaces around it |
| Text.TrimSpaceOfPadded | main.go:118 | Trimming a trimmed string padded with spaces on both sides gives back exactly that string |
| Text.TrimSpaceKeeps | main.go:118 | Every non-space character of the input survives trimming |
| Text.TrimSpaceIdempotent | main.go:131-132 | Trimming an already trimmed name changes nothing |
| Decimal.NatToString | main.go:175 | Rendering gives a canonical numeral: at least one decimal digit, with no leading zero |
| Decimal.NumeralIsNatToString | main.go:175 | Every canonical numeral is the rendering of its own value, so a number has exactly one rendering |
| Decimal.ParseNatToString | main.go:175 | Parsing the rendered decimal string gives back the number |
| Decimal.NatToStringInjective | main.go:175 | Two numbers render to the same string exactly when they are equal |
| Capacity.RoundToMultiple | main.go:239 | Rounds to a multiple of the spacing, at most half a spacing away, never below the floor multiple, with ties going to the even multiple |
| Capacity.RoundToFloat64 | main.go:239 | Converting uint64 to float64 is exact below 2^53 |
| Capacity.BytesToGB | main.go:238-241 | Below 2^53 bytes the gigabyte count is the byte count divided by 2^30, truncated |
| Capacity.BytesToGBWithinOne | main.go:238-241 | For every uint64 the float path gives the exact truncated quotient or one more, never less |
| Capacity.BytesToGBRoundsUpNearTop | main.go:239-240 | 2^60-1 bytes gives 2^30 gigabytes, although the exact quotient is 2^30-1 |
| Capacity.CapacityLabel | main.go:76 | A slot text is a canonical decimal numeral (non-empty, no leading zero) whose value is the gigabyte count, followed by " GB" |
| Capacity.CapacityLabelExamples | main.go:76 | 8589934592 bytes reads "8 GB" and 17179869184 bytes reads "16 GB" |
| MemoryNormalizer.SlotOfIgnores | main.go:73-94 | A record fills no slot exactly when its bank label has no case, or it is a P0 channel label whose locator is neither "DIMM 1" nor "DIMM 2" |
| MemoryNormalizer.SlotOfIsTableLookup | main.go:73-94 | The bank-label switch assigns every (bank, locator) pair the slot of the first matching row of the 14-row table, or none |
| MemoryNormalizer.LookupOfP0Label | main.go:74-85 | For the two P0 channel labels the switch and the table agree; the locator picks the slot |
| MemoryNormalizer.LookupOfChannelALabel | main.go:86-89 | The six labels of slots 0 and 1 get the same slot from the switch and the table, whatever the locator |
| MemoryNormalizer.LookupOfSlotTwoLabel | main.go:90-91 | "BANK 2" and "ChannelB-DIMM0" fill slot 2, whatever the locator |
| MemoryNormalizer.LookupOfSlotThreeLabel | main.go:92-93 | "BANK 3" and "ChannelB-DIMM1" fill slot 3, whatever the locator |
| MemoryNormalizer.LookupOfUnknownLabel | main.go:73-94 | A label with no case fills no slot, and no table row matches it |
| MemoryNormalizer.GatedAssign | main.go:95-106 | Assigning only when the value differs always leaves the incoming value |
| MemoryNormalizer.TypeLabel | main.go:107-112 | Code 26 names DDR4 and code 34 names DDR5, each exactly; every other code names nothing |
| MemoryNormalizer.Step | main.go:71-113 | A record writes only its own slot, an unmatched record leaves all four slots alone, the four reduced fields take the record's values, and an unknown type code keeps the previous type |
| MemoryNormalizer.Fold | main.go:61-113 | Always four slots. No records gives the zero values and four "N/A". Otherwise manufacturer, speed, voltage and part number are the last record's |
| MemoryNormalizer.SlotUnfilled | main.go:69-94 | A slot is "N/A" exactly when no record maps to it |
| MemoryNormalizer.SlotHoldsLastWrite | main.go:69-94 | A slot holds the capacity of the last record that maps to it |
| MemoryNormalizer.SlotContents | main.go:69-94 | A slot is "N/A" exactly when no record maps to it; otherwise it holds the capacity of the last record mapping to it |
| MemoryNormalizer.NoMatchLeavesAllUnavailable | main.go:69-94 | When no record is recognised, the capacities are four "N/A" |
| MemoryNormalizer.MemoryTypeContents | main.go:107-116 | The type is empty exactly when no record has code 26 or 34; otherwise it is DDR4 or DDR5 from the last record that has one |
| MemoryNormalizer.NormalizeAggregates | main.go:95-120 | Speed and name come from the last record whether or not it matched a slot; with no records they are 0 and "-" |
| MemoryNormalizer.DisplayName | main.go:118 | The name is trimmed and always keeps the dash |
| MemoryNormalizer.DisplayNameUntrimmed | main.go:118 | With both parts non-empty and unpadded, the name is exactly "manufacturer - part" |
| MemoryNormalizer.DisplayNameWithoutManufacturer | main.go:118 | An empty manufacturer with an unpadded part number p gives "- " followed by p |
| MemoryNormalizer.DisplayNameWithoutPartNumber | main.go:118 | An unpadded manufacturer m with an empty part number gives m followed by " -" |
| MemoryNormalizer.DisplayNameOfNothing | main.go:118 | Two empty parts give "-" |
| MemoryNormalizer.Normalize | main.go:115-120 | The Memory value has four capacity slots and a trimmed name |
| MemoryNormalizer.NormalizeBankOneExample | main.go:88-89 | A BANK 1 module of 8 GiB gives slots N/A, 8 GB, N/A, N/A |
| MemoryNormalizer.NormalizeChannelBExample | main.go:80-85 | A P0 CHANNEL B / DIMM 2 module of 16 GiB with code 34 gives slot 3 "16 GB" and type DDR5 |
| OsVersion.GenericLabel | main.go:170 | The default label is "Windows ", then a canonical numeral (non-empty, no leading zero) of the major number, a dot, and a canonical numeral of the minor number |
| OsVersion.GenericLabelIsUnique | main.go:170 | Any string of that shape is the default label of the pair it spells, so the contract of GenericLabel pins the label down completely |
| OsVersion.Classify | main.go:164-176 | "Windows 11" exactly for 10.0 with build at least 22000. "Windows 10" exactly for 10.0 below it. Any other major.minor gets the default label. The patch is the canonical numeral (non-empty, no leading zero) of the build |
| OsVersion.GenericLabelInjective | main.go:170 | Distinct major.minor pairs get distinct default labels |
| OsVersion.VersionLabelIdentifiesRelease | main.go:164-171 | Two version triples get the same label exactly when they are in the same release class |
| OsVersion.PatchIdentifiesBuild | main.go:175 | Two patch strings are equal exactly when the builds are equal, whatever the label |
| OsVersion.ClassifyExamples | main.go:164-171 | (10,0,22000) is Windows 11; (10,0,19045) is Windows 10 with patch 19045; (6,1,any) is Windows 6.1 |
| Export.JoinPath | main.go:200-201 | A joined path ends with the file name |
| Export.Outcome | main.go:227-236 | The report is written exactly when both the create and the write succeed; the create failing is reported exactly when it fails; a created file whose write fails is the remaining case |
| Export.SaveFile | main.go:192-225 | A failed home lookup is an error at once, with no write attempted. Every attempt records what create and write did at its path. Success is reported exactly when the last attempt wrote the report, and for that attempt's path |
| Export.SaveInWorkingDir | main.go:212-224 | Once both home writes failed, the working directory is queried and at most one more attempt is made; success is reported exactly when that attempt wrote the report, for its path |
| Export.SaveFileOrder | main.go:199-219 | With a home directory: one to three attempts, in the order Desktop, Documents, working directory. The third is made only when the working directory is known |
| Export.SaveFileStopsAtFirstSuccess | main.go:203-224 | No attempt before the last one wrote the report. The working directory is queried exactly when both home writes failed |
| Export.SaveFileErrors | main.go:212-224 | The working-directory error occurs exactly when it was queried and its lookup failed. All-failed is reported exactly when three attempts were made and none wrote the report |
| Export.TryInOrder | main.go:203-224 | First-success search: the trace is a prefix of the paths with the oracle's verdicts; either the last attempt succeeded and none before it did, or every path failed |
| Export.SaveFileIsFirstSuccess | main.go:192-225 | With both directories known, SaveFile's trace and result equal the first-success search over the three candidate paths |
| Export.DocumentsFallback | main.go:204-211 | Desktop failing and Documents succeeding returns the Documents path, after two attempts, without querying the working directory |
| Export.AllCandidatesRefuse | main.go:214-222 | When all three writes fail, the result is all-failed and no attempt wrote the report |
| Report.Overwrite | main.go:49-52 | A loop that overwrites one variable per record leaves the last record's value, or the initial value when there are none |
| Report.SelectGpu | main.go:144-159 | Zero controllers ends the run with NoGpu; any controller yields a label |
| Report.SelectGpuIgnoresLaterControllers | main.go:148-158 | The reported GPU is the first controller's "Name, DriverVersion", whatever follows it |
| Report.Collect | main.go:43-147 | A report exists exactly when all four queries succeed and at least one video controller is found |
| Report.CollectAbortReason | main.go:43-147 | The reported abort is the first failing query in the order baseboard, memory, processor, video, and then the zero-GPU case |
| Report.CollectReportFields | main.go:49-176 | Motherboard is the last board's label; CPU is the last trimmed processor name; GPU is the first controller; memory and OS are the normalized values |
| Report.CollectTrimsCpuAndMemoryName | main.go:115-132 | In a report the CPU and memory names are trimmed and there are four capacity slots |

## Left out

- WMI queries and `RtlGetNtVersionNumbers` (main.go:44, 56, 124, 137, 161) are foreign calls. Their results are the fields of `Report.Inventory`.
- Console output and the Enter-to-close `defer` (main.go:37-41 and every `fmt.Println`) are presentation only. This includes line 72, which prints the clock speed where it says voltage.
- `json.Marshal` (main.go:178) is library serialisation and is not modelled.
- `Report.Collect` is not composed with `Export.SaveFile`: the call at main.go:182-188 and the messages it prints are not modelled, because the create and write oracles do not depend on the bytes written.
- Real file I/O (`os.UserHomeDir`, `os.Getwd`, `os.Create`, `Write`) is replaced by `Export.Environment`. The error returned by `file.Close` is discarded by the source and not modelled.
- Export.JoinPath: joins with the Windows separator and skips an empty directory, but does not model the cleaning `filepath.Join` does (`..`, doubled or trailing separators).
- Text.TrimSpace: works on Unicode characters; Go strings are bytes, and invalid UTF-8 is not modelled.
- The voltage is reduced but never reported (main.go:101-103). It appears only in the accumulator and in the contracts of `MemoryNormalizer.Step` and `MemoryNormalizer.Fold`.
- Go's `int` on 32-bit targets (windows/386) is not modelled. There `int(speed)` and `int(build)` (main.go:117, 175) would wrap negative for a value of 2^31 or more. For a module of 2^61 bytes or more, `int(gigabytes)` (main.go:240) converts a float64 that is out of range, and Go leaves that result implementation-dependent; it does not wrap.
- Fields of `Win32PhysicalMemory` that the loop never reads, and the unused `PCPart` type (main.go:276-280), are not modelled.
