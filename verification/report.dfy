/**
 The assembly of the report in main.go: one inventory query per hardware
 class, the motherboard and CPU taken from the last record, the GPU from
 the first controller, memory and OS normalized, and the run aborted on a
 failed query or when no video controller is present.
 */
module Report {
  import opened Results
  import opened MachineInts
  import Text
  import MemoryNormalizer
  import OsVersion

  /** The inventory classes main.go queries, in the order it queries them. */
  datatype InventoryClass = BaseBoardClass | PhysicalMemoryClass | ProcessorClass | VideoControllerClass

  datatype BoardRecord = BoardRecord(manufacturer: string, product: string)
  datatype ProcessorRecord = ProcessorRecord(name: string)
  datatype VideoRecord = VideoRecord(name: string, driverVersion: string)

  /** A failed inventory query; its message is only printed. */
  datatype QueryError = QueryError(message: string)

  /** What the data sources returned. */
  datatype Inventory = Inventory(
    baseboards: Result<seq<BoardRecord>, QueryError>,
    memory: Result<seq<MemoryNormalizer.MemoryRecord>, QueryError>,
    processors: Result<seq<ProcessorRecord>, QueryError>,
    videoControllers: Result<seq<VideoRecord>, QueryError>,
    major: U32,
    minor: U32,
    build: U32)

  /** Why the run ends without a report. */
  datatype Abort = QueryFailed(failed: InventoryClass) | NoGpu

  datatype SystemInfo = SystemInfo(
    motherboard: string,
    gpu: string,
    cpu: string,
    memory: MemoryNormalizer.Memory,
    operatingSystem: OsVersion.OperatingSystem)

  /** The two strings joined by a comma and a space. */
  function PairLabel(first: string, second: string): string {
    first + ", " + second
  }

  function BoardLabel(b: BoardRecord): string {
    PairLabel(b.manufacturer, b.product)
  }

  function ProcessorLabel(p: ProcessorRecord): string {
    Text.TrimSpace(p.name)
  }

  function VideoLabel(v: VideoRecord): string {
    PairLabel(v.name, v.driverVersion)
  }

  /**
   A loop that assigns render(item) to the same variable for every item, in
   order, starting from current: the last item wins, and with no items the
   variable keeps its value.
   */
  function Overwrite<T>(current: string, items: seq<T>, render: T -> string): (r: string)
    ensures items == [] ==> r == current
    ensures items != [] ==> r == render(items[|items| - 1])
    decreases |items|
  {
    if items == [] then current else Overwrite(render(items[0]), items[1..], render)
  }

  /** The GPU rule: no controller ends the run, otherwise the first controller is reported. */
  function SelectGpu(controllers: seq<VideoRecord>): (r: Result<string, Abort>)
    ensures r.Err? <==> controllers == []
    ensures r.Err? ==> r.error == NoGpu
  {
    if |controllers| == 0 then Err(NoGpu) else Ok(VideoLabel(controllers[0]))
  }

  /** Controllers after the first are only printed: they never change the reported GPU. */
  lemma SelectGpuIgnoresLaterControllers(first: VideoRecord, others: seq<VideoRecord>)
    ensures SelectGpu([first] + others) == Ok(VideoLabel(first))
  {
  }

  /** The whole collection pass: the report, or the reason the run stops. */
  function Collect(inv: Inventory): (r: Result<SystemInfo, Abort>)
    // a report is produced only from a complete inventory with at least one controller
    ensures r.Ok? <==>
      && inv.baseboards.Ok? && inv.memory.Ok? && inv.processors.Ok?
      && inv.videoControllers.Ok? && |inv.videoControllers.value| > 0
  {
    match inv.baseboards
    case Err(_) => Err(QueryFailed(BaseBoardClass))
    case Ok(boards) =>
      var motherboard := Overwrite("", boards, BoardLabel);
      match inv.memory
      case Err(_) => Err(QueryFailed(PhysicalMemoryClass))
      case Ok(modules) =>
        var memory := MemoryNormalizer.Normalize(modules);
        match inv.processors
        case Err(_) => Err(QueryFailed(ProcessorClass))
        case Ok(cpus) =>
          var cpu := Overwrite("", cpus, ProcessorLabel);
          match inv.videoControllers
          case Err(_) => Err(QueryFailed(VideoControllerClass))
          case Ok(controllers) =>
            match SelectGpu(controllers)
            case Err(abort) => Err(abort)
            case Ok(gpu) =>
              Ok(SystemInfo(motherboard, gpu, cpu, memory, OsVersion.Classify(inv.major, inv.minor, inv.build)))
  }

  /** The queries run in a fixed order and the first failure is the one reported. */
  lemma CollectAbortReason(inv: Inventory)
    ensures (Collect(inv) == Err(QueryFailed(BaseBoardClass))) <==> inv.baseboards.Err?
    ensures (Collect(inv) == Err(QueryFailed(PhysicalMemoryClass))) <==> inv.baseboards.Ok? && inv.memory.Err?
    ensures (Collect(inv) == Err(QueryFailed(ProcessorClass))) <==>
      inv.baseboards.Ok? && inv.memory.Ok? && inv.processors.Err?
    ensures (Collect(inv) == Err(QueryFailed(VideoControllerClass))) <==>
      inv.baseboards.Ok? && inv.memory.Ok? && inv.processors.Ok? && inv.videoControllers.Err?
    ensures (Collect(inv) == Err(NoGpu)) <==>
      inv.baseboards.Ok? && inv.memory.Ok? && inv.processors.Ok? && inv.videoControllers == Ok([])
  {
  }

  /**
   Each report field comes from its own source: the last board, the last
   processor, the first controller, the normalized memory and the OS triple.
   */
  lemma CollectReportFields(inv: Inventory)
    requires Collect(inv).Ok?
    ensures var info := Collect(inv).value;
      && info.gpu == VideoLabel(inv.videoControllers.value[0])
      && info.motherboard == (if inv.baseboards.value == [] then "" else BoardLabel(inv.baseboards.value[|inv.baseboards.value| - 1]))
      && info.cpu == (if inv.processors.value == [] then "" else ProcessorLabel(inv.processors.value[|inv.processors.value| - 1]))
      && info.memory == MemoryNormalizer.Normalize(inv.memory.value)
      && info.operatingSystem == OsVersion.Classify(inv.major, inv.minor, inv.build)
  {
  }

  /** Every string the report takes from the CPU name or the memory name is trimmed. */
  lemma CollectTrimsCpuAndMemoryName(inv: Inventory)
    requires Collect(inv).Ok?
    ensures Text.IsTrimmed(Collect(inv).value.cpu)
    ensures Text.IsTrimmed(Collect(inv).value.memory.name)
    ensures |Collect(inv).value.memory.capacities| == 4
  {
  }
}
