/**
 The memory-module normalizer of main.go: a single pass over the physical
 memory records that fills four capacity slots from a fixed label table,
 carries manufacturer, speed, voltage and part number forward, picks the
 DDR generation from the SMBIOS type code and composes a display name.
 */
module MemoryNormalizer {
  import opened Results
  import opened MachineInts
  import Text
  import Capacity

  /** The fields of one Win32_PhysicalMemory record that the pass reads. */
  datatype MemoryRecord = MemoryRecord(
    bankLabel: string,
    deviceLocator: string,
    capacity: U64,
    configuredClockSpeed: U32,
    configuredVoltage: U16,
    manufacturer: string,
    partNumber: string,
    smbiosMemoryType: U64)

  /** The normalized memory summary of the report. */
  datatype Memory = Memory(memType: string, speed: nat, capacities: seq<string>, name: string)

  /** One of the four slots: 0 and 1 on channel A, 2 and 3 on channel B. */
  type Slot = i: nat | i < 4

  const NOT_AVAILABLE := "N/A"
  const SMBIOS_DDR4: nat := 26
  const SMBIOS_DDR5: nat := 34

  /** Every bank label the switch has a case for. */
  const KNOWN_BANKS: set<string> := {
    "P0 CHANNEL A", "P0 CHANNEL B",
    "BANK 0", "ChannelA-DIMM0", "Node0", "BANK 1", "ChannelA-DIMM1", "Node1",
    "BANK 2", "ChannelB-DIMM0", "BANK 3", "ChannelB-DIMM1"}

  /** The slot a record's bank label and device locator name, as the switch in main.go decides. */
  function SlotOf(bank: string, locator: string): Option<Slot> {
    if bank == "P0 CHANNEL A" then
      (if locator == "DIMM 1" then Some(0) else if locator == "DIMM 2" then Some(1) else None)
    else if bank == "P0 CHANNEL B" then
      (if locator == "DIMM 1" then Some(2) else if locator == "DIMM 2" then Some(3) else None)
    else if bank in {"BANK 0", "ChannelA-DIMM0", "Node0"} then Some(0)
    else if bank in {"BANK 1", "ChannelA-DIMM1", "Node1"} then Some(1)
    else if bank in {"BANK 2", "ChannelB-DIMM0"} then Some(2)
    else if bank in {"BANK 3", "ChannelB-DIMM1"} then Some(3)
    else None
  }

  /**
   A record is ignored exactly when its bank label is unknown, or it is a P0
   channel label whose locator is neither DIMM 1 nor DIMM 2.
   */
  lemma SlotOfIgnores(bank: string, locator: string)
    ensures SlotOf(bank, locator).None? <==>
      bank !in KNOWN_BANKS
      || (bank in {"P0 CHANNEL A", "P0 CHANNEL B"} && locator != "DIMM 1" && locator != "DIMM 2")
  {
  }

  function RecordSlot(r: MemoryRecord): Option<Slot> {
    SlotOf(r.bankLabel, r.deviceLocator)
  }

  /** One row of the slot table: a bank label, the locator it also needs (if any), and the slot. */
  datatype SlotRule = SlotRule(bank: string, locator: Option<string>, slot: Slot)

  /** The slot table as data, in the order the switch tests its cases. */
  const SLOT_TABLE: seq<SlotRule> := [
    SlotRule("P0 CHANNEL A", Some("DIMM 1"), 0),
    SlotRule("P0 CHANNEL A", Some("DIMM 2"), 1),
    SlotRule("P0 CHANNEL B", Some("DIMM 1"), 2),
    SlotRule("P0 CHANNEL B", Some("DIMM 2"), 3),
    SlotRule("BANK 0", None, 0), SlotRule("ChannelA-DIMM0", None, 0), SlotRule("Node0", None, 0),
    SlotRule("BANK 1", None, 1), SlotRule("ChannelA-DIMM1", None, 1), SlotRule("Node1", None, 1),
    SlotRule("BANK 2", None, 2), SlotRule("ChannelB-DIMM0", None, 2),
    SlotRule("BANK 3", None, 3), SlotRule("ChannelB-DIMM1", None, 3)
  ]

  predicate RuleMatches(rule: SlotRule, bank: string, locator: string) {
    rule.bank == bank && (rule.locator.None? || rule.locator.value == locator)
  }

  /** First exact match in a rule table, scanning from row i. */
  function LookupSlot(table: seq<SlotRule>, i: nat, bank: string, locator: string): (r: Option<Slot>)
    requires i <= |table|
    decreases |table| - i
  {
    if i == |table| then None
    else if RuleMatches(table[i], bank, locator) then Some(table[i].slot)
    else LookupSlot(table, i + 1, bank, locator)
  }

  /** Every row of a table is one step of the lookup: a match there, or the lookup from the next row. */
  lemma LookupSteps(table: seq<SlotRule>, bank: string, locator: string)
    ensures forall i {:trigger LookupSlot(table, i, bank, locator)} :: 0 <= i < |table| ==>
      LookupSlot(table, i, bank, locator)
        == if RuleMatches(table[i], bank, locator) then Some(table[i].slot) else LookupSlot(table, i + 1, bank, locator)
  {
  }

  /** The two P0 channel labels are decided by the first four rows, on the locator. */
  lemma LookupOfP0Label(bank: string, locator: string)
    requires bank == "P0 CHANNEL A" || bank == "P0 CHANNEL B"
    ensures SlotOf(bank, locator) == LookupSlot(SLOT_TABLE, 0, bank, locator)
  {
    LookupSteps(SLOT_TABLE, bank, locator);
  }

  /** A label of slot 0 or 1 on the other boards skips the four P0 rows and is decided by the label alone. */
  lemma LookupOfChannelALabel(bank: string, locator: string)
    requires bank in {"BANK 0", "ChannelA-DIMM0", "Node0", "BANK 1", "ChannelA-DIMM1", "Node1"}
    ensures SlotOf(bank, locator) == LookupSlot(SLOT_TABLE, 0, bank, locator)
  {
    LookupSteps(SLOT_TABLE, bank, locator);
  }

  /** The two labels of slot 2 on the other boards. */
  lemma LookupOfSlotTwoLabel(bank: string, locator: string)
    requires bank == "BANK 2" || bank == "ChannelB-DIMM0"
    ensures SlotOf(bank, locator) == LookupSlot(SLOT_TABLE, 0, bank, locator) == Some(2)
  {
    LookupSteps(SLOT_TABLE, bank, locator);
  }

  /** The two labels of slot 3 on the other boards. */
  lemma LookupOfSlotThreeLabel(bank: string, locator: string)
    requires bank == "BANK 3" || bank == "ChannelB-DIMM1"
    ensures SlotOf(bank, locator) == LookupSlot(SLOT_TABLE, 0, bank, locator) == Some(3)
  {
    LookupSteps(SLOT_TABLE, bank, locator);
  }

  /** A label the switch does not know matches no row. */
  lemma LookupOfUnknownLabel(bank: string, locator: string)
    requires bank !in KNOWN_BANKS
    ensures SlotOf(bank, locator) == None == LookupSlot(SLOT_TABLE, 0, bank, locator)
  {
    LookupSteps(SLOT_TABLE, bank, locator);
  }

  /** The hard-coded switch and the data-driven table assign every record the same slot. */
  lemma SlotOfIsTableLookup(bank: string, locator: string)
    ensures SlotOf(bank, locator) == LookupSlot(SLOT_TABLE, 0, bank, locator)
  {
    if bank == "P0 CHANNEL A" || bank == "P0 CHANNEL B" {
      LookupOfP0Label(bank, locator);
    } else if bank in {"BANK 0", "ChannelA-DIMM0", "Node0", "BANK 1", "ChannelA-DIMM1", "Node1"} {
      LookupOfChannelALabel(bank, locator);
    } else if bank == "BANK 2" || bank == "ChannelB-DIMM0" {
      LookupOfSlotTwoLabel(bank, locator);
    } else if bank == "BANK 3" || bank == "ChannelB-DIMM1" {
      LookupOfSlotThreeLabel(bank, locator);
    } else {
      LookupOfUnknownLabel(bank, locator);
    }
  }

  /**
   The loop's update of a reduced field: the variable takes the record's value
   only when the two differ. Either way it ends up holding the record's value.
   */
  function GatedAssign<T(==)>(current: T, incoming: T): (r: T)
    ensures r == incoming
  {
    if current != incoming then incoming else current
  }

  /**
   The DDR generation an SMBIOS memory type code names, if the switch knows
   it: code 26 is DDR4, code 34 is DDR5, and every other code names nothing.
   */
  function TypeLabel(code: U64): (r: Option<string>)
    ensures (r == Some("DDR4")) <==> code == SMBIOS_DDR4
    ensures (r == Some("DDR5")) <==> code == SMBIOS_DDR5
    ensures r.None? <==> code != SMBIOS_DDR4 && code != SMBIOS_DDR5
  {
    if code == SMBIOS_DDR4 then Some("DDR4")
    else if code == SMBIOS_DDR5 then Some("DDR5")
    else None
  }

  /** The loop's variables between two iterations. */
  datatype Accumulator = Accumulator(
    capacities: seq<string>,
    manufacturer: string,
    speed: U32,
    voltage: U16,
    partNumber: string,
    memType: string)

  /** The zero values Go gives the loop variables, and the four "N/A" slots. */
  const INITIAL: Accumulator :=
    Accumulator([NOT_AVAILABLE, NOT_AVAILABLE, NOT_AVAILABLE, NOT_AVAILABLE], "", 0, 0, "", "")

  /** One iteration of the loop over the memory records. */
  function Step(acc: Accumulator, r: MemoryRecord): (next: Accumulator)
    requires |acc.capacities| == 4
    ensures |next.capacities| == 4
    ensures RecordSlot(r).None? ==> next.capacities == acc.capacities
    ensures RecordSlot(r).Some? ==>
      && next.capacities[RecordSlot(r).value] == Capacity.CapacityLabel(r.capacity)
      && forall j :: 0 <= j < 4 && j != RecordSlot(r).value ==> next.capacities[j] == acc.capacities[j]
    ensures next.manufacturer == r.manufacturer && next.partNumber == r.partNumber
    ensures next.speed == r.configuredClockSpeed && next.voltage == r.configuredVoltage
    ensures next.memType == (if TypeLabel(r.smbiosMemoryType).Some? then TypeLabel(r.smbiosMemoryType).value else acc.memType)
  {
    var capacities :=
      match RecordSlot(r)
      case Some(i) => acc.capacities[i := Capacity.CapacityLabel(r.capacity)]
      case None => acc.capacities;
    Accumulator(
      capacities,
      GatedAssign(acc.manufacturer, r.manufacturer),
      GatedAssign(acc.speed, r.configuredClockSpeed),
      GatedAssign(acc.voltage, r.configuredVoltage),
      GatedAssign(acc.partNumber, r.partNumber),
      match TypeLabel(r.smbiosMemoryType)
      case Some(generation) => generation
      case None => acc.memType)
  }

  /** The loop run over all records, in order. */
  function Fold(records: seq<MemoryRecord>): (acc: Accumulator)
    ensures |acc.capacities| == 4
    ensures records == [] ==> acc == INITIAL
    ensures records != [] ==>
      var last := records[|records| - 1];
      && acc.manufacturer == last.manufacturer && acc.partNumber == last.partNumber
      && acc.speed == last.configuredClockSpeed && acc.voltage == last.configuredVoltage
  {
    if records == [] then INITIAL else Step(Fold(records[..|records| - 1]), records[|records| - 1])
  }

  /** The manufacturer and part number joined by " - ", with surrounding whitespace trimmed. */
  function DisplayName(manufacturer: string, partNumber: string): (name: string)
    ensures Text.IsTrimmed(name)
    ensures '-' in name
  {
    var s := manufacturer + " - " + partNumber;
    Text.TrimSpaceKeeps(s, |manufacturer| + 1);
    Text.TrimSpace(s)
  }

  /** The Memory value main.go assembles after the loop. */
  function Normalize(records: seq<MemoryRecord>): (m: Memory)
    ensures |m.capacities| == 4
    ensures Text.IsTrimmed(m.name)
  {
    var acc := Fold(records);
    Memory(acc.memType, acc.speed, acc.capacities, DisplayName(acc.manufacturer, acc.partNumber))
  }

  /** Record k writes slot i and no later record writes it again. */
  predicate LastWriter(records: seq<MemoryRecord>, i: Slot, k: nat) {
    && k < |records|
    && RecordSlot(records[k]) == Some(i)
    && forall j :: k < j < |records| ==> RecordSlot(records[j]) != Some(i)
  }

  /** Record k carries a known SMBIOS type code and no later record does. */
  predicate LastTyped(records: seq<MemoryRecord>, k: nat) {
    && k < |records|
    && TypeLabel(records[k].smbiosMemoryType).Some?
    && forall j :: k < j < |records| ==> TypeLabel(records[j].smbiosMemoryType).None?
  }

  /** Slot i stays "N/A" exactly when no record maps to it. */
  lemma {:induction false} SlotUnfilled(records: seq<MemoryRecord>, i: Slot)
    ensures (Fold(records).capacities[i] == NOT_AVAILABLE)
              <==> (forall k :: 0 <= k < |records| ==> RecordSlot(records[k]) != Some(i))
  {
    if records != [] {
      var prefix, last := records[..|records| - 1], records[|records| - 1];
      assert Fold(records) == Step(Fold(prefix), last);
      SlotUnfilled(prefix, i);
      assert forall k :: 0 <= k < |prefix| ==> prefix[k] == records[k];
      if RecordSlot(last) == Some(i) {
        var text := Capacity.CapacityLabel(last.capacity);
        assert Fold(records).capacities[i] == text;
        assert |text| >= 4;
      } else {
        assert Fold(records).capacities[i] == Fold(prefix).capacities[i];
      }
    }
  }

  /** A slot that some record maps to holds the capacity of the last such record. */
  lemma {:induction false} SlotHoldsLastWrite(records: seq<MemoryRecord>, i: Slot, k: nat)
    requires LastWriter(records, i, k)
    ensures Fold(records).capacities[i] == Capacity.CapacityLabel(records[k].capacity)
  {
    var prefix, last := records[..|records| - 1], records[|records| - 1];
    assert Fold(records) == Step(Fold(prefix), last);
    if k < |records| - 1 {
      assert RecordSlot(last) != Some(i);
      assert LastWriter(prefix, i, k) by {
        assert prefix[k] == records[k];
        forall j | k < j < |prefix|
          ensures RecordSlot(prefix[j]) != Some(i)
        {
          assert prefix[j] == records[j];
        }
      }
      SlotHoldsLastWrite(prefix, i, k);
    }
  }

  /**
   Slot i stays "N/A" exactly when no record maps to it; otherwise it holds
   the capacity of the last record that maps to it.
   */
  lemma SlotContents(records: seq<MemoryRecord>, i: Slot)
    ensures (Fold(records).capacities[i] == NOT_AVAILABLE)
              <==> (forall k :: 0 <= k < |records| ==> RecordSlot(records[k]) != Some(i))
    ensures forall k: nat :: LastWriter(records, i, k) ==> Fold(records).capacities[i] == Capacity.CapacityLabel(records[k].capacity)
  {
    SlotUnfilled(records, i);
    forall k: nat | LastWriter(records, i, k)
      ensures Fold(records).capacities[i] == Capacity.CapacityLabel(records[k].capacity)
    {
      SlotHoldsLastWrite(records, i, k);
    }
  }

  /** When no record's labels are in the table, all four slots read "N/A". */
  lemma NoMatchLeavesAllUnavailable(records: seq<MemoryRecord>)
    requires forall k :: 0 <= k < |records| ==> RecordSlot(records[k]).None?
    ensures Normalize(records).capacities == [NOT_AVAILABLE, NOT_AVAILABLE, NOT_AVAILABLE, NOT_AVAILABLE]
  {
    var caps := Fold(records).capacities;
    SlotContents(records, 0);
    SlotContents(records, 1);
    SlotContents(records, 2);
    SlotContents(records, 3);
    assert caps == [caps[0], caps[1], caps[2], caps[3]];
  }

  /**
   The memory type is empty exactly when no record has code 26 or 34;
   otherwise it is the generation of the last record that has one.
   */
  lemma {:induction false} MemoryTypeContents(records: seq<MemoryRecord>)
    ensures (Fold(records).memType == "") <==> (forall k :: 0 <= k < |records| ==> TypeLabel(records[k].smbiosMemoryType).None?)
    ensures forall k: nat :: LastTyped(records, k) ==> Fold(records).memType == TypeLabel(records[k].smbiosMemoryType).value
  {
    if records != [] {
      var prefix, last := records[..|records| - 1], records[|records| - 1];
      MemoryTypeContents(prefix);
      assert forall k :: 0 <= k < |prefix| ==> prefix[k] == records[k];
      if TypeLabel(last.smbiosMemoryType).Some? {
        forall k | LastTyped(records, k)
          ensures k == |records| - 1
        {
        }
      } else {
        forall k | LastTyped(records, k)
          ensures LastTyped(prefix, k)
        {
        }
      }
    }
  }

  /**
   Speed and display name come from the last record, whether or not its labels
   matched a slot; with no records they are 0 and the bare separator.
   */
  lemma NormalizeAggregates(records: seq<MemoryRecord>)
    ensures records == [] ==> Normalize(records).speed == 0 && Normalize(records).name == "-"
    ensures records != [] ==>
      var last := records[|records| - 1];
      && Normalize(records).speed == last.configuredClockSpeed
      && Normalize(records).name == DisplayName(last.manufacturer, last.partNumber)
  {
    if records == [] {
      DisplayNameOfNothing();
    }
  }

  /** With both parts present and no padding of their own, nothing is trimmed from the name. */
  lemma DisplayNameUntrimmed(manufacturer: string, partNumber: string)
    requires manufacturer != [] && !Text.IsSpace(manufacturer[0])
    requires partNumber != [] && !Text.IsSpace(partNumber[|partNumber| - 1])
    ensures DisplayName(manufacturer, partNumber) == manufacturer + " - " + partNumber
  {
    var t := manufacturer + " - " + partNumber;
    Text.TrimSpaceOfPadded([], t, []);
    assert [] + t + [] == t;
  }

  /** An empty manufacturer drops its space but keeps the dash. */
  lemma DisplayNameWithoutManufacturer(partNumber: string)
    requires partNumber != [] && !Text.IsSpace(partNumber[|partNumber| - 1])
    ensures DisplayName("", partNumber) == "- " + partNumber
  {
    var t := "- " + partNumber;
    var space := [' '];
    assert t[0] == '-' && t[|t| - 1] == partNumber[|partNumber| - 1];
    assert Text.IsTrimmed(t) && Text.AllSpace(space) && Text.AllSpace([]);
    Text.TrimSpaceOfPadded(space, t, []);
    assert space + t + [] == "" + " - " + partNumber by {
      var sep := "" + " - ";
      assert sep == space + "- " by {
        assert |sep| == 3 && sep[0] == ' ' && sep[1] == '-' && sep[2] == ' ';
      }
      assert space + t + [] == (space + "- ") + partNumber;
    }
  }

  /** An empty part number drops its space but keeps the dash. */
  lemma DisplayNameWithoutPartNumber(manufacturer: string)
    requires manufacturer != [] && !Text.IsSpace(manufacturer[0])
    ensures DisplayName(manufacturer, "") == manufacturer + " -"
  {
    var t := manufacturer + " -";
    var space := [' '];
    assert t[0] == manufacturer[0] && t[|t| - 1] == '-';
    assert Text.IsTrimmed(t) && Text.AllSpace(space) && Text.AllSpace([]);
    Text.TrimSpaceOfPadded([], t, space);
    assert [] + t + space == manufacturer + " - " + "";
  }

  /** With neither part the name is the bare dash. */
  lemma DisplayNameOfNothing()
    ensures DisplayName("", "") == "-"
  {
    var space, dash := [' '], ['-'];
    assert Text.IsTrimmed(dash) && Text.AllSpace(space);
    Text.TrimSpaceOfPadded(space, dash, space);
    var s := "" + " - " + "";
    assert s == space + dash + space by {
      assert |s| == 3 && s[0] == ' ' && s[1] == '-' && s[2] == ' ';
    }
  }

  /** A BANK 1 module of 8 GiB fills slot 1 with "8 GB" and leaves the others "N/A". */
  lemma NormalizeBankOneExample()
    ensures Normalize([MemoryRecord("BANK 1", "", 8589934592, 3200, 1200, "Kingston", "KF432", 26)]).capacities
              == ["N/A", "8 GB", "N/A", "N/A"]
  {
    var r := MemoryRecord("BANK 1", "", 8589934592, 3200, 1200, "Kingston", "KF432", 26);
    assert [r][..0] == [];
    assert RecordSlot(r) == Some(1);
    var caps := Step(INITIAL, r).capacities;
    Capacity.CapacityLabelExamples();
    assert caps[1] == "8 GB";
    assert caps == [caps[0], caps[1], caps[2], caps[3]];
  }

  /** A P0 CHANNEL B / DIMM 2 module of 16 GiB fills slot 3 with "16 GB"; code 34 makes it DDR5. */
  lemma NormalizeChannelBExample()
    ensures Normalize([MemoryRecord("P0 CHANNEL B", "DIMM 2", 17179869184, 4800, 1100, "", "", 34)]).capacities
              == ["N/A", "N/A", "N/A", "16 GB"]
    ensures Normalize([MemoryRecord("P0 CHANNEL B", "DIMM 2", 17179869184, 4800, 1100, "", "", 34)]).memType == "DDR5"
  {
    var r := MemoryRecord("P0 CHANNEL B", "DIMM 2", 17179869184, 4800, 1100, "", "", 34);
    assert [r][..0] == [];
    assert RecordSlot(r) == Some(3);
    var caps := Step(INITIAL, r).capacities;
    Capacity.CapacityLabelExamples();
    assert caps[3] == "16 GB";
    assert caps == [caps[0], caps[1], caps[2], caps[3]];
  }
}
