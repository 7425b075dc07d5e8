/** The second-generation EV charger plugin (HAC): its model name, its read
    table (`map_data`) and its write table (`map_payload`). */
module EvChargerG2 {
  import opened Builtins
  import opened EntityDefinitions
  import opened PluginBase
  import opened Registers
  import CatalogueProperties
  import EvChargerG1

  const PluginName: string := "solax_ev_charger_g2"
  const HwVersion: string := "G2"

  /** `inverter_model`: "{phase}-HAC-{power}"; with no mask the `&` raises TypeError. */
  function InverterModel(p: Plugin): (r: Result<string>)
    ensures r.Err? <==> p.invertertype.None?
    ensures r.Ok? ==> r.value == PhaseLabel(p.invertertype.value) + "-HAC-" + PowerLabel(p.invertertype.value)
  {
    ModelName(p.invertertype, "HAC")
  }

  lemma InverterModelExamples()
    ensures InverterModel(Plugin(PluginName, Gen2, Some(V20 | X1 | POW7), "50237B123", HwVersion)) == Ok("X1-HAC-7kW")
    ensures InverterModel(Plugin(PluginName, Gen2, Some(V20 | X3 | POW22), "", HwVersion)) == Ok("X3-HAC-22kW")
    ensures InverterModel(Plugin(PluginName, Gen2, None, "", HwVersion)) == Err(TypeError)
  {
    assert PhaseLabel(V20 | X1 | POW7) == "X1" && PowerLabel(V20 | X1 | POW7) == "7kW";
    assert "X1" + "-HAC-" + "7kW" == "X1-HAC-7kW";
    assert PhaseLabel(V20 | X3 | POW22) == "X3" && PowerLabel(V20 | X3 | POW22) == "22kW";
    assert "X3" + "-HAC-" + "22kW" == "X3-HAC-22kW";
  }

  // ---------------------------------------------------------------------------
  // Read table
  // ---------------------------------------------------------------------------

  /** The `match descr.register` of `map_data`. */
  function ReadSource(register: int): Source {
    match register
    case 0x60D => SetWord(1)
    case 0x60E => SetWord(11)
    case 0x60F => SetWord(12)
    case 0x668 => SetWord(3)
    case 0x669 => SetWord(81)
    case 0x0 => DataWord(3)
    case 0x1 => DataWord(4)
    case 0x2 => DataWord(5)
    case 0x4 => DataWord(6)
    case 0x5 => DataWord(7)
    case 0x6 => DataWord(8)
    case 0x8 => DataWord(9)
    case 0x9 => DataWord(10)
    case 0xA => DataWord(11)
    case 0xB => DataWord(12)
    case 0xC => DataWord(33)
    case 0xD => DataWord(34)
    case 0xE => DataWord(35)
    case 0xF => DataWord(13)
    case 0x10 => DataPair(16, 15, 0)
    case 0x1D => DataWord(0)
    case 0x2B => DataPair(50, 49, 1)
    case _ => Unmapped
  }

  /** The register ids the read table knows. */
  const ReadIds: set<int> := {
    0x60D, 0x60E, 0x60F, 0x668, 0x669,
    0x0, 0x1, 0x2, 0x4, 0x5, 0x6, 0x8, 0x9, 0xA, 0xB, 0xC, 0xD, 0xE, 0xF, 0x10, 0x1D, 0x2B}

  lemma ReadTableDomain(register: int)
    ensures ReadSource(register).Unmapped? <==> register !in ReadIds
  {
  }

  /** `map_data`: read the register's source from the snapshot, then the
      common tail (None, S16, scale). */
  function MapData(d: Descriptor, snap: Snapshot): (r: Result<Option<Value>>)
    ensures d.register !in ReadIds ==> r == Ok(None)
    ensures !Available(ReadSource(d.register), snap) ==> r == Ok(None)
    ensures r.Err? ==> d.kind.ButtonKind? || d.unit.S16?
  {
    ReadTableDomain(d.register);
    Decode(d, ReadSource(d.register), snap)
  }

  /** The ids only the first generation reads. */
  const FirstGenerationOnlyIds: set<int> := {
    0xF001, 0x600, 0x60C, 0x610, 0x613, 0x625, 0x634, 0x636, 0x638, 0x63A,
    0x12, 0x13, 0x14, 0x15, 0x16, 0x17, 0x18, 0x1C, 0x25, 0x106}

  /** They read None here whatever the charger reports. */
  lemma FirstGenerationIdsReadNone(d: Descriptor, snap: Snapshot)
    requires d.register in FirstGenerationOnlyIds
    ensures MapData(d, snap) == Ok(None)
  {
    FirstGenerationIdsAreUnknown();
    assert d.register !in ReadIds;
  }

  lemma FirstGenerationIdsAreUnknown()
    ensures FirstGenerationOnlyIds !! ReadIds
  {
  }

  /** They are exactly the ids the first-generation plugin reads and this one
      does not. */
  lemma FirstGenerationOnlyIdsAreExact()
    ensures FirstGenerationOnlyIds == EvChargerG1.ReadIds - ReadIds
  {
  }

  /** Every declaration for the second generation except the 0x628 one has a
      read source here. */
  lemma SecondGenerationSensorsAreRead(k: int)
    requires 0 <= k < |SensorTypes| && SensorTypes[k].allowedtypes & G2 != 0 && SensorTypes[k].register != 0x628
    ensures SensorTypes[k].register in ReadIds
  {
  }

  /** 0x10 is the 32-bit `Data[16] * 65536 + Data[15]`, 0x2B the 32-bit
      `Data[50] * 65536 + Data[49]` plus one; either is None when a word is
      missing. */
  lemma ThirtyTwoBitRegisters(snap: Snapshot)
    ensures Fetch(ReadSource(0x10), snap)
         == if 16 in snap.data && 15 in snap.data then Ok(Some(IntV(Word32(snap.data[16], snap.data[15])))) else Ok(None)
    ensures Fetch(ReadSource(0x2B), snap)
         == if 50 in snap.data && 49 in snap.data then Ok(Some(IntV(Word32(snap.data[50], snap.data[49]) + 1))) else Ok(None)
  {
  }

  // ---------------------------------------------------------------------------
  // Write table
  // ---------------------------------------------------------------------------

  /** The `match address` of `map_payload`. */
  function WriteTarget(register: int): Target {
    match register
    case 0x60D => Plain(52)
    case 0x60E => Plain(62)
    case 0x60F => Plain(63)
    case 0x668 => Plain(54)
    case 0x669 => Plain(132)
    case _ => NoTarget
  }

  /** The register ids the write table knows. */
  const WriteIds: set<int> := {0x60D, 0x60E, 0x60F, 0x668, 0x669}

  lemma WriteTableDomain(register: int)
    ensures WriteTarget(register).NoTarget? <==> register !in WriteIds
    ensures !WriteTarget(register).PackedTime?
  {
  }

  /** `map_payload`: reverse the scale, then write one register or nothing. */
  function MapPayload(d: Descriptor, v: Value): (r: Result<Option<seq<Write>>>)
    requires Writable(v)
    ensures d.register !in WriteIds && r.Ok? ==> r.value == None
    ensures r.Ok? && r.value.Some? ==> |r.value.value| == 1 && r.value.value[0].reg == WriteTarget(d.register).reg
    ensures d.kind.ButtonKind? ==> r == Err(AttributeError)
  {
    WriteTableDomain(d.register);
    Encode(d, v, WriteTarget(d.register))
  }

  /** The write table knows only ids that the read table knows too. */
  lemma WritesAreRead()
    ensures WriteIds <= ReadIds
  {
  }

  /** The write of a time never happens here: there is no time target. */
  lemma NoTimeWrites(d: Descriptor, hour: Hour, minute: Minute)
    requires d.register == 0x634 || d.register == 0x636 || d.register == 0x638
    ensures MapPayload(d, TimeV(hour, minute)).Ok? ==> MapPayload(d, TimeV(hour, minute)).value == None
  {
  }

  /** Read and write positions differ: the eco gear is read from setting 11 but
      written to register 62, the mode from setting 1 but to register 52. */
  lemma ReadWriteAsymmetry()
    ensures ReadSource(0x60E) == SetWord(11) && WriteTarget(0x60E) == Plain(62)
    ensures ReadSource(0x60D) == SetWord(1) && WriteTarget(0x60D) == Plain(52)
    ensures ReadSource(0x60F) == SetWord(12) && WriteTarget(0x60F) == Plain(63)
    ensures ReadSource(0x668) == SetWord(3) && WriteTarget(0x668) == Plain(54)
    ensures ReadSource(0x669) == SetWord(81) && WriteTarget(0x669) == Plain(132)
  {
  }

  /** Every option of a select on a writable register: its write carries the
      option's number, and a charger that keeps it at the settings position the
      register is read from reads the option back. */
  lemma SelectWriteReadBack(d: Descriptor, j: int, snap: Snapshot)
    requires d.register in WriteIds && d.kind.SelectKind? && d.unit != S16 && d.scale.Table?
    requires CatalogueProperties.GoodTable(d.scale.entries)
    requires 0 <= j < |d.scale.entries|
    ensures var text := d.scale.entries[j].1;
            var w := MapPayload(d, StrV(text));
            && w == Ok(Some([Write(WriteTarget(d.register).reg, IntToString(d.scale.entries[j].0))]))
            && MapData(d, StoreSetting(snap, ReadSource(d.register).index, w.value.value[0])) == Ok(Some(StrV(text)))
  {
    SelectRoundTrip(d, j, WriteTarget(d.register).reg, ReadSource(d.register).index, snap);
  }

  /** The charger use mode of the catalogue, written through this plugin and
      read back. The declaration is for the first generation only (see
      `PluginFactory.SecondGenerationGetsNoControls`), so for a second-generation
      device this is a hypothetical descriptor: the lemma states what the write
      table would do with it. */
  lemma UseModeWriteReadBack(j: int, snap: Snapshot)
    requires 0 <= j < |UseModeTable|
    ensures var d := SelectTypes[1];
            var w := MapPayload(d, StrV(UseModeTable[j].1));
            && w == Ok(Some([Write(52, IntToString(UseModeTable[j].0))]))
            && MapData(d, StoreSetting(snap, 1, w.value.value[0])) == Ok(Some(StrV(UseModeTable[j].1)))
  {
    CatalogueProperties.SelectTablesAreGood(1);
    SelectWriteReadBack(SelectTypes[1], j, snap);
  }
}
