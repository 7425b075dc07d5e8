/** The first-generation EV charger plugin: its model name, its read table
    (`map_data`) and its write table (`map_payload`). */
module EvChargerG1 {
  import opened Builtins
  import opened EntityDefinitions
  import opened PluginBase
  import opened Registers
  import CatalogueProperties

  const PluginName: string := "solax_ev_charger"
  const HwVersion: string := "G1"

  /** `inverter_model`: "{phase}-EVC-{power}"; with no mask the `&` raises TypeError. */
  function InverterModel(p: Plugin): (r: Result<string>)
    ensures r.Err? <==> p.invertertype.None?
    ensures r.Ok? ==> r.value == PhaseLabel(p.invertertype.value) + "-EVC-" + PowerLabel(p.invertertype.value)
  {
    ModelName(p.invertertype, "EVC")
  }

  /** X1 wins over X3 and 7 kW over 11 kW and 22 kW; an empty group gives "". */
  lemma InverterModelExamples()
    ensures InverterModel(Plugin(PluginName, Gen1, Some(V10 | X1 | POW7), "C10701234", HwVersion)) == Ok("X1-EVC-7kW")
    ensures InverterModel(Plugin(PluginName, Gen1, Some(V11 | X1 | X3 | POW11 | POW22), "", HwVersion)) == Ok("X1-EVC-11kW")
    ensures InverterModel(Plugin(PluginName, Gen1, Some(V10), "", HwVersion)) == Ok("-EVC-")
    ensures InverterModel(Plugin(PluginName, Gen1, None, "", HwVersion)) == Err(TypeError)
  {
    assert PhaseLabel(V10 | X1 | POW7) == "X1" && PowerLabel(V10 | X1 | POW7) == "7kW";
    assert "X1" + "-EVC-" + "7kW" == "X1-EVC-7kW";
    assert PhaseLabel(V11 | X1 | X3 | POW11 | POW22) == "X1" && PowerLabel(V11 | X1 | X3 | POW11 | POW22) == "11kW";
    assert "X1" + "-EVC-" + "11kW" == "X1-EVC-11kW";
    assert PhaseLabel(V10) == "" && PowerLabel(V10) == "";
    assert "" + "-EVC-" + "" == "-EVC-";
  }

  // ---------------------------------------------------------------------------
  // Read table
  // ---------------------------------------------------------------------------

  /** The `match descr.register` of `map_data`. */
  function ReadSource(register: int): Source {
    match register
    case 0xF001 => DataTimestamp(84, 83, 82)
    case 0x600 => InfoText(2)
    case 0x60C => SetWord(0)
    case 0x60D => SetWord(1)
    case 0x60E => SetWord(2)
    case 0x60F => SetWord(3)
    case 0x610 => SetWord(4)
    case 0x613 => SetWord(11)
    case 0x625 => DataWord(65)
    case 0x668 => SetWord(76)
    case 0x634 => SetTimeOfDay(12)
    case 0x636 => SetTimeOfDay(13)
    case 0x638 => SetTimeOfDay(15)
    case 0x63A => SetWord(14)
    case 0x0 => DataWord(2)
    case 0x1 => DataWord(3)
    case 0x2 => DataWord(4)
    case 0x4 => DataWord(5)
    case 0x5 => DataWord(6)
    case 0x6 => DataWord(7)
    case 0x8 => DataWord(8)
    case 0x9 => DataWord(9)
    case 0xA => DataWord(10)
    case 0xB => DataWord(11)
    case 0xC => DataWord(33)
    case 0xD => DataWord(34)
    case 0xE => DataWord(35)
    case 0xF => DataWord(12)
    case 0x10 => DataPair(15, 14, 0)
    case 0x12 => DataWord(16)
    case 0x13 => DataWord(17)
    case 0x14 => DataWord(18)
    case 0x15 => DataWord(19)
    case 0x16 => DataWord(20)
    case 0x17 => DataWord(21)
    case 0x18 => DataWord(22)
    case 0x1C => DataWord(24)
    case 0x1D => DataWord(26)
    case 0x106 => DataWord(0)
    case 0x25 => SetFirmware(19)
    case 0x2B => DataPair(81, 80, 1)
    case _ => Unmapped
  }

  /** The register ids the read table knows. */
  const ReadIds: set<int> := {
    0xF001, 0x600, 0x60C, 0x60D, 0x60E, 0x60F, 0x610, 0x613, 0x625, 0x668, 0x634, 0x636, 0x638, 0x63A,
    0x0, 0x1, 0x2, 0x4, 0x5, 0x6, 0x8, 0x9, 0xA, 0xB, 0xC, 0xD, 0xE, 0xF, 0x10,
    0x12, 0x13, 0x14, 0x15, 0x16, 0x17, 0x18, 0x1C, 0x1D, 0x106, 0x25, 0x2B}

  lemma ReadTableDomain(register: int)
    ensures ReadSource(register).Unmapped? <==> register !in ReadIds
  {
  }

  /** `map_data`: read the register's source from the snapshot, then the
      common tail (None, S16, scale). */
  function MapData(d: Descriptor, snap: Snapshot): (r: Result<Option<Value>>)
    ensures d.register !in ReadIds ==> r == Ok(None)
    ensures !Available(ReadSource(d.register), snap) ==> r == Ok(None)
    ensures r.Err? ==> d.register == 0xF001 || d.kind.ButtonKind? || d.unit.S16?
  {
    ReadTableDomain(d.register);
    Decode(d, ReadSource(d.register), snap)
  }

  /** The maximum-current declarations use register 0x628, which the read
      table does not know: they read None whatever the charger reports. */
  lemma MaxChargeCurrentReadsNone(snap: Snapshot)
    ensures MapData(NumberTypes[0], snap) == Ok(None)
    ensures MapData(NumberTypes[1], snap) == Ok(None)
    ensures MapData(SensorTypes[5], snap) == Ok(None)
  {
  }

  /** Every declaration but the reset button and the 0x628 ones has a read source. */
  lemma CatalogueIsRead(k: int)
    requires 0 <= k < |AllTypes| && !AllTypes[k].kind.ButtonKind? && AllTypes[k].register != 0x628
    ensures AllTypes[k].register in ReadIds
  {
    if k < |ControlTypes| {
      assert AllTypes[k] == ControlTypes[k];
    } else {
      assert AllTypes[k] == SensorTypes[k - |ControlTypes|];
    }
  }

  /** 0x10 is the 32-bit `Data[15] * 65536 + Data[14]`, 0x2B the 32-bit
      `Data[81] * 65536 + Data[80]` plus one; either is None when a word is
      missing. */
  lemma ThirtyTwoBitRegisters(snap: Snapshot)
    ensures Fetch(ReadSource(0x10), snap)
         == if 15 in snap.data && 14 in snap.data then Ok(Some(IntV(Word32(snap.data[15], snap.data[14])))) else Ok(None)
    ensures Fetch(ReadSource(0x2B), snap)
         == if 81 in snap.data && 80 in snap.data then Ok(Some(IntV(Word32(snap.data[81], snap.data[80]) + 1))) else Ok(None)
  {
  }

  /** A high word 1 and a low word 100 are the total 65636, shown in tenths. */
  lemma ChargeAddedTotalExample()
    ensures SensorTypes[25].key == "charge_added_total"
    ensures MapData(SensorTypes[25], Snapshot(map[], map[15 := 1, 14 := 100], map[])) == Ok(Some(ScaledV(65636, 1, 1)))
  {
  }

  /** A grid power word 65535 with the S16 unit reads -1. */
  lemma GridPowerSignedExample()
    ensures SensorTypes[30].key == "grid_power" && SensorTypes[30].unit == S16
    ensures MapData(SensorTypes[30], Snapshot(map[], map[19 := 65535], map[])) == Ok(Some(IntV(-1)))
  {
  }

  /** The three time declarations read a time of day from settings 12, 13
      and 15: None when the position is absent or out of range. */
  lemma TimeReads(k: int, snap: Snapshot)
    requires 0 <= k < |TimeTypes|
    ensures var i := [12, 13, 15][k];
            MapData(TimeTypes[k], snap) == if i in snap.settings then Ok(UnpackTime(snap.settings[i])) else Ok(None)
  {
  }

  /** The firmware version: the text of setting 19 with a '.' after its first character. */
  lemma FirmwareRead(snap: Snapshot)
    ensures SensorTypes[37].key == "firmwareversion"
    ensures MapData(SensorTypes[37], snap)
         == if 19 in snap.settings then Ok(Some(StrV(FirmwareText(snap.settings[19])))) else Ok(None)
  {
  }

  /** The start of the last charge: None until a month is recorded, a
      ValueError for fields that form no date. */
  lemma ChargeStartTimeRead(snap: Snapshot)
    requires 84 in snap.data && 83 in snap.data && 82 in snap.data
    ensures SensorTypes[0].key == "charge_start_time"
    ensures MapData(SensorTypes[0], snap) == UnpackStamp(snap.data[84], snap.data[83], snap.data[82])
  {
  }

  // ---------------------------------------------------------------------------
  // Write table
  // ---------------------------------------------------------------------------

  /** The `match address` of `map_payload`. */
  function WriteTarget(register: int): Target {
    match register
    case 0x60D => Plain(2)
    case 0x60C => Plain(1)
    case 0x60E => Plain(3)
    case 0x60F => Plain(4)
    case 0x610 => Plain(5)
    case 0x613 => Plain(11)
    case 0x618 => Plain(22)
    case 0x625 => Plain(70)
    case 0x668 => Plain(82)
    case 0x634 => PackedTime(12)
    case 0x636 => PackedTime(13)
    case 0x638 => PackedTime(15)
    case 0x63A => Plain(14)
    case _ => NoTarget
  }

  /** The register ids the write table knows. */
  const WriteIds: set<int> := {0x60D, 0x60C, 0x60E, 0x60F, 0x610, 0x613, 0x618, 0x625, 0x668, 0x634, 0x636, 0x638, 0x63A}

  lemma WriteTableDomain(register: int)
    ensures WriteTarget(register).NoTarget? <==> register !in WriteIds
    ensures WriteTarget(register).PackedTime? <==> register == 0x634 || register == 0x636 || register == 0x638
  {
  }

  /** `map_payload`: reverse the scale, then write one register or nothing. */
  function MapPayload(d: Descriptor, v: Value): (r: Result<Option<seq<Write>>>)
    requires Writable(v)
    ensures d.register !in WriteIds && r.Ok? ==> r.value == None
    ensures r.Ok? && r.value.Some? ==> |r.value.value| == 1 && r.value.value[0].reg == WriteTarget(d.register).reg
    ensures d.kind.ButtonKind? ==> r == Err(AttributeError)
  {
    WriteTableDomain(d.register);
    Encode(d, v, WriteTarget(d.register))
  }

  /** The reset button cannot be written: its description has no `scale`. */
  lemma ResetRaises()
    ensures MapPayload(ButtonTypes[0], IntV(1)) == Err(AttributeError)
  {
  }

  /** The time declarations inherit scale 1, so `_reverse_scale` raises on
      every time and no time write is ever produced for them. */
  lemma CatalogueTimeWritesRaise(k: int, hour: Hour, minute: Minute)
    requires 0 <= k < |TimeTypes|
    ensures MapPayload(TimeTypes[k], TimeV(hour, minute)) == Err(UnboundLocalError)
  {
  }

  /** A time written through a description without scale is packed into
      register 12, 13 or 15, and a charger that keeps it at the same settings
      position gives the same time back. */
  lemma TimeWriteReadBack(d: Descriptor, hour: Hour, minute: Minute, snap: Snapshot)
    requires d.kind != ButtonKind && d.unit != S16 && d.scale == NoScale
    requires d.register == 0x634 || d.register == 0x636 || d.register == 0x638
    ensures var w := MapPayload(d, TimeV(hour, minute));
            var i := ReadSource(d.register).index;
            && w == Ok(Some([Write(i, IntToString(hour * 256 + minute))]))
            && MapData(d, StoreSetting(snap, i, w.value.value[0])) == Ok(Some(TimeV(hour, minute)))
  {
    TimeWriteRoundTrip(d, hour, minute, WriteTarget(d.register).reg, ReadSource(d.register).index, snap);
  }

  /** Every option of every select declaration read from the settings: its
      write carries the option's number, and a charger that keeps that number at
      the settings position the register is read from reads the option back. */
  lemma SelectWriteReadBack(k: int, j: int, snap: Snapshot)
    requires 0 <= k < |SelectTypes| && SelectTypes[k].register != 0x625
    requires 0 <= j < |SelectTypes[k].scale.entries|
    ensures var d := SelectTypes[k];
            var text := d.scale.entries[j].1;
            var w := MapPayload(d, StrV(text));
            && w == Ok(Some([Write(WriteTarget(d.register).reg, IntToString(d.scale.entries[j].0))]))
            && ReadSource(d.register).SetWord?
            && MapData(d, StoreSetting(snap, ReadSource(d.register).index, w.value.value[0])) == Ok(Some(StrV(text)))
  {
    var d := SelectTypes[k];
    CatalogueProperties.SelectTablesAreGood(k);
    assert d.unit == NoUnit;
    assert ReadSource(d.register).SetWord? && WriteTarget(d.register).Plain?;
    SelectRoundTrip(d, j, WriteTarget(d.register).reg, ReadSource(d.register).index, snap);
  }

  /** The charge phase is read from realtime word 65 but written to register
      70; the option meter setting is read from setting 0 but written to
      register 1. */
  lemma ReadWriteAsymmetry()
    ensures ReadSource(0x625) == DataWord(65) && WriteTarget(0x625) == Plain(70)
    ensures ReadSource(0x60C) == SetWord(0) && WriteTarget(0x60C) == Plain(1)
    ensures ReadSource(0x668) == SetWord(76) && WriteTarget(0x668) == Plain(82)
  {
  }

  /** The smart boost energy, a number with scale 1, is written to register 14
      and read back from setting 14. */
  lemma SmartBoostEnergyReadBack(n: int, snap: Snapshot)
    ensures NumberTypes[2].key == "smart_boost_energy"
    ensures var w := MapPayload(NumberTypes[2], IntV(n));
            && w == Ok(Some([Write(14, IntToString(n))]))
            && MapData(NumberTypes[2], StoreSetting(snap, 14, w.value.value[0])) == Ok(Some(IntV(n)))
  {
    NumberRoundTrip(NumberTypes[2], n, 14, 14, snap);
  }

  /** An option text that the table does not have is written as "None". */
  lemma UnknownOptionWritesNone(snap: Snapshot)
    ensures MapPayload(SelectTypes[1], StrV("Unknown")) == Ok(Some([Write(2, "None")]))
  {
    CatalogueProperties.SelectTablesAreGood(1);
    EncodeUnknownOption(SelectTypes[1], "Unknown", 2);
  }
}
