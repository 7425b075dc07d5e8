/** The static schema of the integration: the applicability bitmask groups,
    the entity descriptor type and the five entity catalogues. */
module EntityDefinitions {
  import opened Builtins

  // ---------------------------------------------------------------------------
  // Bitmask groups. Within a group the bits of an entity mask are read as OR,
  // across groups as AND; a group without bits in the entity mask is satisfied.
  // ---------------------------------------------------------------------------

  const POW7: bv16 := 0x0001
  const POW11: bv16 := 0x0002
  const POW22: bv16 := 0x0004
  const ALL_POW_GROUP: bv16 := POW7 | POW11 | POW22

  const X1: bv16 := 0x0100
  const X3: bv16 := 0x0200
  const ALL_X_GROUP: bv16 := X1 | X3

  const V10: bv16 := 0x0010
  const V11: bv16 := 0x0020
  const V20: bv16 := 0x0040
  const ALL_VER_GROUP: bv16 := V10 | V11 | V20
  const G1: bv16 := V10 | V11
  const G2: bv16 := V20

  const ALLDEFAULT: bv16 := 0

  /** Every bit that belongs to some group. */
  const ALL_GROUPS: bv16 := ALL_POW_GROUP | ALL_X_GROUP | ALL_VER_GROUP

  // ---------------------------------------------------------------------------
  // Descriptors
  // ---------------------------------------------------------------------------

  /** The raw width tag (`unit`) of a descriptor; `NoUnit` is Python's None. */
  datatype Unit = NoUnit | U16 | U32 | S16 | S32

  /** A lookup table from raw integer to display text, in dict insertion order. */
  type ScaleTable = seq<(int, string)>

  /** The `scale` field, whose meaning Python decides by its runtime type:
      `None`, a dict, an integer multiplier, or a float multiplier 10^-exp. */
  datatype Scale =
    | NoScale
    | Table(entries: ScaleTable)
    | Factor(k: int)
    | Decimal(exp: nat)

  /** Which platform's description class a descriptor is. Button descriptions
      have no `scale`, `unit` or `rounding` attribute at all; for them those
      fields of `Descriptor` are placeholders that the codec never reads. */
  datatype Kind = ButtonKind | TimeKind | NumberKind | SelectKind | SensorKind

  datatype Descriptor = Descriptor(
    kind: Kind,
    key: string,
    register: int,
    allowedtypes: bv16,
    scale: Scale,
    unit: Unit,
    rounding: nat,
    blacklist: Option<seq<string>>)

  /** Keys of a table, pairwise different (always true of a Python dict). */
  predicate DistinctKeys(t: ScaleTable) {
    forall i, j | 0 <= i < j < |t| :: t[i].0 != t[j].0
  }

  /** Values of a table, pairwise different: the reverse lookup is unambiguous. */
  predicate DistinctValues(t: ScaleTable) {
    forall i, j | 0 <= i < j < |t| :: t[i].1 != t[j].1
  }

  // Constructors carrying the dataclass defaults: a sensor has scale 1 and
  // rounding 1, a number (and so a time) scale 1 and rounding 1, a select
  // scale None and rounding 1; `unit` and `blacklist` default to None.

  function Button(key: string, register: int, allowedtypes: bv16): Descriptor {
    Descriptor(ButtonKind, key, register, allowedtypes, NoScale, NoUnit, 0, None)
  }

  function Time(key: string, register: int, allowedtypes: bv16): Descriptor {
    Descriptor(TimeKind, key, register, allowedtypes, Factor(1), NoUnit, 1, None)
  }

  function Number(key: string, register: int, allowedtypes: bv16, scale: Scale := Factor(1)): Descriptor {
    Descriptor(NumberKind, key, register, allowedtypes, scale, NoUnit, 1, None)
  }

  function Select(key: string, register: int, allowedtypes: bv16, table: ScaleTable): Descriptor {
    Descriptor(SelectKind, key, register, allowedtypes, Table(table), NoUnit, 1, None)
  }

  function Sensor(key: string, register: int, allowedtypes: bv16, scale: Scale := Factor(1),
                  unit: Unit := NoUnit, rounding: nat := 1): Descriptor {
    Descriptor(SensorKind, key, register, allowedtypes, scale, unit, rounding, None)
  }

  // ---------------------------------------------------------------------------
  // Scale tables shared by several descriptors
  // ---------------------------------------------------------------------------

  const MeterTable: ScaleTable := [(0, "External CT"), (1, "External Meter"), (2, "Inverter")]
  const UseModeTable: ScaleTable := [(0, "Stop"), (1, "Fast"), (2, "ECO"), (3, "Green")]
  const GreenLevelTable: ScaleTable := [(3, "3A"), (6, "6A")]
  const EcoLevelTable: ScaleTable := [(6, "6A"), (10, "10A"), (16, "16A"), (20, "20A"), (25, "25A")]
  const EcoLevel11Table: ScaleTable := [(6, "6A"), (10, "10A")]
  const StartModeTable: ScaleTable := [(0, "Plug & Charge"), (1, "RFID to Charge")]
  const BoostModeTable: ScaleTable := [(0, "Normal"), (1, "Timer Boost"), (2, "Smart Boost")]
  const ChargePhaseTable: ScaleTable := [(0, "Three Phase"), (1, "L1 Phase"), (2, "L2 Phase"), (3, "L3 Phase")]
  const RunModeTable: ScaleTable := [
    (0, "Available"), (1, "Preparing"), (2, "Charging"), (3, "Finishing"), (4, "Fault Mode"),
    (5, "Unavailable"), (6, "Reserved"), (7, "Suspended EV"), (8, "Suspended EVSE"), (9, "Update"),
    (10, "RFID Activation")]

  // ---------------------------------------------------------------------------
  // Catalogues
  // ---------------------------------------------------------------------------

  const ButtonTypes: seq<Descriptor> := [
    Button("reset", 0x618, G1)
  ]

  const TimeTypes: seq<Descriptor> := [
    Time("timed_boost_start", 0x634, G1),
    Time("timed_boost_end", 0x636, G1),
    Time("smart_boost_end", 0x638, G1)
  ]

  const NumberTypes: seq<Descriptor> := [
    Number("max_charge_current_setting", 0x628, POW11 | G1),
    Number("max_charge_current_setting", 0x628, POW7 | POW22 | G1),
    Number("smart_boost_energy", 0x63A, G1)
  ]

  const SelectTypes: seq<Descriptor> := [
    Select("meter_setting", 0x60C, G1, MeterTable),
    Select("charger_use_mode", 0x60D, G1, UseModeTable),
    Select("charger_green_mode", 0x60F, G1, GreenLevelTable),
    Select("charger_eco_mode", 0x60E, POW7 | POW22 | G1, EcoLevelTable),
    Select("charger_eco_mode", 0x60E, POW11 | G1, EcoLevel11Table),
    Select("start_charge_mode", 0x610, G1, StartModeTable),
    Select("boost_mode", 0x613, G1, BoostModeTable),
    Select("charge_phase", 0x625, G1, ChargePhaseTable)
  ]

  const SensorTypes: seq<Descriptor> := [
    Sensor("charge_start_time", 0xF001, G1),
    Sensor("ct_meter_setting", 0x60C, G1, Table(MeterTable)),
    Sensor("charger_use_mode", 0x60D, G1 | G2, Table(UseModeTable)),
    Sensor("start_charge_mode", 0x610, G1, Table(StartModeTable)),
    Sensor("boost_mode", 0x613, G1, Table(BoostModeTable)),
    Sensor("max_charge_current", 0x628, G1 | G2, Factor(1), rounding := 0),
    Sensor("charge_voltage", 0x0, X1 | G1 | G2, Decimal(2)),
    Sensor("charge_voltage_l1", 0x0, X3 | G1 | G2, Decimal(2)),
    Sensor("charge_voltage_l2", 0x1, X3 | G1 | G2, Decimal(2)),
    Sensor("charge_voltage_l3", 0x2, X3 | G1 | G2, Decimal(2)),
    Sensor("charge_current", 0x4, X1 | G1 | G2, Decimal(2)),
    Sensor("charge_current_l1", 0x4, X3 | G1 | G2, Decimal(2)),
    Sensor("charge_current_l2", 0x5, X3 | G1 | G2, Decimal(2)),
    Sensor("charge_current_l3", 0x6, X3 | G1 | G2, Decimal(2)),
    Sensor("charge_power", 0x8, X1 | G1 | G2),
    Sensor("charge_power_l1", 0x8, X3 | G1 | G2),
    Sensor("charge_power_l2", 0x9, X3 | G1 | G2),
    Sensor("charge_power_l3", 0xA, X3 | G1 | G2),
    Sensor("charge_power_total", 0xB, G1 | G2),
    Sensor("charge_time", 0x2B, G1),
    Sensor("charge_frequency", 0xC, X1 | G1 | G2, Decimal(2)),
    Sensor("charge_frequency_l1", 0xC, X3 | G1 | G2, Decimal(2)),
    Sensor("charge_frequency_l2", 0xD, X3 | G1 | G2, Decimal(2)),
    Sensor("charge_frequency_l3", 0xE, X3 | G1 | G2, Decimal(2)),
    Sensor("charge_added", 0xF, G1, Decimal(1)),
    Sensor("charge_added_total", 0x10, G1 | G2, Decimal(1), U32),
    Sensor("grid_current", 0x12, X1 | G1, Decimal(2), S16),
    Sensor("grid_current_l1", 0x12, X3 | G1, Decimal(2), S16),
    Sensor("grid_current_l2", 0x13, X3 | G1, Decimal(2), S16),
    Sensor("grid_current_l3", 0x14, X3 | G1, Decimal(2), S16),
    Sensor("grid_power", 0x15, X1 | G1, unit := S16),
    Sensor("grid_power_l1", 0x15, X3 | G1, unit := S16),
    Sensor("grid_power_l2", 0x16, X3 | G1, unit := S16),
    Sensor("grid_power_l3", 0x17, X3 | G1, unit := S16),
    Sensor("available_pv_power", 0x18, G1, unit := S16),
    Sensor("charger_temperature", 0x1C, G1),
    Sensor("run_mode", 0x1D, G1 | G2, Table(RunModeTable), U16),
    Sensor("firmwareversion", 0x25, G1)
  ]

  /** The descriptors of the four control platforms. */
  const ControlTypes: seq<Descriptor> := ButtonTypes + TimeTypes + NumberTypes + SelectTypes

  const AllTypes: seq<Descriptor> := ControlTypes + SensorTypes
}
