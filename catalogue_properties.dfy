/** Laws of the bitmask constants and of the five entity catalogues, and what
    they mean for the matcher. */
module CatalogueProperties {
  import opened Builtins
  import opened EntityDefinitions
  import opened PluginBase

  /** The three groups share no bit, and the two generations share no bit. */
  lemma GroupsDisjoint()
    ensures ALL_POW_GROUP & ALL_X_GROUP == 0 && ALL_POW_GROUP & ALL_VER_GROUP == 0 && ALL_X_GROUP & ALL_VER_GROUP == 0
    ensures G1 == V10 | V11 && G2 == V20 && G1 & G2 == 0
    ensures ALL_POW_GROUP == 0x0007 && ALL_X_GROUP == 0x0300 && ALL_VER_GROUP == 0x0070
  {
  }

  /** Every declared entity mask uses only group bits. */
  lemma AllowedTypesWithinGroups(k: int)
    requires 0 <= k < |AllTypes|
    ensures AllTypes[k].allowedtypes & !ALL_GROUPS == 0
  {
    forall i | 0 <= i < |ControlTypes| ensures ControlTypes[i].allowedtypes & !ALL_GROUPS == 0 {
      ControlMaskIsKnown(i);
      KnownMasksWithinGroups();
    }
    forall i | 0 <= i < |SensorTypes| ensures SensorTypes[i].allowedtypes & !ALL_GROUPS == 0 {
      SensorMaskIsKnown(i);
      KnownMasksWithinGroups();
    }
    ConcatenationWithinGroups(ControlTypes, SensorTypes, k);
  }

  /** A concatenation of two catalogues whose masks use only group bits. */
  lemma ConcatenationWithinGroups(a: seq<Descriptor>, b: seq<Descriptor>, k: int)
    requires forall i | 0 <= i < |a| :: a[i].allowedtypes & !ALL_GROUPS == 0
    requires forall i | 0 <= i < |b| :: b[i].allowedtypes & !ALL_GROUPS == 0
    requires 0 <= k < |a + b|
    ensures (a + b)[k].allowedtypes & !ALL_GROUPS == 0
  {
    if k >= |a| {
      assert (a + b)[k] == b[k - |a|];
    }
  }

  lemma ControlMaskIsKnown(k: int)
    requires 0 <= k < |ControlTypes|
    ensures ControlTypes[k].allowedtypes in ControlMasks
  {
  }

  lemma SensorMaskIsKnown(k: int)
    requires 0 <= k < |SensorTypes|
    ensures SensorTypes[k].allowedtypes in SensorMasks
  {
  }

  lemma KnownMasksWithinGroups()
    ensures forall m | m in ControlMasks + SensorMasks :: m & !ALL_GROUPS == 0
  {
  }

  /** The masks the control and the sensor declarations use. */
  const ControlMasks: set<bv16> := {G1, POW11 | G1, POW7 | POW22 | G1}
  const SensorMasks: set<bv16> := {G1, G1 | G2, X1 | G1 | G2, X3 | G1 | G2, X1 | G1, X3 | G1}

  /** No catalogue entry sets a blacklist. */
  lemma NoBlacklists(k: int)
    requires 0 <= k < |AllTypes|
    ensures AllTypes[k].blacklist == None
  {
  }

  /** As the catalogue declares no blacklist, the `self._serialnumber` defect of
      the matcher is never reached: for every entity the matcher as written
      answers what the intended matcher answers. */
  lemma CatalogueMatcherAsWrittenIsIntended(p: Plugin, k: int)
    requires 0 <= k < |AllTypes|
    ensures MatchWithMaskAsWritten(p, AllTypes[k].allowedtypes, AllTypes[k].blacklist)
         == Ok(Matches(p.invertertype, AllTypes[k].allowedtypes, AllTypes[k].blacklist, p.serialnumber))
  {
    NoBlacklists(k);
  }

  /** The device mask carries exactly one power bit. */
  predicate OnePowBit(t: bv16) {
    t & ALL_POW_GROUP == POW7 || t & ALL_POW_GROUP == POW11 || t & ALL_POW_GROUP == POW22
  }

  /** Two entity masks of the first generation without phase bits, which
      split the power bits between them, apply to a device with one power bit
      never both, and one of them whenever the device is of the first
      generation. */
  lemma PowerSplitIsExclusive(t: bv16, ma: bv16, mb: bv16, serial: string)
    requires OnePowBit(t)
    requires (ma == POW11 | G1 && mb == POW7 | POW22 | G1) || (ma == POW7 | POW22 | G1 && mb == POW11 | G1)
    ensures !(Matches(Some(t), ma, None, serial) && Matches(Some(t), mb, None, serial))
    ensures t & G1 != 0 ==> Matches(Some(t), ma, None, serial) || Matches(Some(t), mb, None, serial)
  {
    PowGroupIsOrOfBits(t, ma);
    PowGroupIsOrOfBits(t, mb);
    PhaseGroupIsOrOfBits(t, ma);
    PhaseGroupIsOrOfBits(t, mb);
    VersionGroupIsOrOfBits(t, ma);
    VersionGroupIsOrOfBits(t, mb);
  }

  /** The two `max_charge_current_setting` declarations: for a device with one
      power bit, at most one of them applies, and exactly one when the device is
      of the first generation. */
  lemma MaxChargeCurrentExclusive(t: bv16, serial: string)
    requires OnePowBit(t)
    ensures var a, b := NumberTypes[0], NumberTypes[1];
            && a.key == b.key
            && !(Matches(Some(t), a.allowedtypes, a.blacklist, serial) && Matches(Some(t), b.allowedtypes, b.blacklist, serial))
            && (t & G1 != 0 ==> Matches(Some(t), a.allowedtypes, a.blacklist, serial) || Matches(Some(t), b.allowedtypes, b.blacklist, serial))
  {
    var a, b := NumberTypes[0], NumberTypes[1];
    assert a.allowedtypes == POW11 | G1 && b.allowedtypes == POW7 | POW22 | G1;
    assert a.blacklist == None && b.blacklist == None;
    PowerSplitIsExclusive(t, a.allowedtypes, b.allowedtypes, serial);
  }

  /** The two `charger_eco_mode` declarations, likewise. */
  lemma EcoModeExclusive(t: bv16, serial: string)
    requires OnePowBit(t)
    ensures var a, b := SelectTypes[3], SelectTypes[4];
            && a.key == b.key
            && !(Matches(Some(t), a.allowedtypes, a.blacklist, serial) && Matches(Some(t), b.allowedtypes, b.blacklist, serial))
            && (t & G1 != 0 ==> Matches(Some(t), a.allowedtypes, a.blacklist, serial) || Matches(Some(t), b.allowedtypes, b.blacklist, serial))
  {
    var a, b := SelectTypes[3], SelectTypes[4];
    assert a.allowedtypes == POW7 | POW22 | G1 && b.allowedtypes == POW11 | G1;
    assert a.blacklist == None && b.blacklist == None;
    PowerSplitIsExclusive(t, a.allowedtypes, b.allowedtypes, serial);
  }

  /** Without the one-power-bit condition a duplicate pair can both apply. */
  lemma DuplicatesOverlapWithoutOnePowBit()
    ensures var t := V10 | X1 | POW7 | POW11;
            Matches(Some(t), NumberTypes[0].allowedtypes, None, "") && Matches(Some(t), NumberTypes[1].allowedtypes, None, "")
  {
  }

  /** A table fit for the select platform: its options are told apart in both
      directions and none of them reads "Unknown", the text of a miss. */
  predicate GoodTable(t: ScaleTable) {
    DistinctKeys(t) && DistinctValues(t) && forall j | 0 <= j < |t| :: t[j].1 != "Unknown"
  }

  /** The nine tables of the catalogue are such tables. */
  lemma TablesAreGood()
    ensures GoodTable(MeterTable) && GoodTable(UseModeTable) && GoodTable(GreenLevelTable)
    ensures GoodTable(EcoLevelTable) && GoodTable(EcoLevel11Table) && GoodTable(StartModeTable)
    ensures GoodTable(BoostModeTable) && GoodTable(ChargePhaseTable) && GoodTable(RunModeTable)
  {
    ModeTablesAreGood();
    LevelTablesAreGood();
    RunModeTableIsGood();
  }

  lemma ModeTablesAreGood()
    ensures GoodTable(MeterTable) && GoodTable(UseModeTable) && GoodTable(StartModeTable)
    ensures GoodTable(BoostModeTable) && GoodTable(ChargePhaseTable)
  {
  }

  lemma LevelTablesAreGood()
    ensures GoodTable(GreenLevelTable) && GoodTable(EcoLevelTable) && GoodTable(EcoLevel11Table)
  {
  }

  /** The run-mode table, the largest, on its own. */
  lemma RunModeTableIsGood()
    ensures GoodTable(RunModeTable)
  {
  }

  /** Every select scale is such a table. */
  lemma SelectTablesAreGood(k: int)
    requires 0 <= k < |SelectTypes|
    ensures SelectTypes[k].kind.SelectKind? && SelectTypes[k].scale.Table? && GoodTable(SelectTypes[k].scale.entries)
  {
    TablesAreGood();
  }

  /** Every sensor that has a table scale has such a table. */
  lemma SensorTablesAreGood(k: int)
    requires 0 <= k < |SensorTypes| && SensorTypes[k].scale.Table?
    ensures GoodTable(SensorTypes[k].scale.entries)
  {
    TablesAreGood();
  }

  /** Every button, time, number and select declaration is for the first
      generation only. */
  lemma ControlsAreFirstGeneration(k: int)
    requires 0 <= k < |ControlTypes|
    ensures ControlTypes[k].allowedtypes & ALL_VER_GROUP == G1
  {
  }

  /** So none of them is created for a second-generation device. */
  lemma NoControlForSecondGeneration(t: bv16, serial: string, k: int)
    requires t & ALL_VER_GROUP == V20 && 0 <= k < |ControlTypes|
    ensures !Matches(Some(t), ControlTypes[k].allowedtypes, ControlTypes[k].blacklist, serial)
  {
    ControlsAreFirstGeneration(k);
    VersionGroupIsOrOfBits(t, ControlTypes[k].allowedtypes);
  }
}
