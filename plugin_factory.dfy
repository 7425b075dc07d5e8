/** The hardware classifier (`_determine_type`) and the choice of plugin at
    the end of `get_plugin_instance`. */
module PluginFactory {
  import opened Builtins
  import opened EntityDefinitions
  import opened PluginBase
  import EvChargerG1
  import EvChargerG2
  import CatalogueProperties

  // ---------------------------------------------------------------------------
  // Classifier
  // ---------------------------------------------------------------------------

  /** "C" serials (first generation): the version from the fifth character. */
  function ChargerVersion(sn: string): bv16
    requires |sn| >= 5
  {
    if sn[4] == '0' then V10 else if sn[4] == '1' then V11 else 0
  }

  /** "C" serials: the phases from the second character. */
  function ChargerPhase(sn: string): bv16
    requires |sn| >= 5
  {
    if sn[1] == '1' then X1 else if sn[1] == '3' then X3 else 0
  }

  /** "C" serials: the power from the third and fourth characters. */
  function ChargerPower(sn: string): bv16
    requires |sn| >= 5
  {
    if sn[2..4] == "07" then POW7 else if sn[2..4] == "11" then POW11 else if sn[2..4] == "22" then POW22 else 0
  }

  /** "50" serials (second generation): the phases from the third character. */
  function HecPhase(sn: string): bv16
    requires |sn| >= 5
  {
    if sn[2] == '3' then X3 else if sn[2] == '2' then X1 else 0
  }

  /** "50" serials: the power from the fifth character. */
  function HecPower(sn: string): bv16
    requires |sn| >= 5
  {
    if sn[4] == 'B' then POW11 else if sn[4] == 'M' then POW22 else if sn[4] == '7' then POW7 else 0
  }

  /** At most one bit of the group is set in `t`. */
  predicate AtMostOneBitIn(t: bv16, group: bv16) {
    var x := t & group;
    x & (x - 1) == 0
  }

  /** A version, a phase and a power bit (each possibly absent) OR-ed together
      keep their groups apart. */
  lemma Compose(v: bv16, x: bv16, p: bv16)
    requires v == 0 || v == V10 || v == V11 || v == V20
    requires x == 0 || x == X1 || x == X3
    requires p == 0 || p == POW7 || p == POW11 || p == POW22
    ensures (v | x | p) & ALL_VER_GROUP == v && (v | x | p) & ALL_X_GROUP == x && (v | x | p) & ALL_POW_GROUP == p
    ensures (v | x | p) & !ALL_GROUPS == 0
  {
  }

  /** The two known prefixes never both apply. */
  lemma PrefixesExclusive(sn: string)
    ensures !(StartsWith(sn, "C") && StartsWith(sn, "50"))
  {
    if StartsWith(sn, "C") {
      assert sn[0] == 'C';
    }
  }

  /** `_determine_type`: the bitmask of a serial number, None for an unknown
      prefix. Both known branches read the fifth character, so a serial of
      fewer than five characters raises IndexError. */
  function DetermineType(sn: string): (r: Result<Option<bv16>>)
    ensures r.Err? <==> (StartsWith(sn, "C") || StartsWith(sn, "50")) && |sn| < 5
    ensures r.Err? ==> r.error == IndexError
    ensures r == Ok(None) <==> !StartsWith(sn, "C") && !StartsWith(sn, "50")
    ensures r.Ok? && r.value.Some? ==>
      var t := r.value.value;
      && AtMostOneBitIn(t, ALL_POW_GROUP) && AtMostOneBitIn(t, ALL_X_GROUP) && AtMostOneBitIn(t, ALL_VER_GROUP)
      && t & !ALL_GROUPS == 0
      && (StartsWith(sn, "C") ==> t & V20 == 0)
      && (StartsWith(sn, "50") ==> t & ALL_VER_GROUP == V20)
  {
    PrefixesExclusive(sn);
    if StartsWith(sn, "C") then
      if |sn| < 5 then Err(IndexError)
      else
        Compose(ChargerVersion(sn), ChargerPhase(sn), ChargerPower(sn));
        Ok(Some(ChargerVersion(sn) | ChargerPhase(sn) | ChargerPower(sn)))
    else if StartsWith(sn, "50") then
      if |sn| < 5 then Err(IndexError)
      else
        Compose(V20, HecPhase(sn), HecPower(sn));
        Ok(Some(V20 | HecPhase(sn) | HecPower(sn)))
    else Ok(None)
  }

  /** A "C" serial, character by character. */
  lemma ChargerSerialBits(sn: string)
    requires StartsWith(sn, "C") && |sn| >= 5
    ensures var t := DetermineType(sn).value.value;
            && (t & V10 != 0 <==> sn[4] == '0') && (t & V11 != 0 <==> sn[4] == '1') && t & V20 == 0
            && (t & X1 != 0 <==> sn[1] == '1') && (t & X3 != 0 <==> sn[1] == '3')
            && (t & POW7 != 0 <==> sn[2..4] == "07") && (t & POW11 != 0 <==> sn[2..4] == "11")
            && (t & POW22 != 0 <==> sn[2..4] == "22")
  {
    Compose(ChargerVersion(sn), ChargerPhase(sn), ChargerPower(sn));
  }

  /** A "50" serial, character by character. */
  lemma HecSerialBits(sn: string)
    requires StartsWith(sn, "50") && |sn| >= 5
    ensures var t := DetermineType(sn).value.value;
            && t & ALL_VER_GROUP == V20
            && (t & X3 != 0 <==> sn[2] == '3') && (t & X1 != 0 <==> sn[2] == '2')
            && (t & POW11 != 0 <==> sn[4] == 'B') && (t & POW22 != 0 <==> sn[4] == 'M')
            && (t & POW7 != 0 <==> sn[4] == '7')
  {
    PrefixesExclusive(sn);
    Compose(V20, HecPhase(sn), HecPower(sn));
  }

  /** Classified serials of both generations. */
  lemma DetermineTypeExamples()
    ensures DetermineType("C10701234") == Ok(Some(V10 | X1 | POW7))
    ensures DetermineType("C32211111") == Ok(Some(V11 | X3 | POW22))
    ensures DetermineType("50237B123") == Ok(Some(V20 | X1 | POW7))
    ensures DetermineType("5032M") == Ok(Some(V20 | X3 | POW22))
  {
    ChargerExample("C10701234");
    assert "C10701234"[2..4] == "07";
    ChargerExample("C32211111");
    assert "C32211111"[2..4] == "22";
    HecExample("50237B123");
    HecExample("5032M");
  }

  /** An unknown power, an unknown prefix, and the two too-short serials. */
  lemma DetermineTypeEdgeExamples()
    ensures DetermineType("C9999") == Ok(Some(0))
    ensures DetermineType("ZZZZ") == Ok(None)
    ensures DetermineType("C107") == Err(IndexError)
    ensures DetermineType("50") == Err(IndexError)
  {
    ChargerExample("C9999");
    assert "C9999"[2..4] == "99";
    assert "ZZZZ"[0] == 'Z';
    assert !StartsWith("ZZZZ", "C") && !StartsWith("ZZZZ", "50");
    ChargerExample("C107");
    HecExample("50");
  }

  /** A serial spelled out with a leading 'C' takes the first branch. */
  lemma ChargerExample(sn: string)
    requires |sn| >= 1 && sn[0] == 'C'
    ensures StartsWith(sn, "C") && !StartsWith(sn, "50")
  {
    assert sn[..1] == "C";
  }

  /** A serial spelled out with a leading "50" takes the second branch. */
  lemma HecExample(sn: string)
    requires |sn| >= 2 && sn[0] == '5' && sn[1] == '0'
    ensures StartsWith(sn, "50") && !StartsWith(sn, "C")
  {
    assert sn[..2] == "50";
  }

  // ---------------------------------------------------------------------------
  // Dispatch
  // ---------------------------------------------------------------------------

  /** `get_plugin_instance` once the serial number is read: a falsy mask
      (None or 0) raises ValueError, a V10 or V11 bit picks the first-generation
      plugin, otherwise a V20 bit the second-generation one, otherwise
      ValueError. */
  function GetPluginInstance(sn: string): (r: Result<Plugin>)
    ensures r.Err? <==> DetermineType(sn).Err? || DetermineType(sn) == Ok(None)
                        || (DetermineType(sn).Ok? && DetermineType(sn).value.Some? && DetermineType(sn).value.value & ALL_VER_GROUP == 0)
    ensures r.Ok? ==> r.value.serialnumber == sn && r.value.invertertype == DetermineType(sn).value
    ensures r.Ok? && r.value.generation == Gen1 ==>
      r.value.pluginName == EvChargerG1.PluginName && r.value.hwVersion == EvChargerG1.HwVersion
    ensures r.Ok? && r.value.generation == Gen2 ==>
      r.value.pluginName == EvChargerG2.PluginName && r.value.hwVersion == EvChargerG2.HwVersion
  {
    match DetermineType(sn)
    case Err(e) => Err(e)
    case Ok(t) =>
      if t.None? || t.value == 0 then Err(ValueError)
      else if t.value & V10 != 0 || t.value & V11 != 0 then
        Ok(Plugin(EvChargerG1.PluginName, Gen1, t, sn, EvChargerG1.HwVersion))
      else if t.value & V20 != 0 then
        Ok(Plugin(EvChargerG2.PluginName, Gen2, t, sn, EvChargerG2.HwVersion))
      else Err(ValueError)
  }

  /** The plugin in terms of the serial number: the first generation exactly
      for "C" serials whose fifth character is '0' or '1', the second exactly
      for "50" serials of five characters or more. */
  lemma DispatchBySerial(sn: string)
    ensures (GetPluginInstance(sn).Ok? && GetPluginInstance(sn).value.generation == Gen1)
       <==> StartsWith(sn, "C") && |sn| >= 5 && (sn[4] == '0' || sn[4] == '1')
    ensures (GetPluginInstance(sn).Ok? && GetPluginInstance(sn).value.generation == Gen2)
       <==> StartsWith(sn, "50") && |sn| >= 5
    ensures GetPluginInstance(sn) == Err(ValueError)
       <==> (!StartsWith(sn, "C") && !StartsWith(sn, "50"))
            || (StartsWith(sn, "C") && |sn| >= 5 && sn[4] != '0' && sn[4] != '1')
  {
    if StartsWith(sn, "C") && |sn| >= 5 {
      ChargerSerialBits(sn);
      var t := DetermineType(sn).value.value;
      assert t & ALL_VER_GROUP == ChargerVersion(sn) by {
        Compose(ChargerVersion(sn), ChargerPhase(sn), ChargerPower(sn));
      }
    } else if StartsWith(sn, "50") && |sn| >= 5 {
      HecSerialBits(sn);
    }
  }

  /** The model name the chosen plugin reports for a first-generation serial. */
  lemma ModelNameBySerial(sn: string)
    requires StartsWith(sn, "C") && |sn| >= 5 && sn[4] == '0' && sn[1] == '3' && sn[2..4] == "22"
    ensures GetPluginInstance(sn).Ok?
    ensures EvChargerG1.InverterModel(GetPluginInstance(sn).value) == Ok("X3-EVC-22kW")
  {
    DispatchBySerial(sn);
    ChargerSerialBits(sn);
    var t := DetermineType(sn).value.value;
    assert PhaseLabel(t) == "X3";
    assert PowerLabel(t) == "22kW";
    assert "X3" + "-EVC-" + "22kW" == "X3-EVC-22kW";
  }

  /** Every classified second-generation device gets a plugin whose mask the
      first-generation controls never match. */
  lemma SecondGenerationGetsNoControls(sn: string, k: int)
    requires GetPluginInstance(sn).Ok? && GetPluginInstance(sn).value.generation == Gen2
    requires 0 <= k < |ControlTypes|
    ensures var p := GetPluginInstance(sn).value;
            !Matches(p.invertertype, ControlTypes[k].allowedtypes, ControlTypes[k].blacklist, p.serialnumber)
  {
    DispatchBySerial(sn);
    HecSerialBits(sn);
    CatalogueProperties.NoControlForSecondGeneration(DetermineType(sn).value.value, sn, k);
  }
}
