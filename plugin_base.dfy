/** What the two charger plugins share: the values the codec produces, the
    plugin record, the scale codec (`_apply_scale` / `_reverse_scale`), the
    bitmask matcher (`matchWithMask`) and the model-name labels. */
module PluginBase {
  import opened Builtins
  import opened EntityDefinitions

  // ---------------------------------------------------------------------------
  // Values
  // ---------------------------------------------------------------------------

  type Hour = h: int | 0 <= h < 24
  type Minute = m: int | 0 <= m < 60

  /** The fields of a `datetime.datetime`, in the local time zone. */
  datatype DateTime = DateTime(year: int, month: int, day: int, hour: int, minute: int, second: int)

  /** The Python values that flow through the codec. */
  datatype Value =
    | IntV(i: int)                                   // an int
    | StrV(s: string)                                // a str
    | TimeV(hour: Hour, minute: Minute)              // a datetime.time (always in range)
    | StampV(stamp: DateTime)                        // a local-time datetime.datetime
    | ScaledV(raw: int, exp: nat, rounding: nat)     // the float round(raw * 10^-exp, rounding)

  /** The values a platform hands to a write: a number, an option text or a time. */
  predicate Writable(v: Value) {
    v.IntV? || v.StrV? || v.TimeV?
  }

  /** The hardware generation whose plugin class is in use. */
  datatype Generation = Gen1 | Gen2

  /** A plugin instance. The core only ever reads its fields. */
  datatype Plugin = Plugin(
    pluginName: string,
    generation: Generation,
    invertertype: Option<bv16>,
    serialnumber: string,
    hwVersion: string)

  // ---------------------------------------------------------------------------
  // Lookup tables
  // ---------------------------------------------------------------------------

  /** `table.get(key)`: the text of the first entry with that key. */
  function Lookup(t: ScaleTable, key: int): (r: Option<string>)
    ensures r.None? <==> forall j | 0 <= j < |t| :: t[j].0 != key
    ensures r.Some? ==> exists j | 0 <= j < |t| :: t[j] == (key, r.value)
  {
    if t == [] then None
    else if t[0].0 == key then Some(t[0].1)
    else
      var r := Lookup(t[1..], key);
      assert forall j | 1 <= j < |t| :: t[j] == t[1..][j - 1];
      r
  }

  /** `next((key for key, val in table.items() if val == text), None)`:
      the key of the first entry whose text is `text`. */
  function FirstKeyFor(t: ScaleTable, text: string): (r: Option<int>)
    ensures r.None? <==> forall j | 0 <= j < |t| :: t[j].1 != text
    ensures r.Some? ==> exists j | 0 <= j < |t| ::
      t[j] == (r.value, text) && forall i | 0 <= i < j :: t[i].1 != text
  {
    if t == [] then None
    else if t[0].1 == text then Some(t[0].0)
    else
      var r := FirstKeyFor(t[1..], text);
      assert forall j | 1 <= j < |t| :: t[j] == t[1..][j - 1];
      r
  }

  // ---------------------------------------------------------------------------
  // Scale codec
  // ---------------------------------------------------------------------------

  /** `_apply_scale`. A dict maps an int key to its text and anything else to
      "Unknown"; a multiplier scales an int; a multiplication or rounding that
      raises (a str, time or datetime operand) is suppressed and leaves the
      value as it was; a `None` scale leaves every value as it was. */
  function ApplyScale(scale: Scale, rounding: nat, v: Value): (r: Value)
    ensures scale.Table? ==> r.StrV?
    ensures !scale.Table? && !v.IntV? ==> r == v
    ensures scale.NoScale? ==> r == v
  {
    match scale
    case NoScale => v
    case Table(t) =>
      if v.IntV? && Lookup(t, v.i).Some? then StrV(Lookup(t, v.i).value) else StrV("Unknown")
    case Factor(k) => if v.IntV? then IntV(v.i * k) else v
    case Decimal(e) => if v.IntV? then ScaledV(v.i, e, rounding) else v
  }

  /** `_reverse_scale`. A dict gives the first key whose text equals the value,
      or None; a multiplier gives `round(value / scale)`; a division that raises
      (a str or time operand, or a zero scale) leaves `original_value`
      unassigned, so the `return` raises UnboundLocalError; a `None` scale
      leaves the value as it was. */
  function ReverseScale(scale: Scale, v: Value): (r: Result<Option<Value>>)
    requires Writable(v)
    ensures r.Err? ==> r.error == UnboundLocalError && (scale.Factor? || scale.Decimal?)
    ensures r.Ok? && r.value.Some? ==> Writable(r.value.value)
    ensures scale.Table? ==> (r.Ok? && (r.value.Some? ==> r.value.value.IntV?))
  {
    match scale
    case NoScale => Ok(Some(v))
    case Table(t) =>
      if v.StrV? && FirstKeyFor(t, v.s).Some? then Ok(Some(IntV(FirstKeyFor(t, v.s).value))) else Ok(None)
    case Factor(k) =>
      if v.IntV? && k != 0 then Ok(Some(IntV(RoundQuotient(v.i, k)))) else Err(UnboundLocalError)
    case Decimal(e) =>
      if v.IntV? then Ok(Some(IntV(v.i * Pow10(e)))) else Err(UnboundLocalError)
  }

  /** With a dict scale, a key present in the table decodes to its text. */
  lemma ApplyTableHit(t: ScaleTable, rounding: nat, j: int)
    requires DistinctKeys(t) && 0 <= j < |t|
    ensures ApplyScale(Table(t), rounding, IntV(t[j].0)) == StrV(t[j].1)
  {
    var r := Lookup(t, t[j].0);
    var j' :| 0 <= j' < |t| && t[j'] == (t[j].0, r.value);
    assert j' == j;
  }

  /** With a dict scale, an int that is no key, and every non-int, decodes to "Unknown". */
  lemma ApplyTableMiss(t: ScaleTable, rounding: nat, v: Value)
    requires !v.IntV? || forall j | 0 <= j < |t| :: t[j].0 != v.i
    ensures ApplyScale(Table(t), rounding, v) == StrV("Unknown")
  {
  }

  /** With a dict scale, a text reverses to the key of its first entry, and a
      text no entry has reverses to None. */
  lemma {:induction false} ReverseTableFirstKey(t: ScaleTable, text: string, j: int)
    requires 0 <= j < |t| && t[j].1 == text
    requires forall i | 0 <= i < j :: t[i].1 != text
    ensures ReverseScale(Table(t), StrV(text)) == Ok(Some(IntV(t[j].0)))
    decreases |t|
  {
    if t[0].1 != text {
      assert j != 0;
      forall i | 0 <= i < j - 1
        ensures t[1..][i].1 != text
      {
        assert t[1..][i] == t[i + 1];
      }
      ReverseTableFirstKey(t[1..], text, j - 1);
    }
  }

  /** Round trip of a lookup table: for a table with distinct keys and distinct
      texts, reversing the text of any key gives that key back. */
  lemma TableRoundTrip(t: ScaleTable, rounding: nat, j: int)
    requires DistinctKeys(t) && DistinctValues(t) && 0 <= j < |t|
    ensures ReverseScale(Table(t), ApplyScale(Table(t), rounding, IntV(t[j].0))) == Ok(Some(IntV(t[j].0)))
  {
    ApplyTableHit(t, rounding, j);
    ReverseTableFirstKey(t, t[j].1, j);
  }

  /** Round trip of an integer multiplier: for every non-zero multiplier and
      every int, reversing the scaled value gives the int back. */
  lemma FactorRoundTrip(k: int, rounding: nat, i: int)
    requires k != 0
    ensures ReverseScale(Factor(k), ApplyScale(Factor(k), rounding, IntV(i))) == Ok(Some(IntV(i)))
  {
    RoundQuotientExact(i, k);
  }

  /** Reversing a 10^-e scale (0.1, 0.01) gives the multiple of 10^e that the
      same scale maps back to the entered number; applying two such reverses
      is one reverse by the summed exponent. */
  lemma DecimalReverseIsExact(e: nat, f: nat, i: int)
    ensures var r := ReverseScale(Decimal(e), IntV(i));
            && r.Ok? && r.value.Some? && r.value.value.IntV?
            && r.value.value.i % Pow10(e) == 0 && r.value.value.i / Pow10(e) == i
    ensures ReverseScale(Decimal(f), ReverseScale(Decimal(e), IntV(i)).value.value)
         == ReverseScale(Decimal(e + f), IntV(i))
  {
    ExactMultiple(i, Pow10(e));
    Pow10Add(e, f);
    assert i * Pow10(e) * Pow10(f) == i * (Pow10(e) * Pow10(f));
  }

  /** Scale 1 and scale None are the identity in both directions on ints. */
  lemma IdentityScales(rounding: nat, i: int)
    ensures ApplyScale(Factor(1), rounding, IntV(i)) == IntV(i)
    ensures ReverseScale(Factor(1), IntV(i)) == Ok(Some(IntV(i)))
    ensures ApplyScale(NoScale, rounding, IntV(i)) == IntV(i)
    ensures ReverseScale(NoScale, IntV(i)) == Ok(Some(IntV(i)))
  {
    FactorRoundTrip(1, rounding, i);
  }

  // ---------------------------------------------------------------------------
  // Bitmask matcher
  // ---------------------------------------------------------------------------

  /** One group of `matchWithMask`: the entity names no bit of the group, or the
      device and the entity share a bit of it. */
  predicate GroupMatch(device: bv16, entity: bv16, group: bv16) {
    (device & entity & group != 0) || (entity & group == 0)
  }

  /** The serial number starts with one of the blacklisted prefixes. */
  predicate Blacklisted(serial: string, blacklist: Option<seq<string>>) {
    blacklist.Some? && exists j | 0 <= j < |blacklist.value| :: StartsWith(serial, blacklist.value[j])
  }

  /** The intended meaning of `matchWithMask`: a classified device, all three
      groups matched, and a serial number that is not blacklisted. */
  predicate Matches(invertertype: Option<bv16>, entity: bv16, blacklist: Option<seq<string>>, serial: string) {
    && invertertype.Some? && invertertype.value != 0
    && GroupMatch(invertertype.value, entity, ALL_POW_GROUP)
    && GroupMatch(invertertype.value, entity, ALL_X_GROUP)
    && GroupMatch(invertertype.value, entity, ALL_VER_GROUP)
    && !Blacklisted(serial, blacklist)
  }

  /** `matchWithMask` with the blacklist read from the plugin's serial number.
      Reading a plugin value changes no field of it. */
  method MatchWithMask(p: Plugin, entitymask: bv16, blacklist: Option<seq<string>>) returns (r: bool)
    ensures r == Matches(p.invertertype, entitymask, blacklist, p.serialnumber)
  {
    if p.invertertype.None? || p.invertertype.value == 0 {
      return false;
    }
    var t := p.invertertype.value;
    var powmatch := GroupMatch(t, entitymask, ALL_POW_GROUP);
    var xmatch := GroupMatch(t, entitymask, ALL_X_GROUP);
    var vermatch := GroupMatch(t, entitymask, ALL_VER_GROUP);
    var blacklisted := false;
    if blacklist.Some? {
      var prefixes := blacklist.value;
      var i := 0;
      while i < |prefixes|
        invariant 0 <= i <= |prefixes|
        invariant blacklisted <==> exists j | 0 <= j < i :: StartsWith(p.serialnumber, prefixes[j])
      {
        if StartsWith(p.serialnumber, prefixes[i]) {
          blacklisted := true;
        }
        i := i + 1;
      }
    }
    r := (powmatch && xmatch && vermatch) && !blacklisted;
  }

  /** `matchWithMask` exactly as written: the blacklist loop reads
      `self._serialnumber`, a field the plugin does not have, so any non-empty
      blacklist raises AttributeError once the device is classified. */
  function MatchWithMaskAsWritten(p: Plugin, entitymask: bv16, blacklist: Option<seq<string>>): (r: Result<bool>)
    ensures r.Err? <==> p.invertertype.Some? && p.invertertype.value != 0 && blacklist.Some? && blacklist.value != []
    ensures r.Ok? ==> r.value == Matches(p.invertertype, entitymask, blacklist, p.serialnumber)
  {
    if p.invertertype.None? || p.invertertype.value == 0 then Ok(false)
    else if blacklist.Some? && blacklist.value != [] then Err(AttributeError)
    else
      var t := p.invertertype.value;
      Ok(GroupMatch(t, entitymask, ALL_POW_GROUP) && GroupMatch(t, entitymask, ALL_X_GROUP)
         && GroupMatch(t, entitymask, ALL_VER_GROUP))
  }

  /** The blacklist counterexample: a device that every group admits, a
      blacklist prefix of its serial number; the intended matcher excludes it,
      the code as written raises. */
  lemma BlacklistAsWrittenRaises()
    ensures var p := Plugin("solax_ev_charger", Gen1, Some(V10 | X1 | POW7), "C1070099", "G1");
            && MatchWithMaskAsWritten(p, G1, Some(["C107"])) == Err(AttributeError)
            && !Matches(p.invertertype, G1, Some(["C107"]), p.serialnumber)
            && Matches(p.invertertype, G1, None, p.serialnumber)
  {
    assert StartsWith("C1070099", ["C107"][0]);
  }

  /** An unclassified device (no mask, or mask 0) matches no entity. */
  lemma UnclassifiedMatchesNothing(invertertype: Option<bv16>, entity: bv16, blacklist: Option<seq<string>>, serial: string)
    requires invertertype.None? || invertertype.value == 0
    ensures !Matches(invertertype, entity, blacklist, serial)
  {
  }

  /** OR within the power group, bit by bit: an entity that names no power bit
      always matches; otherwise it matches iff some power bit is set in both. */
  lemma PowGroupIsOrOfBits(device: bv16, entity: bv16)
    ensures GroupMatch(device, entity, ALL_POW_GROUP) <==>
      || entity & ALL_POW_GROUP == 0
      || (device & POW7 != 0 && entity & POW7 != 0)
      || (device & POW11 != 0 && entity & POW11 != 0)
      || (device & POW22 != 0 && entity & POW22 != 0)
  {
  }

  /** OR within the phase group, bit by bit. */
  lemma PhaseGroupIsOrOfBits(device: bv16, entity: bv16)
    ensures GroupMatch(device, entity, ALL_X_GROUP) <==>
      || entity & ALL_X_GROUP == 0
      || (device & X1 != 0 && entity & X1 != 0)
      || (device & X3 != 0 && entity & X3 != 0)
  {
  }

  /** OR within the version group, bit by bit. */
  lemma VersionGroupIsOrOfBits(device: bv16, entity: bv16)
    ensures GroupMatch(device, entity, ALL_VER_GROUP) <==>
      || entity & ALL_VER_GROUP == 0
      || (device & V10 != 0 && entity & V10 != 0)
      || (device & V11 != 0 && entity & V11 != 0)
      || (device & V20 != 0 && entity & V20 != 0)
  {
  }

  /** AND across groups and the blacklist exclusion: a serial number with a
      blacklisted prefix is excluded even when every group matches. */
  lemma BlacklistExcludes(t: bv16, entity: bv16, prefixes: seq<string>, serial: string, j: int)
    requires 0 <= j < |prefixes| && StartsWith(serial, prefixes[j])
    ensures !Matches(Some(t), entity, Some(prefixes), serial)
  {
  }

  /** Without a blacklist, the result depends on the masks only. */
  lemma MatchIgnoresSerialWithoutBlacklist(t: Option<bv16>, entity: bv16, serial1: string, serial2: string)
    ensures Matches(t, entity, None, serial1) == Matches(t, entity, Some([]), serial2)
  {
  }

  // ---------------------------------------------------------------------------
  // Model name labels (`inverter_model`)
  // ---------------------------------------------------------------------------

  /** The phase part of the model name: X1 takes precedence over X3; no phase
      bit gives the empty text. */
  function PhaseLabel(t: bv16): (r: string)
    ensures r == "X1" <==> t & X1 != 0
    ensures r == "X3" <==> t & X1 == 0 && t & X3 != 0
    ensures r == "" <==> t & ALL_X_GROUP == 0
  {
    if t & X1 != 0 then "X1" else if t & X3 != 0 then "X3" else ""
  }

  /** The power part of the model name: POW7 before POW11 before POW22; no
      power bit gives the empty text. */
  function PowerLabel(t: bv16): (r: string)
    ensures r == "7kW" <==> t & POW7 != 0
    ensures r == "11kW" <==> t & POW7 == 0 && t & POW11 != 0
    ensures r == "22kW" <==> t & POW7 == 0 && t & POW11 == 0 && t & POW22 != 0
    ensures r == "" <==> t & ALL_POW_GROUP == 0
  {
    if t & POW7 != 0 then "7kW" else if t & POW11 != 0 then "11kW" else if t & POW22 != 0 then "22kW" else ""
  }

  /** `f"{phase}-{family}-{p}"`; with no mask, `None & X1` raises TypeError. */
  function ModelName(invertertype: Option<bv16>, family: string): (r: Result<string>)
    ensures r.Err? <==> invertertype.None?
    ensures r.Ok? ==> r.value == PhaseLabel(invertertype.value) + "-" + family + "-" + PowerLabel(invertertype.value)
  {
    if invertertype.None? then Err(TypeError)
    else Ok(PhaseLabel(invertertype.value) + "-" + family + "-" + PowerLabel(invertertype.value))
  }
}
