/** The register codec both plugins share: the coordinator's snapshot of the
    charger, the kinds of read source a register id can have, the common tail
    of `map_data` (None propagation, S16 correction, scale), and the common
    shape of `map_payload` (reverse scale, then one write or none). */
module Registers {
  import opened Builtins
  import opened EntityDefinitions
  import opened PluginBase

  // ---------------------------------------------------------------------------
  // Snapshot
  // ---------------------------------------------------------------------------

  /** `coordinator.data`: the `Set`, `Data` and `Info` dicts, each keyed by the
      position of the value in the JSON list the charger returned. */
  datatype Snapshot = Snapshot(settings: map<int, int>, data: map<int, int>, info: map<int, string>)

  /** `dict(enumerate(xs))`: position to element. */
  function Enumerate<T>(xs: seq<T>): (m: map<int, T>)
    ensures forall i :: i in m <==> 0 <= i < |xs|
    ensures forall i | 0 <= i < |xs| :: m[i] == xs[i]
  {
    map i | 0 <= i < |xs| :: xs[i]
  }

  /** The snapshot built from the three lists of one poll. */
  function SnapshotOf(setData: seq<int>, realtime: seq<int>, information: seq<string>): Snapshot {
    Snapshot(Enumerate(setData), Enumerate(realtime), Enumerate(information))
  }

  // ---------------------------------------------------------------------------
  // Read sources
  // ---------------------------------------------------------------------------

  /** Where `map_data` takes the raw value of a register id from. */
  datatype Source =
    | Unmapped                                      // `case _`: no value
    | SetWord(index: int)                           // `Set.get(index)`
    | DataWord(index: int)                          // `Data.get(index)`
    | InfoText(index: int)                          // `Info.get(index)`
    | DataPair(hi: int, lo: int, offset: int)       // `datH * 65536 + datL + offset`
    | SetTimeOfDay(index: int)                      // a time of day packed as (hour << 8) + minute
    | SetFirmware(index: int)                       // a version number shown as "d.ddd"
    | DataTimestamp(ym: int, dh: int, ms: int)      // a date and time packed in three words

  /** Every position the source reads is present in the snapshot. */
  predicate Available(src: Source, snap: Snapshot) {
    match src
    case Unmapped => false
    case SetWord(i) => i in snap.settings
    case DataWord(i) => i in snap.data
    case InfoText(i) => i in snap.info
    case DataPair(hi, lo, _) => hi in snap.data && lo in snap.data
    case SetTimeOfDay(i) => i in snap.settings
    case SetFirmware(i) => i in snap.settings
    case DataTimestamp(ym, dh, ms) => ym in snap.data && dh in snap.data && ms in snap.data
  }

  /** Two snapshots that hold the same values at every position the source reads. */
  predicate AgreeOn(src: Source, a: Snapshot, b: Snapshot) {
    match src
    case Unmapped => true
    case SetWord(i) => SameAt(a.settings, b.settings, i)
    case DataWord(i) => SameAt(a.data, b.data, i)
    case InfoText(i) => SameAt(a.info, b.info, i)
    case DataPair(hi, lo, _) => SameAt(a.data, b.data, hi) && SameAt(a.data, b.data, lo)
    case SetTimeOfDay(i) => SameAt(a.settings, b.settings, i)
    case SetFirmware(i) => SameAt(a.settings, b.settings, i)
    case DataTimestamp(ym, dh, ms) =>
      SameAt(a.data, b.data, ym) && SameAt(a.data, b.data, dh) && SameAt(a.data, b.data, ms)
  }

  predicate SameAt<T(==)>(m1: map<int, T>, m2: map<int, T>, i: int) {
    (i in m1 <==> i in m2) && (i in m1 ==> m1[i] == m2[i])
  }

  // ---------------------------------------------------------------------------
  // Word arithmetic
  // ---------------------------------------------------------------------------

  /** The S16 correction: a raw word of 32768 or more is read as negative. */
  function Signed16(v: int): int {
    if v >= 32768 then v - 65536 else v
  }

  /** On a 16-bit word the correction is the two's-complement reading: a value
      in the signed range with the same bit pattern. */
  lemma Signed16IsTwosComplement(v: int)
    requires 0 <= v < 65536
    ensures -32768 <= Signed16(v) < 32768
    ensures Signed16(v) % 65536 == v
    ensures Signed16(v) < 0 <==> v >= 32768
  {
  }

  /** Every signed 16-bit value is the reading of exactly its own bit pattern. */
  lemma Signed16OfPattern(s: int)
    requires -32768 <= s < 32768
    ensures Signed16(s % 65536) == s
  {
  }

  /** A 32-bit value from its high and low words. */
  function Word32(hi: int, lo: int): int {
    hi * 65536 + lo
  }

  /** The 32-bit join is undone by splitting at 65536. */
  lemma Word32Split(hi: int, lo: int)
    requires 0 <= lo < 65536
    ensures Word32(hi, lo) / 65536 == hi && Word32(hi, lo) % 65536 == lo
  {
  }

  /** Two different word pairs never give the same 32-bit value. */
  lemma Word32Injective(hi1: int, lo1: int, hi2: int, lo2: int)
    requires 0 <= lo1 < 65536 && 0 <= lo2 < 65536
    requires Word32(hi1, lo1) == Word32(hi2, lo2)
    ensures hi1 == hi2 && lo1 == lo2
  {
    Word32Split(hi1, lo1);
    Word32Split(hi2, lo2);
  }

  // ---------------------------------------------------------------------------
  // Time of day
  // ---------------------------------------------------------------------------

  /** `(hour << 8) + minute`. */
  function PackTime(hour: Hour, minute: Minute): (r: int)
    ensures 0 <= r < 24 * 256
  {
    hour * 256 + minute
  }

  /** `hour = val >> 8; minute = val & 0xFF`, kept only when both are in range. */
  function UnpackTime(val: int): (r: Option<Value>)
    ensures r.Some? <==> 0 <= HighByte(val) < 24 && LowByte(val) < 60
    ensures r.Some? ==> r.value.TimeV? && PackTime(r.value.hour, r.value.minute) == val
  {
    var hour, minute := HighByte(val), LowByte(val);
    ByteJoin(val);
    if 0 <= hour < 24 && 0 <= minute < 60 then Some(TimeV(hour, minute)) else None
  }

  /** Unpacking a packed time gives the time back. */
  lemma TimeRoundTrip(hour: Hour, minute: Minute)
    ensures UnpackTime(PackTime(hour, minute)) == Some(TimeV(hour, minute))
  {
    ByteSplit(hour, minute);
  }

  /** 0x0A1E is 10:30; 0x1800 (hour 24) and 0x0A3C (minute 60) are no time. */
  lemma TimeExamples()
    ensures UnpackTime(0x0A1E) == Some(TimeV(10, 30))
    ensures UnpackTime(0x1800) == None
    ensures UnpackTime(0x0A3C) == None
  {
    TimeRoundTrip(10, 30);
  }

  // ---------------------------------------------------------------------------
  // Firmware version
  // ---------------------------------------------------------------------------

  /** `f"{ver[0]}.{ver[1:]}"` with `ver = str(n)`: a '.' after the first character. */
  function FirmwareText(n: int): (r: string)
    ensures |r| == |IntToString(n)| + 1
    ensures r[1] == '.'
    ensures r[..1] + r[2..] == IntToString(n)
  {
    var s := IntToString(n);
    var r := s[..1] + "." + s[1..];
    assert r[..1] == s[..1];
    assert r[2..] == s[1..];
    r
  }

  /** Removing the '.' and reading the digits gives the version number back. */
  lemma FirmwareTextRoundTrip(n: int)
    ensures var r := FirmwareText(n); IsDecimal(r[..1] + r[2..]) && ParseInt(r[..1] + r[2..]) == n
  {
    IntToStringRoundTrip(n);
  }

  lemma FirmwareExample()
    ensures FirmwareText(123) == "1.23"
  {
    assert NatToString(123) == "123" by {
      assert NatToString(12) == "12" by {
        assert NatToString(1) == "1";
      }
    }
  }

  // ---------------------------------------------------------------------------
  // Timestamp
  // ---------------------------------------------------------------------------

  predicate IsLeapYear(y: int) {
    y % 4 == 0 && (y % 100 != 0 || y % 400 == 0)
  }

  function DaysInMonth(y: int, m: int): int
    requires 1 <= m <= 12
  {
    if m == 2 then (if IsLeapYear(y) then 29 else 28)
    else if m == 4 || m == 6 || m == 9 || m == 11 then 30
    else 31
  }

  /** The fields `datetime.datetime` accepts without raising ValueError. */
  predicate ValidDateTime(dt: DateTime) {
    && 1 <= dt.year <= 9999
    && 1 <= dt.month <= 12
    && 1 <= dt.day <= DaysInMonth(dt.year, dt.month)
    && 0 <= dt.hour < 24 && 0 <= dt.minute < 60 && 0 <= dt.second < 60
  }

  /** Year-month, day-hour and minute-second words, high byte first, the year
      counted from 2000. */
  function StampFields(ym: int, dh: int, ms: int): DateTime {
    DateTime(2000 + HighByte(ym), LowByte(ym), HighByte(dh), LowByte(dh), HighByte(ms), LowByte(ms))
  }

  /** The 0xF001 decode: month 0 means no charge has started yet; otherwise
      the fields must form a valid date and time, or `datetime` raises. */
  function UnpackStamp(ym: int, dh: int, ms: int): (r: Result<Option<Value>>)
    ensures r == Ok(None) <==> LowByte(ym) == 0
    ensures r.Err? <==> LowByte(ym) != 0 && !ValidDateTime(StampFields(ym, dh, ms))
    ensures r.Err? ==> r.error == ValueError
    ensures r.Ok? && r.value.Some? ==> r.value.value.StampV? && ValidDateTime(r.value.value.stamp)
  {
    var dt := StampFields(ym, dh, ms);
    if dt.month == 0 then Ok(None)
    else if ValidDateTime(dt) then Ok(Some(StampV(dt)))
    else Err(ValueError)
  }

  /** Every valid date and time from 2000 to 2255 survives packing into the
      three words and unpacking again. */
  lemma StampRoundTrip(dt: DateTime)
    requires ValidDateTime(dt) && 2000 <= dt.year < 2256
    ensures UnpackStamp((dt.year - 2000) * 256 + dt.month, dt.day * 256 + dt.hour,
                        dt.minute * 256 + dt.second) == Ok(Some(StampV(dt)))
  {
    ByteSplit(dt.year - 2000, dt.month);
    ByteSplit(dt.day, dt.hour);
    ByteSplit(dt.minute, dt.second);
  }

  // ---------------------------------------------------------------------------
  // Reading
  // ---------------------------------------------------------------------------

  /** The raw value a source yields, before the S16 correction and the scale:
      None when a position it needs is absent. */
  function Fetch(src: Source, snap: Snapshot): (r: Result<Option<Value>>)
    ensures !Available(src, snap) ==> r == Ok(None)
    ensures r.Err? ==> src.DataTimestamp? && r.error == ValueError
    ensures src.SetWord? && Available(src, snap) ==> r == Ok(Some(IntV(snap.settings[src.index])))
    ensures src.DataWord? && Available(src, snap) ==> r == Ok(Some(IntV(snap.data[src.index])))
    ensures src.InfoText? && Available(src, snap) ==> r == Ok(Some(StrV(snap.info[src.index])))
    ensures src.DataPair? && Available(src, snap) ==>
      r == Ok(Some(IntV(Word32(snap.data[src.hi], snap.data[src.lo]) + src.offset)))
  {
    if !Available(src, snap) then Ok(None)
    else
      match src
      case SetWord(i) => Ok(Some(IntV(snap.settings[i])))
      case DataWord(i) => Ok(Some(IntV(snap.data[i])))
      case InfoText(i) => Ok(Some(StrV(snap.info[i])))
      case DataPair(hi, lo, offset) => Ok(Some(IntV(snap.data[hi] * 65536 + snap.data[lo] + offset)))
      case SetTimeOfDay(i) => Ok(UnpackTime(snap.settings[i]))
      case SetFirmware(i) => Ok(Some(StrV(FirmwareText(snap.settings[i]))))
      case DataTimestamp(ym, dh, ms) => UnpackStamp(snap.data[ym], snap.data[dh], snap.data[ms])
  }

  /** A read depends on nothing but the positions its source names. */
  lemma FetchIsLocal(src: Source, a: Snapshot, b: Snapshot)
    requires AgreeOn(src, a, b)
    ensures Fetch(src, a) == Fetch(src, b)
  {
    assert Available(src, a) == Available(src, b);
  }

  /** The common tail of `map_data`: None stays None; a button description has
      no `unit` attribute; the S16 correction (which compares the value with
      32768, so raises TypeError on anything but an int); then the scale. */
  function Finish(d: Descriptor, raw: Result<Option<Value>>): (r: Result<Option<Value>>)
    ensures raw.Err? ==> r == raw
    ensures raw == Ok(None) ==> r == Ok(None)
    ensures raw.Ok? && raw.value.Some? ==> r != Ok(None)
    ensures raw.Ok? && raw.value.Some? && d.kind.ButtonKind? ==> r == Err(AttributeError)
    ensures raw.Ok? && raw.value.Some? && !d.kind.ButtonKind? && d.unit.S16? ==>
      (r.Err? <==> !raw.value.value.IntV?)
    ensures r.Err? && raw.Ok? ==> r.error == AttributeError || r.error == TypeError
  {
    match raw
    case Err(e) => Err(e)
    case Ok(None) => Ok(None)
    case Ok(Some(v)) =>
      if d.kind.ButtonKind? then Err(AttributeError)
      else if d.unit.S16? then
        if v.IntV? then Ok(Some(ApplyScale(d.scale, d.rounding, IntV(Signed16(v.i))))) else Err(TypeError)
      else Ok(Some(ApplyScale(d.scale, d.rounding, v)))
  }

  /** `map_data` for a descriptor whose register reads from `src`. */
  function Decode(d: Descriptor, src: Source, snap: Snapshot): (r: Result<Option<Value>>)
    ensures !Available(src, snap) ==> r == Ok(None)
    ensures r == Ok(None) ==> !Available(src, snap) || Fetch(src, snap) == Ok(None)
  {
    Finish(d, Fetch(src, snap))
  }

  /** A signed descriptor reading a word of 32768 or more sees it as negative
      before the scale, and a word below 32768 as it is. */
  lemma DecodeSigned(d: Descriptor, i: int, snap: Snapshot)
    requires d.kind != ButtonKind && d.unit == S16 && i in snap.data && 0 <= snap.data[i] < 65536
    ensures Decode(d, DataWord(i), snap)
         == Ok(Some(ApplyScale(d.scale, d.rounding, IntV(if snap.data[i] >= 32768 then snap.data[i] - 65536 else snap.data[i]))))
    ensures Decode(d, DataWord(i), snap).value.Some?
  {
    Signed16IsTwosComplement(snap.data[i]);
  }

  /** A read depends on nothing but the positions its source names. */
  lemma DecodeIsLocal(d: Descriptor, src: Source, a: Snapshot, b: Snapshot)
    requires AgreeOn(src, a, b)
    ensures Decode(d, src, a) == Decode(d, src, b)
  {
    FetchIsLocal(src, a, b);
  }

  // ---------------------------------------------------------------------------
  // Writing
  // ---------------------------------------------------------------------------

  /** One `{"reg": reg, "val": val}` entry of a write request. */
  datatype Write = Write(reg: int, val: string)

  /** What `map_payload` does with a register id. */
  datatype Target =
    | NoTarget               // `case _`: nothing is written
    | Plain(reg: int)        // `f"{payload}"` to `reg`
    | PackedTime(reg: int)   // a time packed as (hour << 8) + minute to `reg`, None for anything else

  /** `f"{payload}"`: an int in decimal, a str as it is, a time as HH:MM:SS,
      None as the text "None". */
  function Render(payload: Option<Value>): (r: string)
    requires payload.Some? ==> Writable(payload.value)
    ensures payload.Some? && payload.value.IntV? ==> IsDecimal(r) && ParseInt(r) == payload.value.i
    ensures payload.Some? && payload.value.TimeV? ==> |r| == 8 && r[2] == ':' && r[5] == ':' && r[6..] == "00"
    ensures payload.Some? && payload.value.TimeV? ==>
      && IsDigits(r[..2]) && IsDigits(r[3..5])
      && ParseDigits(r[..2]) == payload.value.hour && ParseDigits(r[3..5]) == payload.value.minute
  {
    match payload
    case None => "None"
    case Some(v) =>
      match v
      case IntV(i) => IntToStringRoundTrip(i); IntToString(i)
      case StrV(s) => s
      case TimeV(h, m) =>
        var r := TwoDigits(h) + ":" + TwoDigits(m) + ":00";
        assert r[..2] == TwoDigits(h);
        assert r[3..5] == TwoDigits(m);
        r
  }

  /** `map_payload`: the value goes through `_reverse_scale` first, whatever
      the register, so an exception there is raised even for an unmapped
      register; a button description has no `scale` attribute. */
  function Encode(d: Descriptor, v: Value, target: Target): (r: Result<Option<seq<Write>>>)
    requires Writable(v)
    ensures d.kind.ButtonKind? ==> r == Err(AttributeError)
    ensures !d.kind.ButtonKind? ==> (r.Err? <==> ReverseScale(d.scale, v).Err?)
    ensures target.NoTarget? && r.Ok? ==> r.value == None
    ensures target.Plain? && r.Ok? ==> r.value == Some([Write(target.reg, Render(ReverseScale(d.scale, v).value))])
    ensures target.PackedTime? && r.Ok? ==>
      (r.value.Some? <==> ReverseScale(d.scale, v).value.Some? && ReverseScale(d.scale, v).value.value.TimeV?)
    ensures r.Ok? && r.value.Some? ==> |r.value.value| == 1 && r.value.value[0].reg == target.reg
  {
    if d.kind.ButtonKind? then Err(AttributeError)
    else
      match ReverseScale(d.scale, v)
      case Err(e) => Err(e)
      case Ok(payload) =>
        match target
        case NoTarget => Ok(None)
        case Plain(reg) => Ok(Some([Write(reg, Render(payload))]))
        case PackedTime(reg) =>
          if payload.Some? && payload.value.TimeV? then
            Ok(Some([Write(reg, IntToString(PackTime(payload.value.hour, payload.value.minute)))]))
          else Ok(None)
  }

  /** A packed time write carries the packed number in decimal. */
  lemma EncodePackedTime(d: Descriptor, hour: Hour, minute: Minute, reg: int)
    requires d.kind != ButtonKind && d.scale == NoScale
    ensures Encode(d, TimeV(hour, minute), PackedTime(reg)) == Ok(Some([Write(reg, IntToString(hour * 256 + minute))]))
  {
  }

  /** With scale 1, which the time descriptions inherit from the number base,
      a time cannot be divided: `_reverse_scale` raises and no write is made. */
  lemma EncodeTimeWithFactorRaises(d: Descriptor, hour: Hour, minute: Minute, target: Target)
    requires d.kind != ButtonKind && d.scale.Factor?
    ensures Encode(d, TimeV(hour, minute), target) == Err(UnboundLocalError)
  {
  }

  /** An option text that is in no entry of the table is written as "None". */
  lemma EncodeUnknownOption(d: Descriptor, text: string, reg: int)
    requires d.kind != ButtonKind && d.scale.Table? && forall j | 0 <= j < |d.scale.entries| :: d.scale.entries[j].1 != text
    ensures Encode(d, StrV(text), Plain(reg)) == Ok(Some([Write(reg, "None")]))
  {
  }

  // ---------------------------------------------------------------------------
  // Write, then read back
  // ---------------------------------------------------------------------------

  /** The snapshot after the charger has stored the written text, as an int,
      at settings position `i`. */
  function StoreSetting(snap: Snapshot, i: int, w: Write): Snapshot
    requires IsDecimal(w.val)
  {
    snap.(settings := snap.settings[i := ParseInt(w.val)])
  }

  /** Selecting an option and reading the setting back gives the same option,
      for a table with distinct keys and texts, when the written number lands at
      the settings position the register is read from. */
  lemma SelectRoundTrip(d: Descriptor, j: int, reg: int, i: int, snap: Snapshot)
    requires d.kind.SelectKind? && d.unit != S16 && d.scale.Table?
    requires DistinctKeys(d.scale.entries) && DistinctValues(d.scale.entries)
    requires 0 <= j < |d.scale.entries|
    ensures var text := d.scale.entries[j].1;
            var w := Encode(d, StrV(text), Plain(reg));
            && w == Ok(Some([Write(reg, IntToString(d.scale.entries[j].0))]))
            && Decode(d, SetWord(i), StoreSetting(snap, i, w.value.value[0])) == Ok(Some(StrV(text)))
  {
    var t := d.scale.entries;
    ReverseTableFirstKey(t, t[j].1, j) by {
      forall i' | 0 <= i' < j ensures t[i'].1 != t[j].1 { }
    }
    IntToStringRoundTrip(t[j].0);
    ApplyTableHit(t, d.rounding, j);
  }

  /** Setting a number with scale 1 and reading it back gives the same number,
      when the written number lands at the settings position it is read from. */
  lemma NumberRoundTrip(d: Descriptor, n: int, reg: int, i: int, snap: Snapshot)
    requires d.kind != ButtonKind && d.unit != S16 && d.scale == Factor(1)
    ensures var w := Encode(d, IntV(n), Plain(reg));
            && w == Ok(Some([Write(reg, IntToString(n))]))
            && Decode(d, SetWord(i), StoreSetting(snap, i, w.value.value[0])) == Ok(Some(IntV(n)))
  {
    IdentityScales(d.rounding, n);
    IntToStringRoundTrip(n);
  }

  /** Setting a time (written through a description without scale) and
      reading it back gives the same time. */
  lemma TimeWriteRoundTrip(d: Descriptor, hour: Hour, minute: Minute, reg: int, i: int, snap: Snapshot)
    requires d.kind != ButtonKind && d.unit != S16 && d.scale == NoScale
    ensures var w := Encode(d, TimeV(hour, minute), PackedTime(reg));
            && w.Ok? && w.value.Some?
            && Decode(d, SetTimeOfDay(i), StoreSetting(snap, i, w.value.value[0])) == Ok(Some(TimeV(hour, minute)))
  {
    IntToStringRoundTrip(PackTime(hour, minute));
    TimeRoundTrip(hour, minute);
  }
}
