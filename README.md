# SolaX EV charger register mapping, in Dafny

This project models the register-mapping layer of the SolaX EV charger
integration for Home Assistant (`custom_components/solax_http`) and proves
properties of it. The layer has five parts:

- **Hardware classifier and plugin choice.** `PluginFactory._determine_type` turns the charger's serial number into a bitmask. The end of `get_plugin_instance` uses that mask to pick the first-generation (G1, "EVC") or second-generation (G2, "HAC") plugin.
- **Bitmask matcher.** `plugin_base.matchWithMask` decides whether an entity declaration applies to the device. Within a group (power, phase, version) the bits are ORed, across groups they are ANDed, and an optional serial-prefix blacklist can exclude a match.
- **Scale codec.** `_apply_scale` and `_reverse_scale` handle a lookup table (dict), a numeric multiplier or no scale.
- **Per-generation read and write tables.** `map_data` reads `Set`, `Data` and `Info` from the snapshot the coordinator polls. It applies the S16 two's-complement correction and assembles 32-bit values, a time of day, a firmware text and a timestamp. `map_payload` turns a value into a write request.
- **Entity catalogue.** The bitmask constants and the button, time, number, select and sensor declarations.

Modules (one file each):

| file | module | holds |
|---|---|---|
| `builtins.dfy` | `Builtins` | `Option`, exceptions as `Result`, `str(int)`/`int(str)`, `startswith`, byte split, `round(p/q)` |
| `entity_definitions.dfy` | `EntityDefinitions` | bitmask constants, `Descriptor`, scale tables, the five catalogues |
| `plugin_base.dfy` | `PluginBase` | values, the plugin record, the scale codec, the matcher, the model-name labels |
| `registers.dfy` | `Registers` | snapshot, read sources, the shared read tail and write shape, pack/unpack laws |
| `plugin_g1.dfy` | `EvChargerG1` | the G1 plugin: model name, read table, write table |
| `plugin_g2.dfy` | `EvChargerG2` | the G2 plugin: model name, read table, write table |
| `plugin_factory.dfy` | `PluginFactory` | serial-number classifier and plugin choice |
| `catalogue_properties.dfy` | `CatalogueProperties` | laws of the constants and catalogues |

### How Python becomes Dafny

**Values and exceptions**

- A Python exception is the `Err` case of `Result`. The error tells which exception it is: `IndexError`, `ValueError`, `TypeError`, `AttributeError` or `UnboundLocalError`.
- Python's `None` is `Option.None`.
- Values are `Value`: an `int`, a `str`, a `datetime.time`, a `datetime.datetime`, or the float produced by a 0.1 or 0.01 scale. The float is kept symbolically as `ScaledV(raw, exp, rounding)`.

**Descriptors and plugins**

- A descriptor's `scale` is one of four cases:
  - `NoScale` (None);
  - `Table` (a dict, kept in insertion order);
  - `Factor(k)` (an int multiplier);
  - `Decimal(e)` (the float multiplier 10^-e).
- Each descriptor has a `Kind`. Button descriptions have no `scale` and no `unit` attribute, so reading either raises `AttributeError`.
- The plugin instance is a datatype value. No modelled operation assigns a plugin field, so "calling the matcher changes no field, and a repeated call gives the same answer" holds by construction.

**The matcher**

- The matcher is a method with a `while` loop over the blacklist, proved equal to the predicate `Matches`.
- The matcher as written reads `self._serialnumber`, which does not exist. `MatchWithMaskAsWritten` is kept beside the method; see Findings.

**Reads and writes**

Both plugins' `map_data` and `map_payload` are a table (`ReadSource`, `WriteTarget`) plus the shared `Registers.Decode` and `Registers.Encode`.

- **Reading.** `Decode` returns None when a source position is absent or the id is unmapped. A button raises `AttributeError` (no `unit`). With S16 it corrects on ints and raises `TypeError` on anything else. Then it applies the scale.
- **Writing.** `Encode` always reverse-scales first, even for an unmapped register, so an exception there is raised for any id. Then it writes one `{"reg", "val"}` entry or nothing.

### Behaviour of the code that the model keeps

- **Time writes always fail.** The time declarations inherit number defaults, so they have scale 1. `round(time / 1)` raises, the suppressed exception leaves `original_value` unassigned, and `_reverse_scale` raises `UnboundLocalError`. So no time write is ever produced for a catalogue time entity (`EvChargerG1.CatalogueTimeWritesRaise`). Time packing is reached only through a description without scale (`EvChargerG1.TimeWriteReadBack`).
- **Unknown option text.** Writing an option text the table lacks sends the text `"None"`, because `f"{None}"` is `"None"`. Nothing is suppressed (`EvChargerG1.UnknownOptionWritesNone`).
- **Serial "50237B123".** The code classifies it as `V20 | X1 | POW7`, because `sn[2] == '2'` gives X1 and `sn[4] == '7'` gives POW7 (`PluginFactory.DetermineTypeExamples`).
- **Register 0x628 is never read.** The three maximum-current declarations use it, and neither read table maps it, so they always read None.

## Model

| member | source | states |
|---|---|---|
| Builtins.NatToString | custom_components/solax_http/plugin_solax_ev_charger.py:222 | `str(n)` of a natural number is a non-empty digit string with a leading '0' only for 0 |
| Builtins.IntToString | custom_components/solax_http/plugin_solax_ev_charger.py:222 | `str(i)` is decimal text and starts with '-' exactly for negative `i` |
| Builtins.NatToStringRoundTrip | custom_components/solax_http/plugin_solax_ev_charger.py:222 | reading the digits of `str(n)` gives `n` back |
| Builtins.IntToStringRoundTrip | custom_components/solax_http/plugin_solax_ev_charger.py:50 | `int(str(i)) == i`: a written number reads back as itself |
| Builtins.TwoDigits | custom_components/solax_http/plugin_solax_ev_charger.py:50 | the two-digit field of a time's text reads back as the number |
| Builtins.LowByte | custom_components/solax_http/plugin_solax_ev_charger.py:147 | `v & 0xFF` lies in 0..255 |
| Builtins.ByteSplit | custom_components/solax_http/plugin_solax_ev_charger.py:146-147 | `>> 8` and `& 0xFF` undo `(hi << 8) + lo` |
| Builtins.ByteJoin | custom_components/solax_http/plugin_solax_ev_charger.py:146-147 | every int is its high byte times 256 plus its low byte |
| Builtins.RoundQuotient | custom_components/solax_http/plugin_base.py:59 | `round(p / q)` is the nearest integer to the quotient, ties to even |
| Builtins.RoundPositive | custom_components/solax_http/plugin_base.py:59 | the same for a positive divisor |
| Builtins.RoundQuotientExact | custom_components/solax_http/plugin_base.py:59 | rounding an exact quotient gives the quotient |
| Builtins.NearestMultipleIsExact | custom_components/solax_http/plugin_base.py:59 | a multiple of k within k/2 of i·k is i·k itself |
| Builtins.NonZeroMultipleAtLeast | custom_components/solax_http/plugin_base.py:59 | a non-zero multiple of k is at least as large as k |
| Builtins.Pow10 | custom_components/solax_http/plugin_base.py:57-59 | 10^e is positive and, for e > 0, a multiple of ten |
| Builtins.Pow10Add | custom_components/solax_http/plugin_base.py:57-59 | 10^(a+b) = 10^a · 10^b |
| Builtins.ExactMultiple | custom_components/solax_http/plugin_base.py:57-59 | a multiple of a positive p divides back exactly, with remainder 0 |
| Builtins.DigitChar | custom_components/solax_http/plugin_solax_ev_charger.py:222 | a digit value becomes the digit character of that value |
| PluginBase.Lookup | custom_components/solax_http/plugin_base.py:68 | `dict.get` is None exactly when no entry has the key, and otherwise a value stored under the key |
| PluginBase.FirstKeyFor | custom_components/solax_http/plugin_base.py:52-54 | the generator's `next` is None exactly when no entry has the text, and otherwise the key of the first entry with it |
| PluginBase.ApplyScale | custom_components/solax_http/plugin_base.py:64-74 | a dict always yields text; a non-dict scale leaves non-ints unchanged (the exception is suppressed); no scale is the identity |
| PluginBase.ReverseScale | custom_components/solax_http/plugin_base.py:48-62 | only a numeric scale raises, and only UnboundLocalError; a dict yields an int or None; results stay writable |
| PluginBase.ApplyTableHit | custom_components/solax_http/plugin_base.py:67-68 | a key present in the dict decodes to its text |
| PluginBase.ApplyTableMiss | custom_components/solax_http/plugin_base.py:67-68 | a missing key and any non-int decode to "Unknown" |
| PluginBase.ReverseTableFirstKey | custom_components/solax_http/plugin_base.py:51-54 | a text reverses to the key of the first entry that has it |
| PluginBase.TableRoundTrip | custom_components/solax_http/plugin_base.py:51-68 | for a table with distinct keys and texts, reverse(apply(k)) == k for every key |
| PluginBase.FactorRoundTrip | custom_components/solax_http/plugin_base.py:57-73 | for every non-zero int multiplier, reverse(apply(i)) == i |
| PluginBase.DecimalReverseIsExact | custom_components/solax_http/plugin_base.py:57-59 | reversing a 10^-e scale on an int gives a multiple of 10^e that divides back to the int, and two reverses compose into one with the summed exponent |
| PluginBase.IdentityScales | custom_components/solax_http/plugin_base.py:57-74 | scale 1 and scale None are the identity in both directions on ints |
| PluginBase.MatchWithMask | custom_components/solax_http/plugin_base.py:76-94 | the loop computes `Matches`: classified, all three groups matched, not blacklisted |
| PluginBase.MatchWithMaskAsWritten | custom_components/solax_http/plugin_base.py:89-94 | as written, a non-empty blacklist raises AttributeError on a classified device; otherwise the answer is `Matches` |
| PluginBase.BlacklistAsWrittenRaises | custom_components/solax_http/plugin_base.py:92 | serial "C1070099" with blacklist ["C107"]: intended result false, the code raises |
| PluginBase.UnclassifiedMatchesNothing | custom_components/solax_http/plugin_base.py:77-78 | a mask None or 0 matches no entity |
| PluginBase.PowGroupIsOrOfBits | custom_components/solax_http/plugin_base.py:80-82 | the power group matches iff the entity names no power bit or both masks share one |
| PluginBase.PhaseGroupIsOrOfBits | custom_components/solax_http/plugin_base.py:83-85 | the phase group, likewise |
| PluginBase.VersionGroupIsOrOfBits | custom_components/solax_http/plugin_base.py:86-88 | the version group, likewise |
| PluginBase.BlacklistExcludes | custom_components/solax_http/plugin_base.py:89-94 | a serial starting with any blacklisted prefix is excluded whatever the groups say |
| PluginBase.MatchIgnoresSerialWithoutBlacklist | custom_components/solax_http/plugin_base.py:90 | without a blacklist (None or empty) the serial number does not matter |
| PluginBase.PhaseLabel | custom_components/solax_http/plugin_solax_ev_charger.py:27-32 | "X1" iff X1 is set, "X3" iff only X3 is, "" iff no phase bit |
| PluginBase.PowerLabel | custom_components/solax_http/plugin_solax_ev_charger.py:33-40 | 7 kW before 11 kW before 22 kW, "" iff no power bit |
| PluginBase.ModelName | custom_components/solax_http/plugin_solax_ev_charger.py:24-41 | TypeError iff the mask is None, otherwise phase, family and power joined by '-' |
| Registers.Enumerate | custom_components/solax_http/coordinator.py:107-111 | `dict(enumerate(xs))` has exactly the positions of `xs` as keys, each mapped to its element |
| Registers.Signed16IsTwosComplement | custom_components/solax_http/plugin_solax_ev_charger.py:234-235 | on a 16-bit word the correction gives the signed value with the same bit pattern, negative iff the word is ≥ 32768 |
| Registers.Signed16OfPattern | custom_components/solax_http/plugin_solax_ev_charger.py:234-235 | every signed 16-bit value is recovered from its bit pattern |
| Registers.Word32Split | custom_components/solax_http/plugin_solax_ev_charger.py:194-198 | `hi * 65536 + lo` splits back into `hi` and `lo` |
| Registers.Word32Injective | custom_components/solax_http/plugin_solax_ev_charger.py:194-198 | different word pairs give different 32-bit values |
| Registers.PackTime | custom_components/solax_http/plugin_solax_ev_charger.py:72 | a packed time of day lies in 0..24·256 |
| Registers.UnpackTime | custom_components/solax_http/plugin_solax_ev_charger.py:144-149 | a time exactly when hour < 24 and minute < 60, and then it packs back to the same word |
| Registers.TimeRoundTrip | custom_components/solax_http/plugin_solax_ev_charger.py:67-73 | unpacking a packed time gives the time back |
| Registers.TimeExamples | custom_components/solax_http/plugin_solax_ev_charger.py:143-149 | 0x0A1E is 10:30; hour 24 or minute 60 is no time |
| Registers.FirmwareText | custom_components/solax_http/plugin_solax_ev_charger.py:219-223 | the version text is `str(n)` with a '.' inserted after the first character |
| Registers.FirmwareTextRoundTrip | custom_components/solax_http/plugin_solax_ev_charger.py:219-223 | removing the '.' and parsing gives the version number back |
| Registers.FirmwareExample | custom_components/solax_http/plugin_solax_ev_charger.py:219-223 | 123 is shown as "1.23" |
| Registers.UnpackStamp | custom_components/solax_http/plugin_solax_ev_charger.py:103-118 | None iff the month byte is 0, ValueError iff the fields form no valid date and time, otherwise a valid datetime |
| Registers.StampRoundTrip | custom_components/solax_http/plugin_solax_ev_charger.py:108-118 | every valid date and time in 2000-2255 survives packing into three words and unpacking |
| Registers.Fetch | custom_components/solax_http/plugin_solax_ev_charger.py:102-230 | None whenever a needed position is absent; only a timestamp raises (ValueError); plain words, texts and 32-bit pairs carry the stored value |
| Registers.FetchIsLocal | custom_components/solax_http/plugin_solax_ev_charger.py:102-230 | a read depends only on the positions its source names |
| Registers.Finish | custom_components/solax_http/plugin_solax_ev_charger.py:232-237 | None stays None; a present value never becomes None; a button raises AttributeError; S16 raises TypeError exactly on non-ints |
| Registers.Decode | custom_components/solax_http/plugin_solax_ev_charger.py:96-237 | None when a source position is absent; None only when absent or the source itself gives None |
| Registers.DecodeSigned | custom_components/solax_http/plugin_solax_ev_charger.py:234-237 | with S16 a word ≥ 32768 is scaled as word − 65536, others as they are |
| Registers.DecodeIsLocal | custom_components/solax_http/plugin_solax_ev_charger.py:96-237 | `map_data` depends only on the positions the register's source names |
| Registers.Render | custom_components/solax_http/plugin_solax_ev_charger.py:50 | `f"{payload}"` of an int reads back as that int; of a time is "HH:MM:00" whose two digit fields read back as the hour and the minute |
| Registers.Encode | custom_components/solax_http/plugin_solax_ev_charger.py:43-94 | a button raises AttributeError; otherwise it raises exactly when `_reverse_scale` does; one entry for the target's register, a time target only for a time payload |
| Registers.EncodePackedTime | custom_components/solax_http/plugin_solax_ev_charger.py:67-73 | a time written without scale is sent as `str((hour << 8) + minute)` |
| Registers.EncodeTimeWithFactorRaises | custom_components/solax_http/plugin_base.py:57-62 | a numeric scale on a time raises UnboundLocalError, whatever the target |
| Registers.EncodeUnknownOption | custom_components/solax_http/plugin_base.py:51-54 | an option text missing from the table is written as "None" |
| Registers.SelectRoundTrip | custom_components/solax_http/plugin_base.py:51-68 | selecting an option writes its key, and reading that key back gives the option |
| Registers.NumberRoundTrip | custom_components/solax_http/plugin_base.py:57-74 | an int number with scale 1 is written in decimal and read back unchanged |
| Registers.TimeWriteRoundTrip | custom_components/solax_http/plugin_solax_ev_charger.py:67-73 | a time written without scale is read back unchanged |
| EvChargerG1.InverterModel | custom_components/solax_http/plugin_solax_ev_charger.py:24-41 | TypeError iff no mask, otherwise "{phase}-EVC-{power}" |
| EvChargerG1.InverterModelExamples | custom_components/solax_http/plugin_solax_ev_charger.py:24-41 | X1 wins over X3, 7 kW over 11 kW and 22 kW, an empty group gives "" |
| EvChargerG1.ReadTableDomain | custom_components/solax_http/plugin_solax_ev_charger.py:102-230 | exactly the 41 listed ids have a read source |
| EvChargerG1.MapData | custom_components/solax_http/plugin_solax_ev_charger.py:96-237 | None for unmapped ids and absent positions; only a timestamp, a button or S16 can raise |
| EvChargerG1.MaxChargeCurrentReadsNone | custom_components/solax_http/plugin_solax_ev_charger.py:229-233 | all three 0x628 declarations read None for every snapshot |
| EvChargerG1.CatalogueIsRead | custom_components/solax_http/plugin_solax_ev_charger.py:102-230 | every declaration except the reset button and the 0x628 ones has a read source |
| EvChargerG1.ThirtyTwoBitRegisters | custom_components/solax_http/plugin_solax_ev_charger.py:194-228 | 0x10 is Data[15]·65536 + Data[14]; 0x2B is Data[81]·65536 + Data[80] + 1; each is None if a word is missing |
| EvChargerG1.ChargeAddedTotalExample | custom_components/solax_http/plugin_solax_ev_charger.py:194-198 | words 1 and 100 give 65636, scaled by 0.1 |
| EvChargerG1.GridPowerSignedExample | custom_components/solax_http/plugin_solax_ev_charger.py:205-235 | grid power word 65535 reads −1 |
| EvChargerG1.TimeReads | custom_components/solax_http/plugin_solax_ev_charger.py:143-163 | the time declarations unpack settings 12, 13 and 15, None when absent |
| EvChargerG1.FirmwareRead | custom_components/solax_http/plugin_solax_ev_charger.py:219-223 | the firmware sensor shows setting 19 as its version text |
| EvChargerG1.ChargeStartTimeRead | custom_components/solax_http/plugin_solax_ev_charger.py:103-118 | the last charge start is the unpacked timestamp of Data[84], Data[83], Data[82] |
| EvChargerG1.WriteTableDomain | custom_components/solax_http/plugin_solax_ev_charger.py:48-94 | exactly the 13 listed ids have a write target; packed time exactly for 0x634, 0x636, 0x638 |
| EvChargerG1.MapPayload | custom_components/solax_http/plugin_solax_ev_charger.py:43-94 | None for other ids; a single entry for the id's register; a button raises AttributeError |
| EvChargerG1.ResetRaises | custom_components/solax_http/plugin_solax_ev_charger.py:46-47 | writing the reset button raises AttributeError |
| EvChargerG1.CatalogueTimeWritesRaise | custom_components/solax_http/plugin_solax_ev_charger.py:47-90 | every catalogue time write raises UnboundLocalError |
| EvChargerG1.TimeWriteReadBack | custom_components/solax_http/plugin_solax_ev_charger.py:67-90 | a time is packed into register 12, 13 or 15 and read back from the same setting |
| EvChargerG1.SelectWriteReadBack | custom_components/solax_http/plugin_solax_ev_charger.py:48-60 | every option of every settings-read select is written as its key and read back |
| EvChargerG1.ReadWriteAsymmetry | custom_components/solax_http/plugin_solax_ev_charger.py:63-66 | charge phase is read from Data[65] but written to 70; 0x60C from Set[0] to 1; 0x668 from Set[76] to 82 |
| EvChargerG1.SmartBoostEnergyReadBack | custom_components/solax_http/plugin_solax_ev_charger.py:91-92 | smart boost energy is written to register 14 and read back from setting 14 |
| EvChargerG1.UnknownOptionWritesNone | custom_components/solax_http/plugin_solax_ev_charger.py:49-50 | an unknown use-mode text is written as "None" to register 2 |
| EvChargerG2.InverterModel | custom_components/solax_http/plugin_solax_ev_charger_g2.py:23-40 | TypeError iff no mask, otherwise "{phase}-HAC-{power}" |
| EvChargerG2.InverterModelExamples | custom_components/solax_http/plugin_solax_ev_charger_g2.py:23-40 | "X1-HAC-7kW" and "X3-HAC-22kW" |
| EvChargerG2.ReadTableDomain | custom_components/solax_http/plugin_solax_ev_charger_g2.py:106-230 | exactly the 22 listed ids have a read source |
| EvChargerG2.MapData | custom_components/solax_http/plugin_solax_ev_charger_g2.py:98-237 | None for unmapped ids and absent positions; only a button or S16 can raise |
| EvChargerG2.FirstGenerationIdsReadNone | custom_components/solax_http/plugin_solax_ev_charger_g2.py:229-230 | every G1-only id reads None |
| EvChargerG2.FirstGenerationIdsAreUnknown | custom_components/solax_http/plugin_solax_ev_charger_g2.py:106-230 | the G1-only ids and the G2 read ids are disjoint |
| EvChargerG2.FirstGenerationOnlyIdsAreExact | custom_components/solax_http/plugin_solax_ev_charger_g2.py:106-230 | the G1-only ids are exactly the G1 read ids minus the G2 read ids |
| EvChargerG2.SecondGenerationSensorsAreRead | custom_components/solax_http/plugin_solax_ev_charger_g2.py:106-230 | every G2 sensor except the 0x628 one has a read source |
| EvChargerG2.ThirtyTwoBitRegisters | custom_components/solax_http/plugin_solax_ev_charger_g2.py:196-228 | 0x10 is Data[16]·65536 + Data[15]; 0x2B is Data[50]·65536 + Data[49] + 1; each is None if a word is missing |
| EvChargerG2.WriteTableDomain | custom_components/solax_http/plugin_solax_ev_charger_g2.py:48-96 | exactly the 5 listed ids have a write target, never a packed time |
| EvChargerG2.MapPayload | custom_components/solax_http/plugin_solax_ev_charger_g2.py:42-96 | None for other ids; a single entry for the id's register; a button raises AttributeError |
| EvChargerG2.WritesAreRead | custom_components/solax_http/plugin_solax_ev_charger_g2.py:48-96 | every writable id is also read |
| EvChargerG2.NoTimeWrites | custom_components/solax_http/plugin_solax_ev_charger_g2.py:69-96 | no time is ever written |
| EvChargerG2.ReadWriteAsymmetry | custom_components/solax_http/plugin_solax_ev_charger_g2.py:53-54 | eco gear is read from Set[11] but written to 62, and likewise for the other four ids |
| EvChargerG2.SelectWriteReadBack | custom_components/solax_http/plugin_solax_ev_charger_g2.py:42-68 | a select on a writable id is written as its key and read back |
| EvChargerG2.UseModeWriteReadBack | custom_components/solax_http/plugin_solax_ev_charger_g2.py:49-50 | the use mode is written to register 52 and read back from setting 1 |
| PluginFactory.PrefixesExclusive | custom_components/solax_http/plugin_factory.py:80-98 | no serial takes both branches |
| PluginFactory.Compose | custom_components/solax_http/plugin_factory.py:77-112 | OR-ing one optional bit per group keeps each group's bit and only group bits |
| PluginFactory.DetermineType | custom_components/solax_http/plugin_factory.py:75-116 | IndexError iff a known prefix and fewer than 5 characters; None iff an unknown prefix; at most one bit per group, only group bits, V20 exactly for "50" serials |
| PluginFactory.ChargerSerialBits | custom_components/solax_http/plugin_factory.py:80-97 | each bit of a "C" serial iff its character test |
| PluginFactory.HecSerialBits | custom_components/solax_http/plugin_factory.py:98-112 | V20 always, and each phase and power bit iff its character test |
| PluginFactory.DetermineTypeExamples | custom_components/solax_http/plugin_factory.py:80-112 | "C10701234" is V10\|X1\|POW7, "C32211111" is V11\|X3\|POW22, "50237B123" is V20\|X1\|POW7, "5032M" is V20\|X3\|POW22 |
| PluginFactory.DetermineTypeEdgeExamples | custom_components/solax_http/plugin_factory.py:75-116 | "C9999" classifies to the empty mask, "ZZZZ" to None, "C107" and "50" raise IndexError |
| PluginFactory.GetPluginInstance | custom_components/solax_http/plugin_factory.py:126-150 | ValueError iff the mask is None, 0 or has no version bit; the plugin carries the serial and the mask; the name and hardware version match the generation |
| PluginFactory.DispatchBySerial | custom_components/solax_http/plugin_factory.py:126-150 | G1 iff a "C" serial with fifth character '0' or '1'; G2 iff a "50" serial of at least 5 characters; ValueError otherwise, except too-short serials |
| PluginFactory.ModelNameBySerial | custom_components/solax_http/plugin_factory.py:126-138 | a "C3220…" serial gets a G1 plugin named "X3-EVC-22kW" |
| PluginFactory.SecondGenerationGetsNoControls | custom_components/solax_http/plugin_factory.py:139-150 | a G2 plugin matches no button, time, number or select |
| CatalogueProperties.GroupsDisjoint | custom_components/solax_http/entity_definitions.py:38-52 | the groups are 0x0007, 0x0300 and 0x0070, pairwise disjoint; G1 & G2 == 0 |
| CatalogueProperties.AllowedTypesWithinGroups | custom_components/solax_http/entity_definitions.py:96-850 | every declared mask uses only group bits |
| CatalogueProperties.NoBlacklists | custom_components/solax_http/entity_definitions.py:96-850 | no declaration sets a blacklist |
| CatalogueProperties.CatalogueMatcherAsWrittenIsIntended | custom_components/solax_http/plugin_base.py:89-94 | for every declaration the matcher as written answers as intended |
| CatalogueProperties.PowerSplitIsExclusive | custom_components/solax_http/entity_definitions.py:35 | two G1 masks splitting the power bits never both match a one-power-bit device, and one of them matches a G1 device |
| CatalogueProperties.MaxChargeCurrentExclusive | custom_components/solax_http/entity_definitions.py:167-192 | at most one `max_charge_current_setting` applies, exactly one on a G1 device |
| CatalogueProperties.EcoModeExclusive | custom_components/solax_http/entity_definitions.py:254-275 | at most one `charger_eco_mode` applies, exactly one on a G1 device |
| CatalogueProperties.DuplicatesOverlapWithoutOnePowBit | custom_components/solax_http/entity_definitions.py:167-192 | with two power bits both declarations apply |
| CatalogueProperties.TablesAreGood | custom_components/solax_http/entity_definitions.py:210-850 | every table has distinct keys and texts and no "Unknown" text |
| CatalogueProperties.SelectTablesAreGood | custom_components/solax_http/entity_definitions.py:210-343 | every select has such a table |
| CatalogueProperties.SensorTablesAreGood | custom_components/solax_http/entity_definitions.py:347-850 | every table sensor has such a table |
| CatalogueProperties.ControlsAreFirstGeneration | custom_components/solax_http/entity_definitions.py:96-343 | every button, time, number and select has version bits exactly G1 |
| CatalogueProperties.NoControlForSecondGeneration | custom_components/solax_http/entity_definitions.py:96-343 | none of them matches a V20 device |

## Left out

- **Network I/O.** HTTP, JSON decoding, retries, polling and the coordinator's update loop are not modelled. The snapshot is a parameter, and `Registers.SnapshotOf` models only its shape: three `dict(enumerate(list))`.
- **Reading the serial number.** `get_plugin_instance`'s own serial read and its early `return None` (plugin_factory.py:119-125) are not modelled. The model starts from the serial string.
- **Platform adapters.** sensor.py, number.py, select.py, time.py, button.py, config_flow.py and `__init__.py` are not modelled. Their only logic is filtering with the matcher, which is modelled.
  - Their `.register` defect is not modelled either. number.py:79, time.py:79 and button.py:81 pass an int where a descriptor is expected, and that raises AttributeError in `map_payload` before anything modelled here.
- **The callable scale branch.** plugin_base.py:55-56 and 69-70 are not modelled, because no declaration has a callable scale.
- **Float scales.** `round(value * 0.1, rounding)` and `round(value * 0.01, rounding)` are kept as the symbolic value `ScaledV`. Their floating-point result is not computed.
- PluginBase.ReverseScale: on a float scale it returns the exact `value · 10^e`, not the double-precision `round(value / 0.1)`.
- Registers.NumberRoundTrip: number payloads are modelled as ints only (`PluginBase.Writable`, `PluginBase.ReverseScale`). number.py:75 passes the entered float on, and `round(value / scale)` would drop its fraction (6.5 with scale 1 is written as "6" and reads back as 6). The model has no float value, so that loss is not represented.
- Builtins.RoundQuotient: computes `round(p / q)` on the exact rational. For values beyond 2^53 the double division could round differently.
- **The timestamp's `.astimezone()`.** It is not modelled, because it depends on the host's time zone. `StampV` keeps the local wall-clock fields.
- **OverflowError.** `datetime` can raise it for extreme years; the model does not.
- **Untyped JSON values.** `Set` and `Data` hold ints and `Info` holds strings. JSON nulls, floats or strings at other positions are not modelled.
- **Descriptor presentation fields.** Name, icon, device class, native unit, entity category and so on are not modelled, and neither is the empty `SWITCH_TYPES`.
- **Plugin fields.** The catalogue lists, `device_info`, `sw_version` and `initialize` are not part of the plugin record, because no modelled operation reads them.
- **Register-to-setting mapping.** Which settings position the charger stores a written register at is device behaviour, not code. The write-then-read lemmas take it as a parameter, through `Registers.StoreSetting`.

## Findings

| source | as written | input that shows it | evidently intended | confidence | as-written member | corrected member |
|---|---|---|---|---|---|---|
| custom_components/solax_http/plugin_base.py:92 | the blacklist loop reads `self._serialnumber`, but the plugin's field is `serialnumber` (plugin_base.py:31), so any non-empty blacklist raises AttributeError on a classified device | mask V10\|X1\|POW7, serial "C1070099", entity mask G1, blacklist ["C107"] | the serial starts with a blacklisted prefix, so the entity is excluded and the matcher returns false | not executed | PluginBase.MatchWithMaskAsWritten (shown by PluginBase.BlacklistAsWrittenRaises) | PluginBase.MatchWithMask (proved equal to PluginBase.Matches, see PluginBase.BlacklistExcludes) |
