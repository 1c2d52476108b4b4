/**
  The command registry of obdii/commands.py: the `ext_commands` table, a
  read-only map from a key to a python-OBD `OBDCommand` record. It holds two
  kinds of entries: ELM327 addressing commands (`ATSH` sets the CAN header a
  request is sent with, `ATCRA` sets the CAN identifier whose frames are
  accepted as the reply) and data requests (ReadDataByIdentifier, service
  0x22 of ISO 14229-1, plus one SAE J1979 service $01 request).
*/
module Commands {
  import opened Wrappers
  import Decoders

  /** python-OBD's `ECU` selector tag. */
  datatype Ecu = Unknown | All

  /** The decoder names the registry entries refer to. Apart from
      `raw_string` (from python-OBD) none of them is defined in
      obdii/decoders.py; see `TagsNameNoDefinedDecoder`. */
  datatype DecoderTag =
    | RawString | BatAhRaw2018 | BatAhRaw2019 | BatKwhRaw2018 | BatKwhRaw2019
    | BatSocDisp | BatSocRawHd | BatSocRawLdVar | BatCurrentHd | CoolantTemp
    | AcVoltage | AcCurrent | ChargingLevel

  /** One `OBDCommand(name, description, command, bytes, decoder, ecu, fast)`;
      `command` holds the ASCII request bytes. */
  datatype Command = Command(name: string, desc: string, command: string,
                             bytes: nat, decoder: DecoderTag, ecu: Ecu, fast: bool)

  /** The Python identifier a decoder tag stands for. */
  function TagName(t: DecoderTag): string
  {
    match t
    case RawString => "raw_string"
    case BatAhRaw2018 => "bat_ah_raw_2018"
    case BatAhRaw2019 => "bat_ah_raw_2019"
    case BatKwhRaw2018 => "bat_kwh_raw_2018"
    case BatKwhRaw2019 => "bat_kwh_raw_2019"
    case BatSocDisp => "bat_soc_disp"
    case BatSocRawHd => "bat_soc_raw_hd"
    case BatSocRawLdVar => "bat_soc_raw_ld_var"
    case BatCurrentHd => "bat_current_hd"
    case CoolantTemp => "coolant_temp"
    case AcVoltage => "ac_voltage"
    case AcCurrent => "ac_current"
    case ChargingLevel => "charging_level"
  }

  /** The decoder of obdii/decoders.py each tag evidently stands for, by
      formula family: the entry key names the decoder (the two `kwh` tags sit
      on the `..._AH_EST_...` entries) and `coolant_temp` is the A-40
      temperature. The AC and charging-level tags have no counterpart. */
  function IntendedFormula(t: DecoderTag): Option<Decoders.Formula>
  {
    match t
    case BatAhRaw2018 => Some(Decoders.CapAhRaw2018)
    case BatAhRaw2019 => Some(Decoders.CapAhRaw2019)
    case BatKwhRaw2018 => Some(Decoders.CapAhEst2018)
    case BatKwhRaw2019 => Some(Decoders.CapAhEst2019)
    case BatSocDisp => Some(Decoders.SocDisp)
    case BatSocRawHd => Some(Decoders.SocRawHd)
    case BatSocRawLdVar => Some(Decoders.SocRawLdVar)
    case BatCurrentHd => Some(Decoders.PackCurrentHd)
    case CoolantTemp => Some(Decoders.ModTemp)
    case _ => None
  }

  // ---------------------------------------------------------------------
  // Addressing

  /** The request/response identifier pairs the program addresses: the
      legislated 11-bit identifiers of ISO 15765-4 (requests 7E0..7E7 to
      one ECU each, responses 7E8..7EF, each reply 8 above its request). */
  datatype EcuPair = Pair7E0 | Pair7E1 | Pair7E4 | Pair7E7

  function RequestId(p: EcuPair): int
  {
    match p
    case Pair7E0 => 0x7E0
    case Pair7E1 => 0x7E1
    case Pair7E4 => 0x7E4
    case Pair7E7 => 0x7E7
  }

  function ResponseId(p: EcuPair): int
  {
    match p
    case Pair7E0 => 0x7E8
    case Pair7E1 => 0x7E9
    case Pair7E4 => 0x7EC
    case Pair7E7 => 0x7EF
  }

  /** Upper-case hexadecimal digit. */
  function HexDigit(n: int): char
    requires 0 <= n < 16
  {
    "0123456789ABCDEF"[n]
  }

  /** A 12-bit identifier as three upper-case hexadecimal digits. */
  function Hex3(a: int): string
    requires 0 <= a < 0x1000
  {
    [HexDigit(a / 256), HexDigit(a / 16 % 16), HexDigit(a % 16)]
  }

  /** The key of the entry that sets the CAN header to the pair's request
      (`KeysSpellAddresses` shows it ends in that identifier). */
  function HeaderKey(p: EcuPair): string
  {
    match p
    case Pair7E0 => "CAN_HEADER_7E0"
    case Pair7E1 => "CAN_HEADER_7E1"
    case Pair7E4 => "CAN_HEADER_7E4"
    case Pair7E7 => "CAN_HEADER_7E7"
  }

  /** The key of the entry that sets the receive filter to the pair's reply. */
  function ReceiveKey(p: EcuPair): string
  {
    match p
    case Pair7E0 => "CAN_RECEIVE_ADDRESS_7E8"
    case Pair7E1 => "CAN_RECEIVE_ADDRESS_7E9"
    case Pair7E4 => "CAN_RECEIVE_ADDRESS_7EC"
    case Pair7E7 => "CAN_RECEIVE_ADDRESS_7EF"
  }

  const AddressingKeys: set<string> :=
    {"CAN_HEADER_7E0", "CAN_HEADER_7E1", "CAN_HEADER_7E4", "CAN_HEADER_7E7",
     "CAN_RECEIVE_ADDRESS_7E8", "CAN_RECEIVE_ADDRESS_7E9",
     "CAN_RECEIVE_ADDRESS_7EC", "CAN_RECEIVE_ADDRESS_7EF"}

  /** The 25 keys of `ext_commands`: 17 data requests and the 8 addressing
      commands. */
  const RegistryKeys: set<string> :=
    {"BAT_PACK_CAP_AH_RAW_2018", "BAT_PACK_CAP_AH_RAW_2019",
     "BAT_PACK_CAP_AH_EST_2018", "BAT_PACK_CAP_AH_EST_2019",
     "BAT_PACK_SOC_DISP", "BAT_PACK_SOC_RAW_HD", "BAT_PACK_SOC_RAW_LD",
     "BAT_PACK_SOC_RAW_LD2", "BAT_PACK_SOC_RAW_LD3", "BAT_PACK_SOC_VAR",
     "BAT_PACK_CURRENT_HD", "AMBIENT_AIR_TEMP", "BAT_COOLANT_TEMP",
     "ELEC_COOLANT_TEMP", "AC_VOLTAGE", "AC_CURRENT", "CHARGING_LEVEL"}
    + AddressingKeys

  /** The registry holds exactly the keys listed in `RegistryKeys`, and no
      others. */
  lemma RegistryKeysExact()
    ensures ExtCommands.Keys == RegistryKeys
  {
  }

  // ---------------------------------------------------------------------
  // The table

  /** `ext_commands`. A map display has no order; the addressing entries
      are listed last. */
  const ExtCommands: map<string, Command> := map[
    "BAT_PACK_CAP_AH_RAW_2018" := Command("BAT_PACK_CAP_AH_RAW_2018", "Battery Capacity Ah Raw 2017 - 2018", "2241a3", 0, BatAhRaw2018, All, false),
    "BAT_PACK_CAP_AH_RAW_2019" := Command("BAT_PACK_CAP_AH_RAW_2019", "Battery Capacity Ah Raw 2019+", "2245f9", 0, BatAhRaw2019, All, false),
    "BAT_PACK_CAP_AH_EST_2018" := Command("BAT_PACK_CAP_KWH_EST_2018", "Battery Capacity KWh Est 2017 - 2018", "2241a3", 0, BatKwhRaw2018, All, false),
    "BAT_PACK_CAP_AH_EST_2019" := Command("BAT_PACK_CAP_KWH_EST_2019", "Battery Capacity KWh Est 2019+", "2245f9", 0, BatKwhRaw2019, All, false),
    "BAT_PACK_SOC_DISP" := Command("BAT_PACK_SOC_DISP", "Battery SoC Displayed", "228334", 0, BatSocDisp, All, false),
    "BAT_PACK_SOC_RAW_HD" := Command("BAT_PACK_SOC_RAW_HD", "Battery SoC Raw HD", "2243af", 0, BatSocRawHd, All, false),
    "BAT_PACK_SOC_RAW_LD" := Command("BAT_PACK_SOC_RAW_LD", "Battery SoC Raw LD", "015b", 0, BatSocRawLdVar, All, false),
    "BAT_PACK_SOC_RAW_LD2" := Command("BAT_PACK_SOC_RAW_LD2", "Battery SoC Raw LD2", "222411", 0, BatSocRawLdVar, All, false),
    "BAT_PACK_SOC_RAW_LD3" := Command("BAT_PACK_SOC_RAW_LD3", "Battery SoC Raw LD3", "22432f", 0, BatSocRawLdVar, All, false),
    "BAT_PACK_SOC_VAR" := Command("BAT_PACK_SOC_VAR", "Battery SoC Variation", "22435f", 0, BatSocRawLdVar, All, false),
    "BAT_PACK_CURRENT_HD" := Command("BAT_PACK_CURRENT_HD", "Battery Current HD", "2240d4", 0, BatCurrentHd, All, false),

    "AMBIENT_AIR_TEMP" := Command("AMBIENT_AIR_TEMP", "Ambient Air Temp", "220046", 0, CoolantTemp, All, false),
    "BAT_COOLANT_TEMP" := Command("BAT_COOLANT_TEMP", "Battery Coolant Temp", "2241A4", 0, CoolantTemp, All, false),
    "ELEC_COOLANT_TEMP" := Command("ELEC_COOLANT_TEMP", "Electronics Coolant Temp", "2241A4", 0, CoolantTemp, All, false),
    "AC_VOLTAGE" := Command("AC_VOLTAGE", "AC Voltage", "224368", 0, AcVoltage, All, false),
    "AC_CURRENT" := Command("AC_CURRENT", "AC Current", "224369", 0, AcCurrent, All, false),
    "CHARGING_LEVEL" := Command("CHARGING_LEVEL", "Charging Level", "224531", 0, ChargingLevel, All, false),

    "CAN_HEADER_7E0" := Command("CAN_HEADER_7E0", "Set CAN module ID to 7E0", "ATSH7E0", 0, RawString, Unknown, false),
    "CAN_HEADER_7E1" := Command("CAN_HEADER_7E1", "Set CAN module ID to 7E1", "ATSH7E1", 0, RawString, Unknown, false),
    "CAN_HEADER_7E4" := Command("CAN_HEADER_7E4", "Set CAN module ID to 7E4", "ATSH7E4", 0, RawString, Unknown, false),
    "CAN_HEADER_7E7" := Command("CAN_HEADER_7E7", "Set CAN module ID to 7E7", "ATSH7E7", 0, RawString, Unknown, false),

    "CAN_RECEIVE_ADDRESS_7E8" := Command("CAN_RECEIVE_ADDRESS_7E8", "Set the CAN receive address to 7E8", "ATCRA7E8", 0, RawString, Unknown, false),
    "CAN_RECEIVE_ADDRESS_7E9" := Command("CAN_RECEIVE_ADDRESS_7E9", "Set the CAN receive address to 7E9", "ATCRA7E9", 0, RawString, Unknown, false),
    "CAN_RECEIVE_ADDRESS_7EC" := Command("CAN_RECEIVE_ADDRESS_7EC", "Set the CAN receive address to 7EC", "ATCRA7EC", 0, RawString, Unknown, false),
    "CAN_RECEIVE_ADDRESS_7EF" := Command("CAN_RECEIVE_ADDRESS_7EF", "Set the CAN receive address to 7EF", "ATCRA7EF", 0, RawString, Unknown, false)
  ]

  /** `ext_commands[key]`: the entry, or `None` where Python raises
      `KeyError`. */
  function Lookup(key: string): Option<Command>
  {
    if key in ExtCommands then Some(ExtCommands[key]) else None
  }

  /** A hexadecimal digit of either case. */
  predicate IsHexDigit(c: char)
  {
    '0' <= c <= '9' || 'a' <= c <= 'f' || 'A' <= c <= 'F'
  }

  /** A ReadDataByIdentifier request: service byte 22 and a two-byte data
      identifier, as six hexadecimal characters. */
  predicate IsReadById(s: string)
  {
    |s| == 6 && s[0] == '2' && s[1] == '2' && IsHexDigit(s[2]) && IsHexDigit(s[3])
    && IsHexDigit(s[4]) && IsHexDigit(s[5])
  }

  // ---------------------------------------------------------------------
  // Properties of the table

  /** Each pair uses the legislated identifiers: request in 7E0..7E7 and the
      reply exactly 8 above it. */
  lemma LegislatedPairs(p: EcuPair)
    ensures 0x7E0 <= RequestId(p) <= 0x7E7
    ensures ResponseId(p) == RequestId(p) + 8
  {
  }

  /** The addressing keys spell out their identifiers in hexadecimal, and
      each is one of `AddressingKeys`. */
  lemma KeysSpellAddresses(p: EcuPair)
    ensures HeaderKey(p) == "CAN_HEADER_" + Hex3(RequestId(p))
    ensures ReceiveKey(p) == "CAN_RECEIVE_ADDRESS_" + Hex3(ResponseId(p))
    ensures HeaderKey(p) in AddressingKeys && ReceiveKey(p) in AddressingKeys
  {
    AddressingKeysOfPairs();
    match p
    case Pair7E0 =>
      assert Hex3(RequestId(p)) == "7E0" && Hex3(ResponseId(p)) == "7E8";
    case Pair7E1 =>
      assert Hex3(RequestId(p)) == "7E1" && Hex3(ResponseId(p)) == "7E9";
    case Pair7E4 =>
      assert Hex3(RequestId(p)) == "7E4" && Hex3(ResponseId(p)) == "7EC";
    case Pair7E7 =>
      assert Hex3(RequestId(p)) == "7E7" && Hex3(ResponseId(p)) == "7EF";
  }

  /** Conversely, every key of `AddressingKeys` is the header or the
      receive key of one of the four pairs. */
  lemma AddressingKeysOfPairs()
    ensures AddressingKeys ==
      {HeaderKey(Pair7E0), HeaderKey(Pair7E1), HeaderKey(Pair7E4), HeaderKey(Pair7E7),
       ReceiveKey(Pair7E0), ReceiveKey(Pair7E1), ReceiveKey(Pair7E4), ReceiveKey(Pair7E7)}
  {
  }

  /** The entry that sets the CAN header to the pair's request
      (`ATSH7E4` for the pair 7E4/7EC). */
  function HeaderCommand(p: EcuPair): Command
  {
    Command(HeaderKey(p), "Set CAN module ID to " + Hex3(RequestId(p)),
            "ATSH" + Hex3(RequestId(p)), 0, RawString, Unknown, false)
  }

  /** The entry that sets the receive filter to the pair's reply address
      (`ATCRA7EC` for the pair 7E4/7EC). */
  function ReceiveCommand(p: EcuPair): Command
  {
    Command(ReceiveKey(p), "Set the CAN receive address to " + Hex3(ResponseId(p)),
            "ATCRA" + Hex3(ResponseId(p)), 0, RawString, Unknown, false)
  }

  /** Every header entry sends `ATSH` followed by the address in its key and
      says so in its description; it is a `raw_string`, `ECU.UNKNOWN` entry. */
  lemma HeaderEntry(p: EcuPair)
    ensures HeaderKey(p) in ExtCommands && ExtCommands[HeaderKey(p)] == HeaderCommand(p)
  {
    match p
    case Pair7E0 =>
      assert Hex3(RequestId(p)) == "7E0";
    case Pair7E1 =>
      assert Hex3(RequestId(p)) == "7E1";
    case Pair7E4 =>
      assert Hex3(RequestId(p)) == "7E4";
    case Pair7E7 =>
      assert Hex3(RequestId(p)) == "7E7";
  }

  /** Every receive entry sends `ATCRA` followed by the address in its key
      and says so in its description; it is a `raw_string`, `ECU.UNKNOWN`
      entry. */
  lemma ReceiveEntry(p: EcuPair)
    ensures ReceiveKey(p) in ExtCommands && ExtCommands[ReceiveKey(p)] == ReceiveCommand(p)
  {
    match p
    case Pair7E0 =>
      assert Hex3(ResponseId(p)) == "7E8";
    case Pair7E1 =>
      assert Hex3(ResponseId(p)) == "7E9";
    case Pair7E4 =>
      assert Hex3(ResponseId(p)) == "7EC";
    case Pair7E7 =>
      assert Hex3(ResponseId(p)) == "7EF";
  }

  /** Every entry has byte count 0 and fast = False; the addressing entries
      are exactly the `raw_string` ones and exactly the `ECU.UNKNOWN` ones;
      every other entry is `ECU.ALL`. */
  lemma EntryFlags(k: string)
    requires k in ExtCommands
    ensures ExtCommands[k].bytes == 0 && !ExtCommands[k].fast
    ensures k in AddressingKeys <==> ExtCommands[k].decoder == RawString
    ensures k in AddressingKeys <==> ExtCommands[k].ecu == Unknown
    ensures k !in AddressingKeys <==> ExtCommands[k].ecu == All
  {
  }

  /** Each key is its command's name, except the two capacity estimates
      whose names read `KWH` where their keys read `AH`. */
  lemma KeysAreNames(k: string)
    requires k in ExtCommands
    ensures ExtCommands[k].name == k <==>
              k != "BAT_PACK_CAP_AH_EST_2018" && k != "BAT_PACK_CAP_AH_EST_2019"
    ensures ExtCommands["BAT_PACK_CAP_AH_EST_2018"].name == "BAT_PACK_CAP_KWH_EST_2018"
    ensures ExtCommands["BAT_PACK_CAP_AH_EST_2019"].name == "BAT_PACK_CAP_KWH_EST_2019"
  {
  }

  /** Every data entry requests service 0x22 with a two-byte identifier,
      except `BAT_PACK_SOC_RAW_LD`, the J1979 service $01 PID $5B request
      decoded by the A/2.55 family. */
  lemma DataRequests(k: string)
    requires k in ExtCommands && k !in AddressingKeys
    ensures IsReadById(ExtCommands[k].command) <==> k != "BAT_PACK_SOC_RAW_LD"
    ensures ExtCommands["BAT_PACK_SOC_RAW_LD"].command == "015b"
    ensures IntendedFormula(ExtCommands["BAT_PACK_SOC_RAW_LD"].decoder) ==
              Some(Decoders.SocRawLdVar)
  {
    if k in {"BAT_PACK_CAP_AH_RAW_2018", "BAT_PACK_CAP_AH_RAW_2019"} {
      RawCapacityReads(k);
    } else if k in {"BAT_PACK_CAP_AH_EST_2018", "BAT_PACK_CAP_AH_EST_2019"} {
      EstimatedCapacityReads(k);
    } else if k in {"BAT_PACK_SOC_DISP", "BAT_PACK_SOC_RAW_HD"} {
      SocReads(k);
    } else if k in {"BAT_PACK_SOC_RAW_LD2", "BAT_PACK_SOC_RAW_LD3", "BAT_PACK_SOC_VAR",
                    "BAT_PACK_CURRENT_HD", "AMBIENT_AIR_TEMP"} {
      VariationCurrentAirReads(k);
    } else if k != "BAT_PACK_SOC_RAW_LD" {
      CoolantChargerReads(k);
    }
  }

  /** The raw capacity entries read by identifier. */
  lemma RawCapacityReads(k: string)
    requires k in {"BAT_PACK_CAP_AH_RAW_2018", "BAT_PACK_CAP_AH_RAW_2019"}
    ensures k in ExtCommands && IsReadById(ExtCommands[k].command)
  {
  }

  /** The estimated capacity entries read by identifier. */
  lemma EstimatedCapacityReads(k: string)
    requires k in {"BAT_PACK_CAP_AH_EST_2018", "BAT_PACK_CAP_AH_EST_2019"}
    ensures k in ExtCommands && IsReadById(ExtCommands[k].command)
  {
  }

  /** The displayed and high-definition state-of-charge entries read by
      identifier. */
  lemma SocReads(k: string)
    requires k in {"BAT_PACK_SOC_DISP", "BAT_PACK_SOC_RAW_HD"}
    ensures k in ExtCommands && IsReadById(ExtCommands[k].command)
  {
  }

  /** The other state-of-charge entries, the current and the ambient
      temperature read by identifier. */
  lemma VariationCurrentAirReads(k: string)
    requires k in {"BAT_PACK_SOC_RAW_LD2", "BAT_PACK_SOC_RAW_LD3", "BAT_PACK_SOC_VAR",
                   "BAT_PACK_CURRENT_HD", "AMBIENT_AIR_TEMP"}
    ensures k in ExtCommands && IsReadById(ExtCommands[k].command)
  {
  }

  /** The coolant temperature and charger entries read by identifier. */
  lemma CoolantChargerReads(k: string)
    requires k in {"BAT_COOLANT_TEMP", "ELEC_COOLANT_TEMP", "AC_VOLTAGE", "AC_CURRENT", "CHARGING_LEVEL"}
    ensures k in ExtCommands && IsReadById(ExtCommands[k].command)
  {
  }

  /** The 2017-2018 raw and estimated capacities send the same request,
      2241a3, and decode it differently. */
  lemma CapacityRequests2018()
    ensures ExtCommands["BAT_PACK_CAP_AH_RAW_2018"].command == ExtCommands["BAT_PACK_CAP_AH_EST_2018"].command == "2241a3"
    ensures ExtCommands["BAT_PACK_CAP_AH_RAW_2018"].decoder != ExtCommands["BAT_PACK_CAP_AH_EST_2018"].decoder
  {
  }

  /** The 2019+ raw and estimated capacities send the same request, 2245f9,
      and decode it differently. */
  lemma CapacityRequests2019()
    ensures ExtCommands["BAT_PACK_CAP_AH_RAW_2019"].command == ExtCommands["BAT_PACK_CAP_AH_EST_2019"].command == "2245f9"
    ensures ExtCommands["BAT_PACK_CAP_AH_RAW_2019"].decoder != ExtCommands["BAT_PACK_CAP_AH_EST_2019"].decoder
  {
  }

  /** The battery and electronics coolant temperatures are one request,
      2241A4, under two keys with the same decoder. */
  lemma CoolantRequests()
    ensures ExtCommands["BAT_COOLANT_TEMP"].command == ExtCommands["ELEC_COOLANT_TEMP"].command == "2241A4"
    ensures ExtCommands["BAT_COOLANT_TEMP"].decoder == ExtCommands["ELEC_COOLANT_TEMP"].decoder
  {
  }

  /** No decoder tag the registry names, other than python-OBD's
      `raw_string`, is a decoder defined in obdii/decoders.py. */
  lemma TagsNameNoDefinedDecoder(t: DecoderTag, f: Decoders.Formula)
    requires t != RawString
    ensures TagName(t) != Decoders.Name(f)
  {
  }

  /** Keys the signal wrappers ask for that the table lacks. */
  lemma SomeCallerKeysMissing()
    ensures "BAT_PACK_CAP_KWH_EST_2018" !in ExtCommands
    ensures "BAT_PACK_CAP_KWH_EST_2019" !in ExtCommands
    ensures "HV_CURRENT" !in ExtCommands
    ensures "BAT_MOD_TEMP_1" !in ExtCommands
  {
  }
}
