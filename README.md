# Chevrolet Bolt OBD-II battery poller, modelled in Dafny

The program polls a Chevrolet Bolt EV's CAN bus through an ELM327 OBD-II
adapter. It reads manufacturer-specific battery signals (capacity, state of
charge, currents, temperatures, the 96 cell voltages) and publishes them as
one retained MQTT `state` message. This project models its core:

- **`Decoders`** (`decoders.dfy`): the nineteen byte-to-value decoders of
  `obdii/decoders.py`. Each one returns `NoValue` on an empty payload,
  `IndexError` when a non-empty payload is too short for the bytes the
  formula reads, and otherwise the exact value of the formula. A is byte 3
  and B is byte 4.
- **`Commands`** (`commands.dfy`): the `ext_commands` registry of
  `obdii/commands.py`, as a map from key to `Command` record. It also models
  the four ECU addressing pairs: header 7E0/7E1/7E4/7E7, each replying
  8 above.
- **`Dict`** (`dict.dfy`): Python's insertion-ordered `dict`, as a sequence
  of key/value pairs. It models `bolt_state`.
- **`Query`** (`query.dfy`): `query_command` and `obd_connect` from
  `obdii/obdii_data.py`, plus one parameterised `query_*` wrapper:
  - the wrapper sets the CAN header, then the receive address, then sends
    the data command;
  - the adapter is a class whose script of outcomes and statuses answers
    the queries and connection attempts;
  - ghost logs on the adapter record every command sent, every sleep and
    every connection opened;
  - every method is proved equal to a pure trace function of the scripts,
    and the lemmas are stated about those trace functions.
- **`Poll`** (`poll.dfy`): the body of `main`. It connects, then runs the
  128 per-signal `try` blocks in order. The first 32 blocks are the pack and
  module signals; the last 96 are the cells. A returned value is stored in
  `bolt_state`, and a `ValueError` is swallowed. Any other exception leaves
  the blocks, and then no message is published. The cycle is stated for any
  wrapper function (`Poll.CycleTrace` takes it as a parameter). `main` uses
  `Poll.Block`, the generic `query_*` wrapper. The general lemmas need only
  what `Poll.BlockBehaves` and `Poll.BlockAnswers` prove about that wrapper.

`Wrappers` (`wrappers.dfy`) holds `Option` and `Result`.

Where the prose design and the code disagree, the model follows the code:

- The design describes a transport exception as spoiling only the attempt
  it happened in. In `query_command` the `exception` flag is never cleared,
  so every later attempt is also invalid (`Query.StickyException`).
- The design says one signal's failure never aborts the cycle. The blocks
  in `main` catch only `ValueError` and `CanError`. Only 10 of the 128
  blocks look up a data key that `ext_commands` holds: the two raw
  capacities, the six state-of-charge readings, the pack current and the
  ambient temperature (`Poll.SignalsRegistered`). The other 118 look up a
  key that does not exist, for example `BAT_PACK_CAP_KWH_EST_2018` and
  every `BAT_CELL_VOLT_NN`. Each of them raises `KeyError` once its
  addressing queries succeed, and the `KeyError` escapes. Then `mqtt_msgs`
  stays empty. Against an adapter that answers every query, this happens
  at the third block (`Poll.AnsweringAdapterPublishesNothing`).

## Model

| member | source | states |
|---|---|---|
| Decoders.Word | obdii/decoders.py:5-10 | A*256+B lies in 0..65535, and A and B are its quotient and remainder by 256 |
| Decoders.Split | obdii/decoders.py:5-10 | splitting a value in 0..65535 into two bytes gives back the value under A*256+B |
| Decoders.SplitWord | obdii/decoders.py:5-10 | the composite A*256+B determines A and B |
| Decoders.Signed | obdii/decoders.py:54-59 | the signed byte lies in -128..127 and is congruent to the byte modulo 256 |
| Decoders.SignedWord | obdii/decoders.py:54-59 | Signed(A)*256+B lies in -32768..32767 and is congruent to A*256+B modulo 65536 |
| Decoders.BatPackCapAhRaw2018 | obdii/decoders.py:5-10 | None exactly on an empty payload, an index error exactly when the payload has 1..4 bytes, otherwise a value in 0..6553.5 |
| Decoders.BatPackCapAhRaw2019 | obdii/decoders.py:12-17 | the same shape; the value lies in 0..655.35 |
| Decoders.BatPackCapAhEst2018 | obdii/decoders.py:19-24 | the same shape; the value lies in 0..2097.12 |
| Decoders.BatPackCapAhEst2019 | obdii/decoders.py:26-31 | the same shape; the value lies in 0..209.712 |
| Decoders.BatPackSocDisp | obdii/decoders.py:33-38 | reads A only (an index error only for 1..3 bytes); a percentage in 0..100 |
| Decoders.BatPackSocRawHd | obdii/decoders.py:40-45 | reads A and B; a percentage in 0..100 |
| Decoders.BatPackSocRawLdVar | obdii/decoders.py:47-52 | reads A only; a percentage in 0..100 |
| Decoders.BatPackCurrentHd | obdii/decoders.py:54-59 | reads A and B; a signed current in -1638.4..1638.35 |
| Decoders.BatPackNumCharges | obdii/decoders.py:61-66 | as written: reads A and B; a whole number in 0..256 |
| Decoders.BatModTemp | obdii/decoders.py:68-73 | reads A only; a whole number of degrees in -40..215 |
| Decoders.BatCellVoltMinMax | obdii/decoders.py:75-80 | reads A and B; a value in 0..65535/1666.666 |
| Decoders.BatCellVoltMinMaxNum | obdii/decoders.py:82-87 | reads A only; a whole cell number in 0..255 |
| Decoders.BatCellVoltAvg | obdii/decoders.py:89-94 | reads A and B; a voltage in 0..5 |
| Decoders.BatPackResistance | obdii/decoders.py:96-101 | reads A and B; a value in 0..32767.5 |
| Decoders.BatPackVoltMinMax | obdii/decoders.py:103-108 | reads A and B; a value in 0..34078.2 |
| Decoders.HvCurrentHd | obdii/decoders.py:110-115 | reads A and B; a signed current in -1638.4..1638.35 |
| Decoders.HvCurrent | obdii/decoders.py:117-122 | reads A and B; a value in -32767/6.675..32768/6.675 |
| Decoders.AmbientAirTemp | obdii/decoders.py:124-129 | reads A only; a whole number of degrees in -40..215 |
| Decoders.BatCellVolt | obdii/decoders.py:131-136 | as written: reads A only (needs 4 bytes); a voltage in 0..5 |
| Decoders.Decode | obdii/decoders.py:1-136 | the decoder table, with bat_pack_num_charges and bat_cell_volt corrected: None / index error / value exactly by the decoder's width |
| Decoders.OnlyDataBytesRead | obdii/decoders.py:1-136 | every decoder depends only on A (and B when it reads two bytes): echo and trailing bytes do not matter |
| Decoders.UnsignedMonotone | obdii/decoders.py:5-136 | the eleven unsigned-composite decoders of the table (the two corrected ones included) are non-negative and monotone in A*256+B |
| Decoders.SocDisplayEnds | obdii/decoders.py:33-38 | A=255 gives 100 percent and A=0 gives 0 |
| Decoders.SocLdVarIsSocDisp | obdii/decoders.py:33-52 | A/2.55 and A*100/255 agree on every payload |
| Decoders.TemperaturesAgree | obdii/decoders.py:68-129 | module and ambient temperature are the same function, 0 degrees at A=40 |
| Decoders.CurrentHdTwins | obdii/decoders.py:54-115 | bat_pack_current_hd and hv_current_hd agree on every payload |
| Decoders.CurrentHdAtFF00 | obdii/decoders.py:54-59 | A=0xFF, B=0 is read as signed: -12.8 |
| Decoders.HvCurrentOppositeSign | obdii/decoders.py:110-122 | hv_current is hv_current_hd scaled by -20/6.675: the signs are opposite and zero matches zero |
| Decoders.CellVoltIsByteOver51 | obdii/decoders.py:131-136 | as written, bat_cell_volt is A/51 |
| Decoders.CellVoltIgnoresB | obdii/decoders.py:131-136 | two payloads that differ in B decode alike as written, but differently under the intended formula |
| Decoders.BatCellVoltIntended | obdii/decoders.py:89-94 | the corrected cell voltage: the bat_cell_volt_avg formula, 0..5 volts |
| Decoders.CellVoltIntendedProperties | obdii/decoders.py:131-136 | the corrected cell voltage is strictly increasing in A*256+B and equals the as-written one exactly when B = A |
| Decoders.NumChargesAsWritten | obdii/decoders.py:61-66 | as written, the charge count is B plus 1 when A < 8 |
| Decoders.NumChargesCollapses | obdii/decoders.py:61-66 | 01 2C and 05 2C both give 45 as written, against 300 and 1324 intended |
| Decoders.BatPackNumChargesIntended | obdii/decoders.py:61-66 | the corrected charge count (A<<8)+B: a whole number in 0..65535 |
| Decoders.NumChargesIntendedInjective | obdii/decoders.py:61-66 | the corrected charge count determines A and B |
| Commands.LegislatedPairs | obdii/commands.py:10-18 | each addressing pair requests in 7E0..7E7 and listens exactly 8 above |
| Commands.KeysSpellAddresses | obdii/commands.py:10-18 | each addressing key spells out its identifier in hexadecimal and is one of the eight addressing keys |
| Commands.AddressingKeysOfPairs | obdii/commands.py:10-18 | conversely, the eight addressing keys are exactly the header and receive keys of the four pairs |
| Commands.RegistryKeysExact | obdii/commands.py:8-40 | ext_commands holds exactly 25 keys: the 17 data requests and the 8 addressing commands, and no other |
| Commands.Lookup | obdii/obdii_data.py:88 | `ext_commands[key]`: the entry when the key is present, None where Python raises KeyError; which keys are present is RegistryKeysExact's statement |
| Commands.HeaderEntry | obdii/commands.py:10-13 | the header entry for every pair is present and sends ATSH plus the request identifier, as a raw_string / ECU.UNKNOWN command |
| Commands.ReceiveEntry | obdii/commands.py:15-18 | the receive entry for every pair is present and sends ATCRA plus the reply identifier, as a raw_string / ECU.UNKNOWN command |
| Commands.EntryFlags | obdii/commands.py:8-40 | every entry has 0 bytes and fast False; raw_string, ECU.UNKNOWN and being an addressing key coincide; every other entry is ECU.ALL |
| Commands.KeysAreNames | obdii/commands.py:20-37 | each key is its command's name except the two AH_EST keys, named KWH_EST |
| Commands.DataRequests | obdii/commands.py:20-37 | every data entry is a service 0x22 request except BAT_PACK_SOC_RAW_LD, the J1979 service 01 PID 5B request |
| Commands.CapacityRequests2018 | obdii/commands.py:20-22 | 2241a3 is sent under both the raw and the estimate 2017-2018 capacity keys, with different decoders |
| Commands.CapacityRequests2019 | obdii/commands.py:21-23 | 2245f9 is sent under both the raw and the estimate 2019+ capacity keys, with different decoders |
| Commands.CoolantRequests | obdii/commands.py:33-34 | 2241A4 is sent under both coolant keys, with the same decoder |
| Commands.TagsNameNoDefinedDecoder | obdii/commands.py:20-37 | no decoder name in the registry other than raw_string is defined in obdii/decoders.py |
| Commands.SomeCallerKeysMissing | obdii/obdii_data.py:105-124 | BAT_PACK_CAP_KWH_EST_2018/2019, HV_CURRENT and BAT_MOD_TEMP_1, which wrappers look up, are not registry keys |
| Dict.Put | obdii/obdii_data.py:1767-1769 | `d[k] = v`: the keys become old keys plus k; the pair (k, v) is stored; a new key is appended at the end; every entry is the new pair or an old one |
| Dict.PutKeepsKeysUnique | obdii/obdii_data.py:1767-1769 | assignment keeps each key stored once, and the one entry for k holds v |
| Dict.PutKeepsOthers | obdii/obdii_data.py:1767-1769 | assigning k keeps every entry of every other key |
| Dict.PutPresentKeepsOrder | obdii/obdii_data.py:1767-1769 | assigning an existing key keeps the length and the key order, leaves the other keys' entries alone, and the entry of k becomes (k, v) |
| Dict.PutPresentReplaces | obdii/obdii_data.py:1767-1769 | in a dict with unique keys, assigning a present key keeps the length, turns every entry of k into (k, v) and leaves every other entry where it was |
| Query.Presentable | obdii/obdii_data.py:56 | the value tests of the validity check: a value is kept unless it is None, "?" or "" |
| Query.Usable | obdii/obdii_data.py:56 | a reply is valid when it is not None, not null, and its value is presentable (the exception flag is added by Attempt) |
| Query.Drop | obdii/obdii_data.py:53 | the rest of a script after n entries: its length and its entries |
| Query.Ramp | obdii/obdii_data.py:57-59 | the backoff sleeps are 1, 2, ..., n seconds |
| Query.FirstStop | obdii/obdii_data.py:51-59 | the first attempt that does not return an invalid reply, with every earlier one invalid |
| Query.QueryTrace | obdii/obdii_data.py:45-66 | never more than max_attempts queries; sleeps 1..count-1; success returns the first valid reply after only invalid ones; failure is ValueError after exactly max_attempts queries |
| Query.QueryOkIff | obdii/obdii_data.py:45-66 | query_command succeeds exactly when some attempt within the budget is valid and every one before it returned an invalid reply |
| Query.QuerySucceedsAt | obdii/obdii_data.py:45-66 | a valid reply at attempt k after k invalid ones: k+1 queries, sleeps 1..k, that reply returned |
| Query.StickyException | obdii/obdii_data.py:48-56 | once an attempt raises, the call makes all max_attempts queries and raises ValueError, whatever later replies would be |
| Query.QueryExhausted | obdii/obdii_data.py:61-63 | all attempts invalid: exactly max_attempts queries, sleeps 1..max_attempts-1, ValueError |
| Query.FirstConnected | obdii/obdii_data.py:27-37 | the first connection reporting CAR_CONNECTED, with none before it |
| Query.ConnectTrace | obdii/obdii_data.py:25-42 | connects at most max_attempts times, stopping at the first CAR_CONNECTED; sleeps 1..count-1; otherwise raises with the last status (or fails on None with no attempt) |
| Query.ConnectOkIff | obdii/obdii_data.py:25-42 | obd_connect succeeds exactly when one of the first max_attempts connections reports CAR_CONNECTED |
| Query.AddressTrace | obdii/obdii_data.py:81-86 | reference definition of the addressing step: the header query, then the receive query only if the header query succeeded; stated by AddressSequencing, with SetAddressing proved equal to it |
| Query.DataTrace | obdii/obdii_data.py:88-90 | reference definition of the data step: KeyError before any query when the key is absent, else the data query's value; stated by DataSequencing, with QueryData proved equal to it |
| Query.SignalTrace | obdii/obdii_data.py:81-90 | reference definition of a wrapper: the addressing step, then the data step on the outcomes left; stated by SignalSequencing, SignalFailures, SignalAnswered and SignalMissingKey, with QuerySignal proved equal to it |
| Query.AddressSequencing | obdii/obdii_data.py:81-86 | 1..3 header commands, then up to 3 receive commands, and the receive command only after the header query succeeded |
| Query.DataSequencing | obdii/obdii_data.py:88-90 | up to 3 copies of the registry entry, none when the key is missing; a returned value is presentable |
| Query.SignalSequencing | obdii/obdii_data.py:81-90 | a wrapper sends header, receive and data runs in that order; receive commands only after the header query succeeded; data commands only after receive commands, once both addressing queries succeeded and the key was found; a returned value is presentable |
| Query.SignalFailures | obdii/obdii_data.py:81-90 | a wrapper fails only with ValueError, or with the KeyError of its own key when that key is absent |
| Query.SignalAnswered | obdii/obdii_data.py:81-90 | three valid replies: one command of each kind, no sleep, the data reply's value returned (KeyError after two commands when the key is absent) |
| Query.SignalMissingKey | obdii/obdii_data.py:105-113 | with an absent key the wrapper raises KeyError exactly when both addressing queries succeeded, else ValueError; no data command is sent |
| Query.Adapter.constructor | obdii/obdii_data.py:30-34 | a fresh adapter holds the given scripts and empty logs |
| Query.Adapter.Query | obdii/obdii_data.py:53 | `connection.query`: answers with the script's next outcome and logs the command |
| Query.Adapter.Open | obdii/obdii_data.py:30-34 | `obd.OBD(...)` and `status()`: the script's next status, one more connection |
| Query.Adapter.Sleep | obdii/obdii_data.py:59 | `time.sleep`: logs the duration, changes nothing else |
| Query.Attempt | obdii/obdii_data.py:51-59 | one pass of the retry loop: one more attempt, the outcome read and the command sent; the exception flag becomes sticky; the reply is valid exactly when usable and no exception so far; a sleep only when invalid and attempts remain |
| Query.QueryCommand | obdii/obdii_data.py:45-66 | the retry loop returns QueryTrace's result and consumes, sends and sleeps exactly what QueryTrace says |
| Query.ObdConnect | obdii/obdii_data.py:25-42 | the connect loop returns ConnectTrace's result, opening and sleeping exactly as ConnectTrace says |
| Query.SetAddressing | obdii/obdii_data.py:82-86 | the two addressing queries behave exactly as AddressTrace says |
| Query.QueryData | obdii/obdii_data.py:88-90 | the registry lookup and data query behave exactly as DataTrace says |
| Query.QuerySignal | obdii/obdii_data.py:81-90 | a wrapper behaves exactly as SignalTrace says |
| Poll.CellSignals | obdii/obdii_data.py:465-1614 | the cell-voltage blocks: one per cell |
| Poll.CellSignalsAt | obdii/obdii_data.py:465-1614 | cell block i is the wrapper for cell i+1: name bat_cell_volt_NN, pair 7E7/7EF, key BAT_CELL_VOLT_NN |
| Poll.CellBlockAt | obdii/obdii_data.py:1961-2534 | block j of main, past the 32 pack blocks, is the wrapper for cell j-31 |
| Poll.Skipped | obdii/obdii_data.py:1771 | `except (ValueError, CanError)`: of the modelled failures only ValueError is swallowed |
| Poll.BlockBehaves | obdii/obdii_data.py:81-90 | every run of the generic wrapper returns a presentable value or raises ValueError, or the KeyError of its own data key when that key is absent |
| Poll.Extend | obdii/obdii_data.py:1769-1772 | reference definition of one block: a returned value is stored under the signal's name, ValueError is swallowed, any other exception aborts |
| Poll.CycleTrace | obdii/obdii_data.py:1767-2535 | the blocks run so far: a result for every block unless one raised something other than ValueError |
| Poll.AbortedStays | obdii/obdii_data.py:1754-2542 | after an uncaught exception no later block runs: more signals change nothing |
| Poll.CycleShape | obdii/obdii_data.py:1767-2535 | every block but the last stored a value or swallowed ValueError; the run ends early exactly when the last block raised something else, always the KeyError of an absent key |
| Poll.StateKeys | obdii/obdii_data.py:1767-2535 | bolt_state holds exactly the names of the signals whose wrapper returned |
| Poll.StateValues | obdii/obdii_data.py:1769-2534 | for every block that returned and is the last returning block of its name, bolt_state holds that name with that value |
| Poll.StateWellFormed | obdii/obdii_data.py:1767-2535 | bolt_state stores each name once, and every stored value is presentable |
| Poll.PollTrace | obdii/obdii_data.py:1752-2542 | reference definition of main's output: nothing when obd_connect fails or a block aborts, else one message carrying bolt_state; stated by Published, with PollCycle proved equal to it |
| Poll.Published | obdii/obdii_data.py:1752-2542 | for any wrapper that behaves like main's (BlockBehaves): at most one message, published exactly when connecting succeeded and no block aborted: retained, QoS 0, topic prefix + "state", the payload holding each returned signal once, with the value the last block of that name returned |
| Poll.BlockAnswers | obdii/obdii_data.py:81-90 | against an adapter that answers, the generic wrapper returns the third reply's value after three commands, or raises KeyError after two when the data key is absent |
| Poll.AnsweredBlockStores | obdii/obdii_data.py:1769-1772 | for a wrapper that answers like main's, a block with a registered key and three valid replies stores the third reply under its name after three commands |
| Poll.AnsweredBlockRaises | obdii/obdii_data.py:105-113 | for a wrapper that answers like main's, a block with an unregistered key and two valid addressing replies raises KeyError after two commands and ends the run |
| Poll.FirstKeys | obdii/commands.py:20-23 | the keys of the first two blocks are registered and that of the third is not |
| Poll.FirstTwoBlocks | obdii/obdii_data.py:1769-1779 | for a wrapper that answers like main's, with six valid replies the first two blocks store both raw capacities |
| Poll.FirstThreeBlocks | obdii/obdii_data.py:1769-1785 | for a wrapper that answers like main's, with eight valid replies the third block raises KeyError after eight commands and two stored values |
| Poll.SignalsStart | obdii/obdii_data.py:1767-2535 | main runs 128 blocks; the first three are the raw 2018, raw 2019 and kWh 2018 capacities |
| Poll.SignalNamesDistinct | obdii/obdii_data.py:1769-2534 | main's 128 blocks store under 128 distinct names |
| Poll.SignalsStoreTheirValues | obdii/obdii_data.py:1769-2534 | in main, whatever the adapter answers, every value a block returned is in bolt_state under that block's name |
| Poll.CapacityKeys | obdii/obdii_data.py:1769-1790 | of the four capacity wrappers, the two raw ones look up a registered key and the two kWh estimates do not |
| Poll.ChargeKeys | obdii/obdii_data.py:1793-1838 | the six state-of-charge wrappers and the pack current look up a registered key, the charge count does not |
| Poll.ModuleTempKeys | obdii/obdii_data.py:1841-1892 | no module-temperature wrapper (1..6, max, min, avg) looks up a registered key |
| Poll.CellSummaryKeys | obdii/obdii_data.py:1895-1922 | no cell-summary wrapper looks up a registered key |
| Poll.PackElectricalKeys | obdii/obdii_data.py:1925-1958 | of the resistance, pack-voltage, high-voltage-current and ambient wrappers only the ambient temperature looks up a registered key |
| Poll.CellBlocksUnregistered | obdii/obdii_data.py:1961-2534 | none of the 96 cell blocks looks up a registered key |
| Poll.PackBlocksRegistered | obdii/obdii_data.py:1769-1958 | of the 32 pack blocks exactly blocks 1, 2, 5-11 and 32 look up a registered key |
| Poll.SignalsRegistered | obdii/obdii_data.py:1769-2534 | exactly those 10 of main's 128 blocks look up a registered key; the other 118 raise KeyError once their addressing queries succeed |
| Poll.RegisteredBlocksCount | obdii/obdii_data.py:1769-2534 | the set of blocks with a registered key has ten members |
| Poll.AnsweringAdapterPublishesNothing | obdii/obdii_data.py:1752-2542 | when the adapter answers every query, main's cycle ends at the third block with KeyError and publishes nothing |
| Poll.RunBlock | obdii/obdii_data.py:1769-1772 | one `try` block extends the run exactly as CycleTrace's next step: state, abort flag, commands and sleeps |
| Poll.RunBlocks | obdii/obdii_data.py:1767-2535 | running the blocks yields CycleTrace's state and abort flag and consumes, sends and sleeps exactly what CycleTrace says |
| Poll.PollCycle | obdii/obdii_data.py:1752-2542 | main's body returns PollTrace's messages and leaves the adapter as connecting and then the blocks leave it |

## Left out

- Reading the JSON configuration, the logging set-up and every log call: these are I/O without effect on the values.
- `publish_data_mqtt` and the `finally` block: the model stops at the list of messages `main` would hand to the publisher. Closing the connection is also left out. The JSON serialisation of `bolt_state` is represented by the ordered entries themselves.
- python-OBD itself is not part of this model. The response framing (`messages[0].data`), the decoding it does before `query_command` sees `.value`, and `print_commands` are all left out. The adapter is a script of outcomes, and `Decoders` is not connected to the queries.
- The port, baud rate, `fast` and `timeout` arguments of `obd_connect`: they only configure python-OBD.
- `time.sleep` is recorded in a ghost log instead of being executed.
- Float arithmetic: the decoders return exact rationals, so rounding of `/10`, `*0.032` and the like is not modelled.
- Decoders.Signed: `bytes_to_int_signed` comes from a `utils` module that is not part of this model. It is taken as one-byte two's complement.
- `Commands` does not model the decoder names in `ext_commands` (`bat_ah_raw_2018`, `coolant_temp`, ...). They are not defined in obdii/decoders.py, so importing the registry would raise `NameError`. The model keeps them as tags and proves the mismatch (`Commands.TagsNameNoDefinedDecoder`). It does not model the import failure.
- The 128 per-signal wrappers are one generic wrapper (`Query.QuerySignal`) driven by the `Poll.Signals` table of name, addressing pair and registry key. `query_charging_level` and the other wrappers that `main` never calls are left out.
- The first of the two definitions of `query_ambient_air_temp` (obdii/obdii_data.py:357 and 1651): Python keeps the later one, and that is the one `main` calls (line 1956). Both send the 7E4/7EC pair and `AMBIENT_AIR_TEMP`, so the last pack block of `Poll.Signals` models the call and nothing is lost.
- `CanError` is caught in `main` but never raised by the modelled code, so no model path produces it.
- Exceptions other than `KeyError` that could escape a block (from python-OBD or the host) are not modelled. An adapter query that raises is covered, because `query_command` catches it.
- Poll.CellSignals: its own contract states only that it builds one block per cell; the name, pair and key of each block are stated by `Poll.CellSignalsAt`.

## Findings

| source | as written | input that shows it | evidently intended | confidence | as-written member | corrected member |
|---|---|---|---|---|---|---|
| obdii/decoders.py:131-136 | `((d[3]*256)+d[3])*5/65535`: byte A is read twice and B is ignored | payloads 00 00 00 BD 00 and 00 00 00 BD FF decode to the same 189/51 V | `((d[3]*256)+d[4])*5/65535`, as in the comment above it and in bat_cell_volt_avg | medium (not executed) | Decoders.CellVoltIgnoresB | Decoders.BatCellVoltIntended |
| obdii/decoders.py:61-66 | `(d[3]<8)+d[4]`: adds the boolean "A is below 8" to B | payloads 00 00 00 01 2C and 00 00 00 05 2C both give 45 | `(d[3]<<8)+d[4]`, the 16-bit charge count (300 and 1324) | medium (not executed) | Decoders.NumChargesCollapses | Decoders.BatPackNumChargesIntended |
