/**
  The signal decoders of obdii/decoders.py. Each decoder receives the bytes
  of one response (`messages[0].data`), answers Python `None` when there are
  none, and otherwise evaluates one fixed formula over the first data byte A
  (offset 3) and, for most of them, the second data byte B (offset 4).
  Offsets 0..2 echo the service and identifier and are never read.

  Arithmetic is exact over `real`; the floating-point rounding of the
  Python program is not modelled.
*/
module Decoders {

  /** One unsigned byte of a response payload. */
  type Byte = x: int | 0 <= x < 256

  /** The bytes of a response, `messages[0].data`. */
  type Payload = seq<Byte>

  /** What a decoder yields: `None` for an empty payload, the `IndexError`
      Python raises when a non-empty payload ends before a byte the formula
      reads, or the decoded number. */
  datatype Reading = NoValue | IndexError | Value(x: real)

  /** The result shape every decoder shares: `None` exactly on the empty
      payload, an index failure exactly when the payload is non-empty but
      shorter than the `width` bytes the formula needs. */
  predicate Shaped(d: Payload, width: nat, r: Reading)
  {
    && (r == NoValue <==> |d| == 0)
    && (r == IndexError <==> 0 < |d| < width)
  }

  // ---------------------------------------------------------------------
  // Byte combinations

  /** The unsigned 16-bit composite A*256+B; it determines A and B back. */
  function Word(a: Byte, b: Byte): (w: int)
    ensures 0 <= w <= 65535
    ensures w / 256 == a && w % 256 == b
  {
    a * 256 + b
  }

  /** Splits a 16-bit composite into its high and low byte. */
  function Split(w: int): (ab: (Byte, Byte))
    requires 0 <= w <= 65535
    ensures Word(ab.0, ab.1) == w
  {
    (w / 256, w % 256)
  }

  /** Splitting a composite gives back the bytes it was made of. */
  lemma SplitWord(a: Byte, b: Byte)
    ensures Split(Word(a, b)) == (a, b)
  {
  }

  /** `bytes_to_int_signed` on one byte, taken as two's complement: the
      unique value in -128..127 congruent to the byte modulo 256. */
  function Signed(b: Byte): (s: int)
    ensures -128 <= s < 128
    ensures (s - b) % 256 == 0
  {
    if b < 128 then b else b - 256
  }

  /** The signed composite Signed(A)*256+B: the 16-bit two's complement
      reading of the unsigned composite. */
  function SignedWord(a: Byte, b: Byte): (w: int)
    ensures -32768 <= w <= 32767
    ensures (w - Word(a, b)) % 65536 == 0
  {
    Signed(a) * 256 + b
  }

  // ---------------------------------------------------------------------
  // The nineteen decoders, in the order of obdii/decoders.py

  /** bat_pack_cap_ah_raw_2018: ((A*256)+B)/10. */
  function BatPackCapAhRaw2018(d: Payload): (r: Reading)
    ensures Shaped(d, 5, r)
    ensures r.Value? ==> 0.0 <= r.x <= 6553.5
  {
    if |d| == 0 then NoValue
    else if |d| < 5 then IndexError
    else Value(Word(d[3], d[4]) as real / 10.0)
  }

  /** bat_pack_cap_ah_raw_2019: ((A*256)+B)/100. */
  function BatPackCapAhRaw2019(d: Payload): (r: Reading)
    ensures Shaped(d, 5, r)
    ensures r.Value? ==> 0.0 <= r.x <= 655.35
  {
    if |d| == 0 then NoValue
    else if |d| < 5 then IndexError
    else Value(Word(d[3], d[4]) as real / 100.0)
  }

  /** bat_pack_cap_ah_est_2018: ((A*256)+B)*0.032. */
  function BatPackCapAhEst2018(d: Payload): (r: Reading)
    ensures Shaped(d, 5, r)
    ensures r.Value? ==> 0.0 <= r.x <= 2097.12
  {
    if |d| == 0 then NoValue
    else if |d| < 5 then IndexError
    else Value(Word(d[3], d[4]) as real * 0.032)
  }

  /** bat_pack_cap_ah_est_2019: ((A*256)+B)*0.0032. */
  function BatPackCapAhEst2019(d: Payload): (r: Reading)
    ensures Shaped(d, 5, r)
    ensures r.Value? ==> 0.0 <= r.x <= 209.712
  {
    if |d| == 0 then NoValue
    else if |d| < 5 then IndexError
    else Value(Word(d[3], d[4]) as real * 0.0032)
  }

  /** bat_pack_soc_disp: A*100/255, a percentage. */
  function BatPackSocDisp(d: Payload): (r: Reading)
    ensures Shaped(d, 4, r)
    ensures r.Value? ==> 0.0 <= r.x <= 100.0
  {
    if |d| == 0 then NoValue
    else if |d| < 4 then IndexError
    else Value((d[3] as int * 100) as real / 255.0)
  }

  /** bat_pack_soc_raw_hd: ((A*256)+B)*100/65535, a percentage. */
  function BatPackSocRawHd(d: Payload): (r: Reading)
    ensures Shaped(d, 5, r)
    ensures r.Value? ==> 0.0 <= r.x <= 100.0
  {
    if |d| == 0 then NoValue
    else if |d| < 5 then IndexError
    else Value((Word(d[3], d[4]) * 100) as real / 65535.0)
  }

  /** bat_pack_soc_raw_ld_var: A/2.55, the formula SAE J1979 gives for
      service $01 PID $5B (hybrid/EV battery pack remaining life). */
  function BatPackSocRawLdVar(d: Payload): (r: Reading)
    ensures Shaped(d, 4, r)
    ensures r.Value? ==> 0.0 <= r.x <= 100.0
  {
    if |d| == 0 then NoValue
    else if |d| < 4 then IndexError
    else Value(d[3] as real / 2.55)
  }

  /** bat_pack_current_hd: ((Signed(A)*256)+B)/20, a signed current. */
  function BatPackCurrentHd(d: Payload): (r: Reading)
    ensures Shaped(d, 5, r)
    ensures r.Value? ==> -1638.4 <= r.x <= 1638.35
  {
    if |d| == 0 then NoValue
    else if |d| < 5 then IndexError
    else Value(SignedWord(d[3], d[4]) as real / 20.0)
  }

  /** bat_pack_num_charges as written: `(d[3]<8)+d[4]`, which adds the
      boolean "A is below 8" to B rather than shifting A left by 8. */
  function BatPackNumCharges(d: Payload): (r: Reading)
    ensures Shaped(d, 5, r)
    ensures r.Value? ==> 0.0 <= r.x <= 256.0 && r.x == r.x.Floor as real
  {
    if |d| == 0 then NoValue
    else if |d| < 5 then IndexError
    else Value(((if d[3] < 8 then 1 else 0) + d[4] as int) as real)
  }

  /** bat_mod_temp: A-40, degrees Celsius. */
  function BatModTemp(d: Payload): (r: Reading)
    ensures Shaped(d, 4, r)
    ensures r.Value? ==> -40.0 <= r.x <= 215.0 && r.x == r.x.Floor as real
  {
    if |d| == 0 then NoValue
    else if |d| < 4 then IndexError
    else Value((d[3] as int - 40) as real)
  }

  /** bat_cell_volt_min_max: ((A*256)+B)/1666.666. */
  function BatCellVoltMinMax(d: Payload): (r: Reading)
    ensures Shaped(d, 5, r)
    ensures r.Value? ==> 0.0 <= r.x <= 65535.0 / 1666.666
  {
    if |d| == 0 then NoValue
    else if |d| < 5 then IndexError
    else Value(Word(d[3], d[4]) as real / 1666.666)
  }

  /** bat_cell_volt_min_max_num: the byte A itself (a cell number). */
  function BatCellVoltMinMaxNum(d: Payload): (r: Reading)
    ensures Shaped(d, 4, r)
    ensures r.Value? ==> 0.0 <= r.x <= 255.0 && r.x == r.x.Floor as real
  {
    if |d| == 0 then NoValue
    else if |d| < 4 then IndexError
    else Value(d[3] as real)
  }

  /** bat_cell_volt_avg: ((A*256)+B)*5/65535, volts. */
  function BatCellVoltAvg(d: Payload): (r: Reading)
    ensures Shaped(d, 5, r)
    ensures r.Value? ==> 0.0 <= r.x <= 5.0
  {
    if |d| == 0 then NoValue
    else if |d| < 5 then IndexError
    else Value((Word(d[3], d[4]) * 5) as real / 65535.0)
  }

  /** bat_pack_resistance: ((A*256)+B)/2. */
  function BatPackResistance(d: Payload): (r: Reading)
    ensures Shaped(d, 5, r)
    ensures r.Value? ==> 0.0 <= r.x <= 32767.5
  {
    if |d| == 0 then NoValue
    else if |d| < 5 then IndexError
    else Value(Word(d[3], d[4]) as real / 2.0)
  }

  /** bat_pack_volt_min_max: ((A*256)+B)*0.52. */
  function BatPackVoltMinMax(d: Payload): (r: Reading)
    ensures Shaped(d, 5, r)
    ensures r.Value? ==> 0.0 <= r.x <= 34078.2
  {
    if |d| == 0 then NoValue
    else if |d| < 5 then IndexError
    else Value(Word(d[3], d[4]) as real * 0.52)
  }

  /** hv_current_hd: (Signed(A)*256+B)/20. */
  function HvCurrentHd(d: Payload): (r: Reading)
    ensures Shaped(d, 5, r)
    ensures r.Value? ==> -1638.4 <= r.x <= 1638.35
  {
    if |d| == 0 then NoValue
    else if |d| < 5 then IndexError
    else Value(SignedWord(d[3], d[4]) as real / 20.0)
  }

  /** hv_current: (Signed(A)*256+B)/(-6.675). */
  function HvCurrent(d: Payload): (r: Reading)
    ensures Shaped(d, 5, r)
    ensures r.Value? ==> -32767.0 / 6.675 <= r.x <= 32768.0 / 6.675
  {
    if |d| == 0 then NoValue
    else if |d| < 5 then IndexError
    else Value(SignedWord(d[3], d[4]) as real / -6.675)
  }

  /** ambient_air_temp: A-40, degrees Celsius. */
  function AmbientAirTemp(d: Payload): (r: Reading)
    ensures Shaped(d, 4, r)
    ensures r.Value? ==> -40.0 <= r.x <= 215.0 && r.x == r.x.Floor as real
  {
    if |d| == 0 then NoValue
    else if |d| < 4 then IndexError
    else Value((d[3] as int - 40) as real)
  }

  /** bat_cell_volt as written: ((A*256)+A)*5/65535; the byte A is used
      where B was meant, so the payload needs only four bytes. */
  function BatCellVolt(d: Payload): (r: Reading)
    ensures Shaped(d, 4, r)
    ensures r.Value? ==> 0.0 <= r.x <= 5.0
  {
    if |d| == 0 then NoValue
    else if |d| < 4 then IndexError
    else Value(((d[3] as int * 256 + d[3]) * 5) as real / 65535.0)
  }

  // ---------------------------------------------------------------------
  // The decoder table

  /** One tag per decoder defined in obdii/decoders.py. */
  datatype Formula =
    | CapAhRaw2018 | CapAhRaw2019 | CapAhEst2018 | CapAhEst2019
    | SocDisp | SocRawHd | SocRawLdVar | PackCurrentHd | NumCharges
    | ModTemp | CellVoltMinMax | CellVoltMinMaxNum | CellVoltAvg
    | PackResistance | PackVoltMinMax | HvCurrentHdF | HvCurrentF
    | AmbientAirTempF | CellVolt

  /** The Python name under which the decoder is defined. */
  function Name(f: Formula): string
  {
    match f
    case CapAhRaw2018 => "bat_pack_cap_ah_raw_2018"
    case CapAhRaw2019 => "bat_pack_cap_ah_raw_2019"
    case CapAhEst2018 => "bat_pack_cap_ah_est_2018"
    case CapAhEst2019 => "bat_pack_cap_ah_est_2019"
    case SocDisp => "bat_pack_soc_disp"
    case SocRawHd => "bat_pack_soc_raw_hd"
    case SocRawLdVar => "bat_pack_soc_raw_ld_var"
    case PackCurrentHd => "bat_pack_current_hd"
    case NumCharges => "bat_pack_num_charges"
    case ModTemp => "bat_mod_temp"
    case CellVoltMinMax => "bat_cell_volt_min_max"
    case CellVoltMinMaxNum => "bat_cell_volt_min_max_num"
    case CellVoltAvg => "bat_cell_volt_avg"
    case PackResistance => "bat_pack_resistance"
    case PackVoltMinMax => "bat_pack_volt_min_max"
    case HvCurrentHdF => "hv_current_hd"
    case HvCurrentF => "hv_current"
    case AmbientAirTempF => "ambient_air_temp"
    case CellVolt => "bat_cell_volt"
  }

  /** How many payload bytes a decoder indexes into: 4 when it reads A
      only, 5 when it also reads B (bat_cell_volt as corrected reads B). */
  function Width(f: Formula): nat
  {
    match f
    case SocDisp | SocRawLdVar | ModTemp | CellVoltMinMaxNum
       | AmbientAirTempF => 4
    case _ => 5
  }

  /** The decoders whose formula is the unsigned composite A*256+B times a
      positive constant. */
  predicate UnsignedWordFormula(f: Formula)
  {
    f in {CapAhRaw2018, CapAhRaw2019, CapAhEst2018, CapAhEst2019, SocRawHd, NumCharges,
          CellVoltMinMax, CellVoltAvg, PackResistance, PackVoltMinMax, CellVolt}
  }

  /** Runs decoder `f` on payload `d`, with bat_pack_num_charges and
      bat_cell_volt as corrected below rather than as written. */
  function Decode(f: Formula, d: Payload): (r: Reading)
    ensures Shaped(d, Width(f), r)
  {
    match f
    case CapAhRaw2018 => BatPackCapAhRaw2018(d)
    case CapAhRaw2019 => BatPackCapAhRaw2019(d)
    case CapAhEst2018 => BatPackCapAhEst2018(d)
    case CapAhEst2019 => BatPackCapAhEst2019(d)
    case SocDisp => BatPackSocDisp(d)
    case SocRawHd => BatPackSocRawHd(d)
    case SocRawLdVar => BatPackSocRawLdVar(d)
    case PackCurrentHd => BatPackCurrentHd(d)
    case NumCharges => BatPackNumChargesIntended(d)
    case ModTemp => BatModTemp(d)
    case CellVoltMinMax => BatCellVoltMinMax(d)
    case CellVoltMinMaxNum => BatCellVoltMinMaxNum(d)
    case CellVoltAvg => BatCellVoltAvg(d)
    case PackResistance => BatPackResistance(d)
    case PackVoltMinMax => BatPackVoltMinMax(d)
    case HvCurrentHdF => HvCurrentHd(d)
    case HvCurrentF => HvCurrent(d)
    case AmbientAirTempF => AmbientAirTemp(d)
    case CellVolt => BatCellVoltIntended(d)
  }

  // ---------------------------------------------------------------------
  // Properties of the table

  /** Only A (and B for the two-byte decoders) is read: two payloads long
      enough for the formula that agree on those bytes decode alike,
      whatever their echo bytes 0..2 and trailing bytes. */
  lemma OnlyDataBytesRead(f: Formula, d: Payload, e: Payload)
    requires |d| >= Width(f) && |e| >= Width(f)
    requires d[3] == e[3]
    requires Width(f) == 5 ==> d[4] == e[4]
    ensures Decode(f, d) == Decode(f, e)
  {
  }

  /** The unsigned-composite decoders are non-negative and monotone in
      A*256+B. */
  lemma UnsignedMonotone(f: Formula, d: Payload, e: Payload)
    requires UnsignedWordFormula(f)
    requires |d| >= 5 && |e| >= 5
    requires Word(d[3], d[4]) <= Word(e[3], e[4])
    ensures Decode(f, d).Value? && Decode(f, e).Value?
    ensures 0.0 <= Decode(f, d).x <= Decode(f, e).x
  {
    var v, w := Word(d[3], d[4]) as real, Word(e[3], e[4]) as real;
    assert 0.0 <= v <= w;
    match f
    case CellVoltAvg | CellVolt =>
      assert (Word(d[3], d[4]) * 5) as real == v * 5.0;
      assert (Word(e[3], e[4]) * 5) as real == w * 5.0;
    case SocRawHd =>
      assert (Word(d[3], d[4]) * 100) as real == v * 100.0;
      assert (Word(e[3], e[4]) * 100) as real == w * 100.0;
    case _ =>
  }

  /** The displayed state of charge maps 255 to 100 percent and 0 to 0. */
  lemma SocDisplayEnds(d: Payload)
    requires |d| >= 4
    ensures d[3] == 255 ==> BatPackSocDisp(d) == Value(100.0)
    ensures d[3] == 0 ==> BatPackSocDisp(d) == Value(0.0)
  {
  }

  /** A/2.55 and A*100/255 are the same number: the J1979 PID $5B decoder
      agrees with the displayed state of charge on every payload. */
  lemma SocLdVarIsSocDisp(d: Payload)
    ensures BatPackSocRawLdVar(d) == BatPackSocDisp(d)
  {
    if |d| >= 4 {
      var a := d[3] as real;
      assert (d[3] as int * 100) as real == a * 100.0;
      assert a / 2.55 == a * 100.0 / 255.0;
    }
  }

  /** The module and ambient temperatures are the same A-40 function, zero
      at A = 40. */
  lemma TemperaturesAgree(d: Payload)
    ensures BatModTemp(d) == AmbientAirTemp(d)
    ensures |d| >= 4 && d[3] == 40 ==> BatModTemp(d) == Value(0.0)
  {
  }

  /** The two high-resolution currents are the same function. */
  lemma CurrentHdTwins(d: Payload)
    ensures BatPackCurrentHd(d) == HvCurrentHd(d)
  {
  }

  /** With A = 0xFF (signed -1) and B = 0 the current is -256/20 = -12.8. */
  lemma CurrentHdAtFF00(d: Payload)
    requires |d| >= 5 && d[3] == 0xFF && d[4] == 0
    ensures BatPackCurrentHd(d) == Value(-12.8)
  {
  }

  /** hv_current divides the same signed numerator by -6.675 instead of 20:
      the two readings are proportional with a negative factor, so their
      signs are opposite. */
  lemma HvCurrentOppositeSign(d: Payload)
    requires |d| >= 5
    ensures HvCurrent(d).x * -6.675 == HvCurrentHd(d).x * 20.0
    ensures HvCurrent(d).x > 0.0 <==> HvCurrentHd(d).x < 0.0
    ensures HvCurrent(d).x == 0.0 <==> HvCurrentHd(d).x == 0.0
  {
  }

  /** As written, bat_cell_volt is A/51 (257*5/65535 = 1/51): it ignores B
      and stays within 0..5 volts. */
  lemma CellVoltIsByteOver51(d: Payload)
    requires |d| >= 4
    ensures BatCellVolt(d) == Value(d[3] as real / 51.0)
  {
    var a := d[3] as real;
    assert ((d[3] as int * 256 + d[3]) * 5) as real == a * 1285.0;
    assert a * 1285.0 / 65535.0 == a / 51.0;
  }

  /** The payload 00 00 00 BD 00 and 00 00 00 BD FF differ in B only, yet
      bat_cell_volt gives both the same 189/51 volts. */
  lemma CellVoltIgnoresB()
    ensures BatCellVolt([0, 0, 0, 0xBD, 0x00]) == BatCellVolt([0, 0, 0, 0xBD, 0xFF])
    ensures BatCellVoltIntended([0, 0, 0, 0xBD, 0x00]) != BatCellVoltIntended([0, 0, 0, 0xBD, 0xFF])
  {
  }

  /** bat_cell_volt with B where the code repeats A: the same formula as
      bat_cell_volt_avg, strictly increasing in A*256+B. */
  function BatCellVoltIntended(d: Payload): (r: Reading)
    ensures Shaped(d, 5, r)
    ensures r == BatCellVoltAvg(d)
    ensures r.Value? ==> 0.0 <= r.x <= 5.0
  {
    if |d| == 0 then NoValue
    else if |d| < 5 then IndexError
    else Value((Word(d[3], d[4]) * 5) as real / 65535.0)
  }

  /** The intended cell voltage separates payloads with different composites
      and agrees with the as-written one exactly when B equals A. */
  lemma CellVoltIntendedProperties(d: Payload, e: Payload)
    requires |d| >= 5 && |e| >= 5
    ensures Word(d[3], d[4]) < Word(e[3], e[4]) ==>
              BatCellVoltIntended(d).x < BatCellVoltIntended(e).x
    ensures BatCellVoltIntended(d) == BatCellVolt(d) <==> d[4] == d[3]
  {
    var v, w := Word(d[3], d[4]), Word(e[3], e[4]);
    assert (v * 5) as real == v as real * 5.0;
    assert (w * 5) as real == w as real * 5.0;
    var asWritten := d[3] as int * 256 + d[3];
    assert (asWritten * 5) as real == asWritten as real * 5.0;
    if d[4] != d[3] {
      assert v != asWritten;
    }
  }

  /** As written, bat_pack_num_charges adds 1 to B when A is below 8 and
      nothing otherwise, so it never exceeds 256. */
  lemma NumChargesAsWritten(d: Payload)
    requires |d| >= 5
    ensures BatPackNumCharges(d) == Value((d[4] as int + (if d[3] < 8 then 1 else 0)) as real)
  {
  }

  /** The payloads 00 00 00 01 2C and 00 00 00 05 2C (charge counts 300 and
      1324 when read as a composite) both decode to 45 as written. */
  lemma NumChargesCollapses()
    ensures BatPackNumCharges([0, 0, 0, 0x01, 0x2C]) == Value(45.0)
    ensures BatPackNumCharges([0, 0, 0, 0x05, 0x2C]) == Value(45.0)
    ensures BatPackNumChargesIntended([0, 0, 0, 0x01, 0x2C]) == Value(300.0)
    ensures BatPackNumChargesIntended([0, 0, 0, 0x05, 0x2C]) == Value(1324.0)
  {
  }

  /** bat_pack_num_charges with `<<` where the code has `<`: the composite
      (A<<8)+B = A*256+B, a whole number in 0..65535. */
  function BatPackNumChargesIntended(d: Payload): (r: Reading)
    ensures Shaped(d, 5, r)
    ensures r.Value? ==> 0.0 <= r.x <= 65535.0 && r.x == r.x.Floor as real
  {
    if |d| == 0 then NoValue
    else if |d| < 5 then IndexError
    else Value(Word(d[3], d[4]) as real)
  }

  /** The intended charge count loses nothing: it determines A and B. */
  lemma NumChargesIntendedInjective(d: Payload, e: Payload)
    requires |d| >= 5 && |e| >= 5
    requires BatPackNumChargesIntended(d) == BatPackNumChargesIntended(e)
    ensures d[3] == e[3] && d[4] == e[4]
  {
    SplitWord(d[3], d[4]);
    SplitWord(e[3], e[4]);
  }
}
