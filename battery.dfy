/** The battery monitor of battery.cpp, which reads the AXP2101 power
    management chip over I2C.

    Every register read is an input here: `None` when the transfer failed,
    in which case `axpReadReg` returns 0, and `Some` of the register's
    byte otherwise. */
module Battery {

  import opened Wrappers

  const FullMv: int := 4200
  const EmptyMv: int := 3000
  /** The plausible range the primary conversion is checked against. */
  const SaneLowMv: int := 2500
  const SaneHighMv: int := 4500

  /** What `axpReadReg` returns for one transfer. */
  function RegValue(read: Option<bv8>): bv8
  {
    match read
    case None => 0
    case Some(b) => b
  }

  /** The 14-bit VBAT reading: all of VBAT_H as bits 13..6 above the low
      six bits of VBAT_L. */
  function AdcValue(vbatH: bv8, vbatL: bv8): (adc: nat)
    ensures adc < 16384
    ensures adc == vbatH as int * 64 + vbatL as int % 64
  {
    LowSixBits(vbatL);
    WidenByte(vbatH);
    ShiftOrSix(vbatH as bv16, (vbatL & 0x3F) as bv16);
    (((vbatH as bv16) << 6) | ((vbatL & 0x3F) as bv16)) as int
  }

  lemma LowSixBits(b: bv8)
    ensures (b & 0x3F) as bv16 as int == b as int % 64 && (b & 0x3F) as bv16 < 64
  {
  }

  lemma WidenByte(b: bv8)
    ensures b as bv16 as int == b as int && b as bv16 < 256
  {
  }

  lemma ShiftOrSix(hi: bv16, lo: bv16)
    requires hi < 256 && lo < 64
    ensures ((hi << 6) | lo) as int == hi as int * 64 + lo as int
  {
  }

  /** The chip's nominal conversion: 1.1 V reference, 14 bits, a divider of 4. */
  function PrimaryMv(adc: nat): int
  {
    adc * 1100 * 4 / 16384
  }

  /** `batteryGetVoltage`'s conversion of a reading held in a `uint16_t`:
      the nominal conversion when it is plausible, otherwise the raw
      reading taken as millivolts, replaced by 3000 below the plausible
      range and by 4200 above it. */
  function Voltage(adc: nat): (mv: int)
    requires adc < 0x1_0000
    ensures SaneLowMv <= mv <= SaneHighMv
    ensures SaneLowMv <= PrimaryMv(adc) <= SaneHighMv ==> mv == PrimaryMv(adc)
    ensures !(SaneLowMv <= PrimaryMv(adc) <= SaneHighMv) ==>
      mv == if adc < SaneLowMv then EmptyMv else if adc > SaneHighMv then FullMv else adc
  {
    var voltage := adc * 1100 * 4 / 16384;
    if voltage < SaneLowMv || voltage > SaneHighMv then
      var fallback := adc;
      var raised := if fallback < SaneLowMv then EmptyMv else fallback;
      if raised > SaneHighMv then FullMv else raised
    else voltage
  }

  /** For a genuine 14-bit reading the nominal conversion never exceeds
      4399 mV, so its upper check never fires; the raw fallback is used
      exactly for readings below 9310, and every reading from 4501 to 9309
      is reported as a full 4200 mV. */
  lemma FourteenBitVoltage(adc: nat)
    requires adc < 16384
    ensures PrimaryMv(adc) <= 4399
    ensures adc >= 9310 ==> Voltage(adc) == PrimaryMv(adc)
    ensures adc < 9310 ==> PrimaryMv(adc) < SaneLowMv
    ensures SaneHighMv < adc < 9310 ==> Voltage(adc) == FullMv
  {
    if adc >= 9310 {
      assert adc * 4400 >= 9310 * 4400;
    } else {
      assert adc * 4400 < 2500 * 16384;
    }
  }

  /** The voltage is not monotone in the reading: one step across 9310
      drops the report from full to the bottom of the range. */
  lemma VoltageJumpsAtFallbackEdge()
    ensures Voltage(9309) == FullMv && Voltage(9310) == SaneLowMv
  {
  }

  /** `batteryGetPercent`'s sanity clamp of the 0xA4 register. */
  function Percent(reg: bv8): (p: nat)
    ensures p <= 100
    ensures reg as int <= 100 ==> p == reg as int
    ensures reg as int > 100 ==> p == 100
  {
    if reg > 100 then 100 else reg as int
  }

  /** Bit 5 of STATUS1. */
  function Charging(status: bv8): (c: bool)
    ensures c <==> (status as int / 32) % 2 == 1
  {
    BitFive(status);
    (status & 0x20) != 0
  }

  lemma BitFive(b: bv8)
    ensures ((b & 0x20) != 0) == ((b as int / 32) % 2 == 1)
  {
  }

  /** The ADC_ENABLE register with bit 0 (VBAT measurement) set. */
  function EnableVbatAdc(reg: bv8): (r: bv8)
    ensures r as int % 2 == 1
    ensures r as int / 2 == reg as int / 2
  {
    BitZero(reg);
    reg | 0x01
  }

  lemma BitZero(b: bv8)
    ensures (b | 0x01) as int % 2 == 1 && (b | 0x01) as int / 2 == b as int / 2
  {
  }

  /** What a failed transfer makes the monitor report: an empty battery
      that is not charging, at 3000 mV. */
  lemma FailedReadsLookEmpty()
    ensures Voltage(AdcValue(RegValue(None), RegValue(None))) == EmptyMv
    ensures Percent(RegValue(None)) == 0
    ensures !Charging(RegValue(None))
  {
  }

  /** The `initialized` flag of battery.cpp. */
  class Monitor {
    var initialized: bool

    constructor ()
      ensures !initialized
    {
      initialized := false;
    }

    /** `batteryInit`: `present` is whether the chip acknowledged its
        address, `adcEnable` the read of ADC_ENABLE. Returns the byte written
        back to ADC_ENABLE, if any. */
    method Init(present: bool, adcEnable: Option<bv8>) returns (ok: bool, written: Option<bv8>)
      modifies this
      ensures ok == present
      ensures written == if present then Some(EnableVbatAdc(RegValue(adcEnable))) else None
      ensures initialized == (old(initialized) || present)
    {
      if !present {
        return false, None;
      }
      var reg := RegValue(adcEnable);
      written := Some(reg | 0x01);
      initialized := true;
      ok := true;
    }

    /** `batteryGetVoltage`, given the reads of VBAT_H and VBAT_L. */
    method GetVoltage(vbatH: Option<bv8>, vbatL: Option<bv8>) returns (mv: int)
      ensures !initialized ==> mv == 0
      ensures initialized ==> mv == Voltage(AdcValue(RegValue(vbatH), RegValue(vbatL)))
      ensures initialized ==> SaneLowMv <= mv <= SaneHighMv
    {
      if !initialized {
        return 0;
      }
      var adc := AdcValue(RegValue(vbatH), RegValue(vbatL));
      var voltage := adc * 1100 * 4 / 16384;
      if voltage < SaneLowMv || voltage > SaneHighMv {
        voltage := adc;
        if voltage < SaneLowMv {
          voltage := EmptyMv;
        }
        if voltage > SaneHighMv {
          voltage := FullMv;
        }
      }
      mv := voltage;
    }

    /** `batteryGetPercent`, given the read of register 0xA4; 50 before
        initialisation. */
    method GetPercent(reg: Option<bv8>) returns (percent: int)
      ensures !initialized ==> percent == 50
      ensures initialized ==> percent == Percent(RegValue(reg))
      ensures 0 <= percent <= 100
    {
      if !initialized {
        return 50;
      }
      percent := Percent(RegValue(reg));
    }

    /** `batteryIsCharging`, given the read of STATUS1. */
    method IsCharging(status: Option<bv8>) returns (charging: bool)
      ensures charging <==> initialized && Charging(RegValue(status))
    {
      if !initialized {
        return false;
      }
      charging := RegValue(status) & 0x20 != 0;
    }
  }

}
