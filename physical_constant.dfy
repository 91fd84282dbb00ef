/**
 * The physical constants in MKSA units and the dimensionless SI prefixes,
 * as exact decimal reals (the binary64 rounding of each literal is not
 * modelled), with the relations their documentation states or their
 * definitions imply.
 */
module PhysicalConstantMksa {

  // Universal constants
  const SPEED_OF_LIGHT: real := 2.99792458e8
  const VACUUM_PERMEABILITY: real := 1.25663706144e-6
  const VACUUM_PERMITTIVITY: real := 8.854187817e-12
  const PLANCKS_CONSTANT_H: real := 6.62606896e-34
  const PLANCKS_CONSTANT_HBAR: real := 1.05457162825e-34
  const NUM_AVOGADRO: real := 6.02214199e23
  const FARADAY: real := 9.64853429775e4
  const BOLTZMANN: real := 1.3806504e-23
  const MOLAR_GAS: real := 8.314472e0
  const STANDARD_GAS_VOLUME: real := 2.2710981e-2
  const STEFAN_BOLTZMANN_CONSTANT: real := 5.67040047374e-8
  const GAUSS: real := 1.0e-4

  // Astronomical lengths and masses
  const ASTRONOMICAL_UNIT: real := 1.49597870691e11
  const GRAVITATIONAL_CONSTANT: real := 6.673e-11
  const LIGHT_YEAR: real := 9.46053620707e15
  const PARSEC: real := 3.08567758135e16
  const GRAV_ACCEL: real := 9.80665e0
  const SOLAR_MASS: real := 1.98892e30

  // Atomic and nuclear quantities
  const ELECTRON_CHARGE: real := 1.602176487e-19
  const ELECTRON_VOLT: real := 1.602176487e-19
  const UNIFIED_ATOMIC_MASS: real := 1.660538782e-27
  const MASS_ELECTRON: real := 9.10938188e-31
  const MASS_MUON: real := 1.88353109e-28
  const MASS_PROTON: real := 1.67262158e-27
  const MASS_NEUTRON: real := 1.67492716e-27
  const NUM_FINE_STRUCTURE: real := 7.297352533e-3
  const RYDBERG: real := 2.17987196968e-18
  const BOHR_RADIUS: real := 5.291772083e-11
  const ANGSTROM: real := 1.0e-10
  const BARN: real := 1.0e-28
  const BOHR_MAGNETON: real := 9.27400899e-24
  const NUCLEAR_MAGNETON: real := 5.05078317e-27
  const ELECTRON_MAGNETIC_MOMENT: real := 9.28476362e-24
  const PROTON_MAGNETIC_MOMENT: real := 1.410606633e-26
  const THOMSON_CROSS_SECTION: real := 6.65245893699e-29
  const DEBYE: real := 3.33564095198e-30

  // Time units, in seconds
  const MINUTE: real := 6.0e1
  const HOUR: real := 3.6e3
  const DAY: real := 8.64e4
  const WEEK: real := 6.048e5

  // Imperial lengths, in meters
  const INCH: real := 2.54e-2
  const FOOT: real := 3.048e-1
  const YARD: real := 9.144e-1
  const MILE: real := 1.609344e3
  const MIL: real := 2.54e-5

  // Speeds and nautical lengths
  const KILOMETERS_PER_HOUR: real := 2.77777777778e-1
  const MILES_PER_HOUR: real := 4.4704e-1
  const NAUTICAL_MILE: real := 1.852e3
  const FATHOM: real := 1.8288e0
  const KNOT: real := 5.14444444444e-1

  // Typographic points
  const POINT: real := 3.52777777778e-4
  const TEXPOINT: real := 3.51459803515e-4

  // Areas, volumes and small lengths
  const MICRON: real := 1.0e-6
  const HECTARE: real := 1.0e4
  const ACRE: real := 4.04685642241e3
  const LITER: real := 1.0e-3
  const US_GALLON: real := 3.78541178402e-3
  const CANADIAN_GALLON: real := 4.54609e-3
  const UK_GALLON: real := 4.546092e-3
  const QUART: real := 9.46352946004e-4
  const PINT: real := 4.73176473002e-4
  const CUP: real := 2.36588236501e-4

  // Masses
  const POUND_MASS: real := 4.5359237e-1
  const OUNCE_MASS: real := 2.8349523125e-2
  const TON: real := 9.0718474e2
  const METRIC_TON: real := 1.0e3
  const UK_TON: real := 1.0160469088e3
  const TROY_OUNCE: real := 3.1103475e-2
  const CARAT: real := 2.0e-4
  const GRAM_FORCE: real := 9.80665e-3
  const POUND_FORCE: real := 4.44822161526e0
  const KILOPOUND_FORCE: real := 4.44822161526e3
  const POUNDAL: real := 1.38255e-1

  // Heat and power units
  const CALORIE: real := 4.1868e0
  const BTU: real := 1.05505585262e3
  const THERM: real := 1.05506e8
  const HORSEPOWER: real := 7.457e2

  // Pressure units
  const BAR: real := 1.0e5
  const STD_ATMOSPHERE: real := 1.01325e5
  const TORR: real := 1.33322368421e2
  const METER_OF_MERCURY: real := 1.33322368421e5
  const INCH_OF_MERCURY: real := 3.38638815789e3
  const INCH_OF_WATER: real := 2.490889e2
  const PSI: real := 6.89475729317e3

  // Viscosity units
  const POISE: real := 1.0e-1
  const STOKES: real := 1.0e-4

  // Photometric units
  const STILB: real := 1.0e4
  const LUMEN: real := 1.0e0
  const LUX: real := 1.0e0
  const PHOT: real := 1.0e4
  const FOOTCANDLE: real := 1.076e1
  const LAMBERT: real := 1.0e4
  const FOOTLAMBERT: real := 1.07639104e1

  // Radiation units
  const CURIE: real := 3.7e10
  const ROENTGEN: real := 2.58e-4
  const RAD: real := 1.0e-2

  // Force and energy units
  const NEWTON: real := 1.0e0
  const DYNE: real := 1.0e-5
  const JOULE: real := 1.0e0
  const ERG: real := 1.0e-7

  /** Each time unit is a whole number of the previous one. */
  lemma TimeUnits()
    ensures MINUTE == 60.0
    ensures HOUR == 60.0 * MINUTE
    ensures DAY == 24.0 * HOUR
    ensures WEEK == 7.0 * DAY
  {
  }

  /** The imperial lengths are exact multiples of the inch; a mil is a
      thousandth of an inch and a fathom two yards. */
  lemma ImperialLengths()
    ensures FOOT == 12.0 * INCH
    ensures YARD == 3.0 * FOOT
    ensures MILE == 1760.0 * YARD
    ensures MIL == INCH / 1000.0
    ensures FATHOM == 2.0 * YARD
  {
  }

  /** Speeds are distances per hour; the two rounded ones are within
      1e-12 m/s of the exact quotient. */
  lemma Speeds()
    ensures MILES_PER_HOUR == MILE / HOUR
    ensures -1.0e-12 <= KILOMETERS_PER_HOUR - 1000.0 / HOUR <= 1.0e-12
    ensures -1.0e-12 <= KNOT - NAUTICAL_MILE / HOUR <= 1.0e-12
  {
  }

  /** A printer's point is 1/72 inch and a TeX point 1/72.27 inch, each
      rounded to twelve significant digits. */
  lemma PrinterPoints()
    ensures -1.0e-15 <= POINT - INCH / 72.0 <= 1.0e-15
    ensures -1.0e-15 <= TEXPOINT - INCH / 72.27 <= 1.0e-15
  {
  }

  /** The avoirdupois masses and US liquid volumes in their usual ratios,
      and the metric ton of 1000 kg. */
  lemma MassesAndVolumes()
    ensures POUND_MASS == 16.0 * OUNCE_MASS
    ensures TON == 2000.0 * POUND_MASS
    ensures UK_TON == 2240.0 * POUND_MASS
    ensures METRIC_TON == 1000.0
    ensures PINT == QUART / 2.0
    ensures CUP == PINT / 2.0
    ensures -1.0e-15 <= QUART - US_GALLON / 4.0 <= 1.0e-15
  {
  }

  /** Weights are masses under standard gravity; a kilopound is 1000
      pounds of force; a meter of mercury is 1000 torr. */
  lemma ForcesAndPressures()
    ensures GRAM_FORCE == GRAV_ACCEL / 1000.0
    ensures KILOPOUND_FORCE == 1000.0 * POUND_FORCE
    ensures METER_OF_MERCURY == 1000.0 * TORR
  {
  }

  /** Dyne and erg are the CGS units of force and energy: 10^-5 newton and
      10^-7 joule; the newton and joule themselves are 1 in MKSA. */
  lemma CgsUnits()
    ensures NEWTON == 1.0 && JOULE == 1.0
    ensures DYNE == 1.0e-5 * NEWTON
    ensures ERG == 1.0e-7 * JOULE
  {
  }
}

module PhysicalConstantNum {

  // SI prefixes, as plain numbers
  const YOTTA: real := 1.0e24
  const ZETTA: real := 1.0e21
  const EXA: real := 1.0e18
  const PETA: real := 1.0e15
  const TERA: real := 1.0e12
  const GIGA: real := 1.0e9
  const MEGA: real := 1.0e6
  const KILO: real := 1.0e3
  const MILLI: real := 1.0e-3
  const MICRO: real := 1.0e-6
  const NANO: real := 1.0e-9
  const PICO: real := 1.0e-12
  const FEMTO: real := 1.0e-15
  const ATTO: real := 1.0e-18
  const ZEPTO: real := 1.0e-21
  const YOCTO: real := 1.0e-24

  /** `10^n` for any integer `n`. */
  function Pow10(n: int): (r: real)
    ensures r > 0.0
    decreases if n < 0 then -n else n
  {
    if n == 0 then 1.0
    else if n > 0 then 10.0 * Pow10(n - 1)
    else Pow10(n + 1) / 10.0
  }

  /** One step up multiplies by ten, from any exponent. */
  lemma Pow10Step(k: int)
    ensures Pow10(k + 1) == 10.0 * Pow10(k)
  {
    if k < 0 {
      assert Pow10(k) == Pow10(k + 1) / 10.0;
    }
  }

  /** Exponents add. */
  lemma {:induction false} Pow10Add(m: int, n: nat)
    ensures Pow10(m + n) == Pow10(m) * Pow10(n)
    decreases n
  {
    if n > 0 {
      Pow10Add(m, n - 1);
      Pow10Step(m + n - 1);
      assert Pow10(n) == 10.0 * Pow10(n - 1);
    }
  }

  /** `10^n` and `10^-n` are reciprocals. */
  lemma Pow10Reciprocal(n: nat)
    ensures Pow10(n) * Pow10(-(n as int)) == 1.0
  {
    Pow10Add(-(n as int), n);
  }

  /** Three steps up multiply by a thousand. */
  lemma Pow10Thousand(k: int)
    ensures Pow10(k + 3) == 1000.0 * Pow10(k)
  {
    Pow10Step(k);
    Pow10Step(k + 1);
    Pow10Step(k + 2);
  }

  /** Each prefix is the power of ten its name stands for. */
  lemma PrefixValues()
    ensures YOTTA == Pow10(24) && ZETTA == Pow10(21) && EXA == Pow10(18)
    ensures PETA == Pow10(15) && TERA == Pow10(12) && GIGA == Pow10(9)
    ensures MEGA == Pow10(6) && KILO == Pow10(3)
    ensures MILLI == Pow10(-3) && MICRO == Pow10(-6) && NANO == Pow10(-9)
    ensures PICO == Pow10(-12) && FEMTO == Pow10(-15) && ATTO == Pow10(-18)
    ensures ZEPTO == Pow10(-21) && YOCTO == Pow10(-24)
  {
    Pow10Thousand(0); Pow10Thousand(3); Pow10Thousand(6); Pow10Thousand(9);
    Pow10Thousand(12); Pow10Thousand(15); Pow10Thousand(18); Pow10Thousand(21);
    Pow10Thousand(-3); Pow10Thousand(-6); Pow10Thousand(-9); Pow10Thousand(-12);
    Pow10Thousand(-15); Pow10Thousand(-18); Pow10Thousand(-21); Pow10Thousand(-24);
  }

  /** Matching large and small prefixes are reciprocals. */
  lemma PrefixReciprocals()
    ensures KILO * MILLI == 1.0 && MEGA * MICRO == 1.0 && GIGA * NANO == 1.0
    ensures TERA * PICO == 1.0 && PETA * FEMTO == 1.0 && EXA * ATTO == 1.0
    ensures ZETTA * ZEPTO == 1.0 && YOTTA * YOCTO == 1.0
  {
    PrefixValues();
    Pow10Reciprocal(3);
    Pow10Reciprocal(6);
    Pow10Reciprocal(9);
    Pow10Reciprocal(12);
    Pow10Reciprocal(15);
    Pow10Reciprocal(18);
    Pow10Reciprocal(21);
    Pow10Reciprocal(24);
  }

  /** Adjacent prefixes are a factor of 1000 apart. */
  lemma PrefixLadder()
    ensures ZETTA * KILO == YOTTA && EXA * KILO == ZETTA && PETA * KILO == EXA
    ensures TERA * KILO == PETA && GIGA * KILO == TERA && MEGA * KILO == GIGA
    ensures KILO * KILO == MEGA && MILLI * KILO == 1.0
    ensures MICRO * KILO == MILLI && NANO * KILO == MICRO && PICO * KILO == NANO
    ensures FEMTO * KILO == PICO && ATTO * KILO == FEMTO && ZEPTO * KILO == ATTO
    ensures YOCTO * KILO == ZEPTO
  {
  }
}
