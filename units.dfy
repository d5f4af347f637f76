/** Size and count units, the `Infinity` limit sentinel and the 64-bit signed
    integers that every counter and limit of a tracker is stored in
    (options.go). */
module Units {

  /** Go's `int64`. */
  type int64 = x: int | IsInt64(x)

  predicate IsInt64(x: int) {
    -0x8000_0000_0000_0000 <= x < 0x8000_0000_0000_0000
  }

  // Binary byte units: each step multiplies by 1024.
  const Kibibyte: int64 := 1024
  const KiB: int64 := Kibibyte
  const Mebibyte: int64 := Kibibyte * 1024
  const MiB: int64 := Mebibyte
  const Gibibyte: int64 := Mebibyte * 1024
  const GiB: int64 := Gibibyte
  const Tebibyte: int64 := Gibibyte * 1024
  const TiB: int64 := Tebibyte
  const Pebibyte: int64 := Tebibyte * 1024
  const PiB: int64 := Pebibyte
  const Exbibyte: int64 := Pebibyte * 1024
  const EiB: int64 := Exbibyte

  // Decimal byte units: each step multiplies by 1000.
  const Kilobyte: int64 := 1000
  const KB: int64 := Kilobyte
  const Megabyte: int64 := Kilobyte * 1000
  const MB: int64 := Megabyte
  const Gigabyte: int64 := Megabyte * 1000
  const GB: int64 := Gigabyte
  const Terabyte: int64 := Gigabyte * 1000
  const TB: int64 := Terabyte
  const Petabyte: int64 := Terabyte * 1000
  const PB: int64 := Petabyte
  const Exabyte: int64 := Petabyte * 1000
  const EB: int64 := Exabyte

  // SI counts, used for object and call limits.
  const Kilo: int64 := 1000
  const Mega: int64 := Kilo * 1000
  const Giga: int64 := Mega * 1000
  const Tera: int64 := Giga * 1000
  const Peta: int64 := Tera * 1000
  const Exa: int64 := Peta * 1000

  /** The "no limit" sentinel. A tracker treats every limit at or below it as
      unbounded, so `5 * Infinity` is unbounded too. */
  const Infinity: int64 := -1

  function Pow(base: nat, n: nat): nat {
    if n == 0 then 1 else base * Pow(base, n - 1)
  }

  /** The binary units are the powers 2^10 up to 2^60. */
  lemma BinaryUnitsArePowersOfTwo()
    ensures KiB == Pow(2, 10) && MiB == Pow(2, 20) && GiB == Pow(2, 30)
    ensures TiB == Pow(2, 40) && PiB == Pow(2, 50) && EiB == Pow(2, 60)
  {
  }

  /** The decimal byte units and the SI counts are the powers 10^3 up to 10^18. */
  lemma DecimalUnitsArePowersOfTen()
    ensures KB == Kilo == Pow(10, 3) && MB == Mega == Pow(10, 6)
    ensures GB == Giga == Pow(10, 9) && TB == Tera == Pow(10, 12)
    ensures PB == Peta == Pow(10, 15) && EB == Exa == Pow(10, 18)
  {
  }
}
