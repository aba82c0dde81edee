/** Text that several parts write. */
module Text {

  type Byte = n: nat | n < 256

  /** A whole number in decimal. */
  function Decimal(n: int): string decreases if n < 0 then 1 - n else n {
    if n < 0 then "-" + Decimal(-n)
    else if n < 10 then [('0' as int + n) as char]
    else Decimal(n / 10) + Decimal(n % 10)
  }
}
