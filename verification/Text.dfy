/** Text and quantities shared by the speaking, the printing and the reading of amounts. */
module Text {
  const LAKH := 100_000
  const CRORE := 10_000_000

  function Signed(negative: bool, n: int): int { if negative then -n else n }

  /** The parts, with the separator between each and the next. */
  function Join(separator: string, parts: seq<string>): string {
    if parts == [] then ""
    else if |parts| == 1 then parts[0]
    else parts[0] + separator + Join(separator, parts[1..])
  }
}
