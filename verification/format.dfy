/** src/lib/utils/format.ts: `getColorByGrowth`, the only non-locale helper there. */
module Format {
  const Red := "text-red-500"
  const Green := "text-green-500"

  /** Red exactly for negative growth; zero and positive growth are green. */
  function ColorByGrowth(growth: real): (c: string)
    ensures c == Red <==> growth < 0.0
    ensures c == Green <==> growth >= 0.0
    ensures c in {Red, Green}
  {
    if growth < 0.0 then Red else Green
  }
}
