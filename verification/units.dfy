/** The unit tables every script builds before defining the asymptotic boundary:
    `c0_scale`, the number of drawing units in one metre, and `forceScale`, the
    factor from Newtons to the configured force unit. Both are chains of string
    comparisons that fall back to 1.0 for a name they do not recognise. */
module Units {

  /** The length units the scripts recognise, with their units-per-metre factor. */
  const LengthTable: map<string, real> := map[
    "micrometers" := 1000000.0,
    "millimeters" := 1000.0,
    "centimeters" := 100.0,
    "meters" := 1.0,
    "inches" := 1.0 / 0.0254,
    "mils" := 1000.0 / 0.0254
  ]

  /** The force units the scripts recognise, with their factor from Newtons. */
  const ForceTable: map<string, real> := map[
    "Newtons" := 1.0,
    "lbf" := 0.2248089,
    "kgf" := 0.1019716
  ]

  /** `c0_scale`: the if/elif chain over the length-unit name, 1.0 when none matches. */
  function LengthScale(units: string): (s: real)
    ensures s > 0.0
    ensures units in LengthTable <==> (units == "meters" || s != 1.0)
    ensures units == "meters" ==> s == 1.0
  {
    if units == "micrometers" then 1000000.0
    else if units == "millimeters" then 1000.0
    else if units == "centimeters" then 100.0
    else if units == "meters" then 1.0
    else if units == "inches" then 1.0 / 0.0254
    else if units == "mils" then 1000.0 / 0.0254
    else 1.0
  }

  /** `forceScale`: the if/elif chain over the force-unit name, 1.0 when none matches. */
  function ForceScale(forceUnits: string): (s: real)
    ensures 0.0 < s <= 1.0
    ensures s == 1.0 <==> (forceUnits != "lbf" && forceUnits != "kgf")
  {
    if forceUnits == "Newtons" then 1.0
    else if forceUnits == "lbf" then 0.2248089
    else if forceUnits == "kgf" then 0.1019716
    else 1.0
  }

  /** The comparison chain agrees with the table, and an unrecognised name
      silently gets the default 1.0 rather than an error. */
  lemma LengthScaleIsTableLookup(units: string)
    ensures LengthScale(units) == (if units in LengthTable then LengthTable[units] else 1.0)
  {
  }

  lemma ForceScaleIsTableLookup(forceUnits: string)
    ensures ForceScale(forceUnits) == (if forceUnits in ForceTable then ForceTable[forceUnits] else 1.0)
  {
  }

  /** A length in drawing units expressed in metres, and back. */
  function ToMetres(length: real, units: string): real {
    length / LengthScale(units)
  }

  function FromMetres(metres: real, units: string): real {
    metres * LengthScale(units)
  }

  /** Converting to metres and back is the identity, for every unit name
      (recognised or not), since every scale is positive. */
  lemma MetresRoundTrip(length: real, metres: real, units: string)
    ensures FromMetres(ToMetres(length, units), units) == length
    ensures ToMetres(FromMetres(metres, units), units) == metres
  {
  }

  /** The factors are the physical ones: an inch is 0.0254 m, a mil is a
      thousandth of an inch, and the metric prefixes are powers of ten apart. */
  lemma ScalesArePhysical()
    ensures ToMetres(1.0, "inches") == 0.0254
    ensures LengthScale("mils") == 1000.0 * LengthScale("inches")
    ensures ToMetres(1000.0, "millimeters") == 1.0
    ensures LengthScale("micrometers") == 1000.0 * LengthScale("millimeters")
    ensures LengthScale("millimeters") == 10.0 * LengthScale("centimeters")
  {
  }
}
