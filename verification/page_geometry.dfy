/**
 * Page geometry of a report: the table of named page formats and the
 * rules by which the report's initial setup turns a format name, or an
 * explicit custom size, into the page width and height in points.
 *
 * All sizes are exact decimal constants, so they are `real`s here; no
 * floating-point rounding is involved.
 */
module PageGeometry {
  import opened Wrappers

  /** Width and height of a page, in points (1 inch = 72 points). */
  datatype Size = Size(width: real, height: real)

  /** The page settings that setup reads and writes. */
  datatype Geometry = Geometry(format: string, width: real, height: real)

  /** The two ways setup rejects a custom page size. */
  datatype SetupError =
    | CustomWidthTooSmall   // the custom width is below the minimum
    | CustomHeightTooSmall  // the custom height is below the minimum

  /** Smallest custom width or height setup accepts, in points. */
  const MinCustomDimension: real := 10.0

  /** The format names the table knows: ISO 216 4A0 to A10, DL and the US sizes. */
  const KnownFormats: set<string> := {
    "4A0", "2A0", "A0", "A1", "A2", "A3", "A4", "A5", "A6", "A7", "A8", "A9", "A10",
    "DL",
    "EXECUTIVE", "FOLIO", "FOOLSCAP", "LEDGER", "LEGAL", "LETTER", "QUARTO",
    "STATEMENT", "USGOVT"
  }

  /** The ISO 216 A series, from the largest sheet to the smallest. */
  const IsoASeries: seq<string> :=
    ["4A0", "2A0", "A0", "A1", "A2", "A3", "A4", "A5", "A6", "A7", "A8", "A9", "A10"]

  /** The format that unknown names fall back to. */
  const DefaultFormat: string := "A4"

  /** Portrait page size for a named format, or None when the name is not in the table. */
  function StandardSize(format: string): (r: Option<Size>)
    ensures r.Some? <==> format in KnownFormats
    ensures r.Some? ==> MinCustomDimension <= r.value.width < r.value.height
  {
    match format
    // ISO 216 A series
    case "4A0" => Some(Size(4767.86, 6740.79))
    case "2A0" => Some(Size(3370.39, 4767.86))
    case "A0" => Some(Size(2383.94, 3370.39))
    case "A1" => Some(Size(1683.78, 2383.94))
    case "A2" => Some(Size(1190.55, 1683.78))
    case "A3" => Some(Size(841.89, 1190.55))
    case "A4" => Some(Size(595.28, 841.89))
    case "A5" => Some(Size(419.53, 595.28))
    case "A6" => Some(Size(297.64, 419.53))
    case "A7" => Some(Size(209.76, 297.64))
    case "A8" => Some(Size(147.40, 209.76))
    case "A9" => Some(Size(104.88, 147.40))
    case "A10" => Some(Size(73.70, 104.88))
    // ISO 269 C6/5 envelope, 110 mm x 220 mm
    case "DL" => Some(Size(311.81, 623.62))
    // US sizes
    case "EXECUTIVE" => Some(Size(522.00, 756.00))
    case "FOLIO" => Some(Size(612.00, 936.00))
    case "FOOLSCAP" => Some(Size(972.00, 1224.00))
    case "LEDGER" => Some(Size(792.00, 1224.00))
    case "LEGAL" => Some(Size(612.00, 1008.00))
    case "LETTER" => Some(Size(612.00, 792.00))
    case "QUARTO" => Some(Size(609.12, 777.50))
    case "STATEMENT" => Some(Size(396.00, 612.00))
    case "USGOVT" => Some(Size(576.00, 792.00))
    case _ => None
  }

  /** A custom size is accepted when both dimensions reach the minimum. */
  predicate ValidCustomSize(width: real, height: real)
  {
    MinCustomDimension <= width && MinCustomDimension <= height
  }

  /** Width and height are "unset" when both are zero; only then is the format table used. */
  predicate SizeUnset(g: Geometry)
  {
    g.width == 0.0 && g.height == 0.0
  }

  /** A geometry whose format is in the table and whose size is that format's table entry. */
  predicate IsStandard(g: Geometry)
  {
    StandardSize(g.format) == Some(Size(g.width, g.height))
  }

  /**
   * The geometry part of the report's setup. An unset size is resolved
   * from the format table, with an unknown name replaced by A4; a set size
   * is kept when both dimensions reach the minimum and rejected otherwise,
   * the width being checked before the height.
   */
  function ResolveGeometry(g: Geometry): (r: Result<Geometry, SetupError>)
    ensures r.Success? <==> SizeUnset(g) || ValidCustomSize(g.width, g.height)
    ensures r.Success? ==> ValidCustomSize(r.value.width, r.value.height)
    ensures r.Success? && SizeUnset(g) ==> IsStandard(r.value)
    ensures r.Success? && !SizeUnset(g) ==> r.value == g
  {
    if SizeUnset(g) then
      match StandardSize(g.format)
      case Some(size) => Success(Geometry(g.format, size.width, size.height))
      case None =>
        var size := StandardSize(DefaultFormat).value;
        Success(Geometry(DefaultFormat, size.width, size.height))
    else if g.width < MinCustomDimension then
      Failure(CustomWidthTooSmall)
    else if g.height < MinCustomDimension then
      Failure(CustomHeightTooSmall)
    else
      Success(g)
  }

  /** A known format with an unset size gets that format's table entry and keeps its name. */
  lemma KnownFormatResolves(format: string)
    requires format in KnownFormats
    ensures ResolveGeometry(Geometry(format, 0.0, 0.0))
         == Success(Geometry(format, StandardSize(format).value.width, StandardSize(format).value.height))
  {
  }

  /** An unknown format with an unset size never fails: it becomes A4, 595.28 x 841.89. */
  lemma UnknownFormatFallsBackToA4(format: string)
    requires format !in KnownFormats
    ensures ResolveGeometry(Geometry(format, 0.0, 0.0)) == Success(Geometry("A4", 595.28, 841.89))
  {
  }

  /**
   * With a custom size (not both dimensions zero) setup fails exactly when a
   * dimension is below 10 points, reports the width first, and otherwise
   * leaves format and size as they were.
   */
  lemma CustomSizeRules(g: Geometry)
    requires !SizeUnset(g)
    ensures g.width < 10.0 ==> ResolveGeometry(g) == Failure(CustomWidthTooSmall)
    ensures 10.0 <= g.width && g.height < 10.0 ==> ResolveGeometry(g) == Failure(CustomHeightTooSmall)
    ensures 10.0 <= g.width && 10.0 <= g.height ==> ResolveGeometry(g) == Success(g)
  {
  }

  /** Setting exactly one of width and height, and leaving the other at zero, always fails. */
  lemma ExactlyOneZeroFails(g: Geometry)
    requires (g.width == 0.0) != (g.height == 0.0)
    ensures ResolveGeometry(g).Failure?
    ensures g.width == 0.0 ==> ResolveGeometry(g).error == CustomWidthTooSmall
  {
  }

  /**
   * Running setup's geometry step on its own result changes nothing: a
   * resolved page passes the custom-size check unchanged.
   */
  lemma ResolveIdempotent(g: Geometry)
    requires ResolveGeometry(g).Success?
    ensures ResolveGeometry(ResolveGeometry(g).value) == ResolveGeometry(g)
  {
  }

  /**
   * The ISO 216 A series halves the sheet at each step: the height of each
   * size is the width of the next larger one.
   */
  lemma IsoSeriesHalves(i: nat)
    requires i + 1 < |IsoASeries|
    ensures IsoASeries[i] in KnownFormats && IsoASeries[i + 1] in KnownFormats
    ensures StandardSize(IsoASeries[i + 1]).value.height == StandardSize(IsoASeries[i]).value.width
  {
  }

  /** A few entries spelled out: LETTER, A4 and DL. */
  lemma SampleSizes()
    ensures StandardSize("LETTER") == Some(Size(612.00, 792.00))
    ensures StandardSize("A4") == Some(Size(595.28, 841.89))
    ensures StandardSize("DL") == Some(Size(311.81, 623.62))
    ensures StandardSize("DL").value.height == 2.0 * StandardSize("DL").value.width
  {
  }
}
