/**
 * The configuration state of a report document: the base shared by the
 * PDF and HTML report writers. Its public fields are updated in place by
 * the report-definition parser through setup, the processing-phase
 * setter, the title and description accumulators and the style table.
 */
module Report {
  import opened Wrappers
  import PageGeometry
  import StyleTables

  class AbstractReport {
    // Margins, in points.
    var leftMargin: real
    var rightMargin: real
    var topMargin: real
    var bottomMargin: real
    var headerMargin: real
    var footerMargin: real

    /** Stored for the writers; nothing in this class reads it. */
    var orientation: string
    var pageFormat: string
    var pageHeight: real
    var pageWidth: real

    var styles: StyleTables.StyleTable

    var defaultFont: string
    var defaultFontSize: real

    /** Header "H", page header "PH", body "B" or footer "F" by convention; any string is stored. */
    var processing: string

    var rtl: bool
    var showGeneratedBy: bool
    var generatedBy: string
    var title: string
    /** Author of the report: the product name and version. */
    var rauthor: string
    var rkeywords: string
    /** The report's description, used as the document subject. */
    var rsubject: string

    /** The style table's order and entries agree. */
    ghost predicate Valid()
      reads this
    {
      styles.Valid()
    }

    /** The page settings as one value. */
    function Geometry(): (g: PageGeometry.Geometry)
      reads this
    {
      PageGeometry.Geometry(pageFormat, pageWidth, pageHeight)
    }

    /**
     * A new report with the documented defaults: A4 portrait with the size
     * still unset, processing in the header, left-to-right, no styles, and
     * `productName` (the application's name and version) as author.
     */
    constructor (productName: string)
      ensures Valid()
      ensures leftMargin == 51.0 && rightMargin == 28.0
      ensures topMargin == 76.0 && bottomMargin == 60.0
      ensures headerMargin == 14.0 && footerMargin == 28.0
      ensures orientation == "portrait" && pageFormat == "A4"
      ensures pageHeight == 0.0 && pageWidth == 0.0
      ensures styles == StyleTables.Empty()
      ensures defaultFont == "dejavusans" && defaultFontSize == 12.0
      ensures processing == "H"
      ensures !rtl && showGeneratedBy && generatedBy == ""
      ensures title == "" && rauthor == productName && rkeywords == "" && rsubject == ""
    {
      leftMargin, rightMargin := 51.0, 28.0;
      topMargin, bottomMargin := 76.0, 60.0;
      headerMargin, footerMargin := 14.0, 28.0;
      orientation := "portrait";
      pageFormat := "A4";
      pageHeight, pageWidth := 0.0, 0.0;
      styles := StyleTables.Empty();
      defaultFont, defaultFontSize := "dejavusans", 12.0;
      processing := "H";
      rtl, showGeneratedBy := false, true;
      generatedBy, title, rauthor := "", "", productName;
      rkeywords, rsubject := "", "";
    }

    /**
     * Initial setup. `direction` is the active locale's text direction and
     * `generatedByText` the localised "Generated by" footer. RTL is switched
     * on for a right-to-left locale and never switched off; the keywords are
     * cleared; then the page geometry is resolved or validated. On a rejected
     * custom size the first three assignments have already happened and the
     * geometry is left as it was.
     */
    method Setup(direction: string, generatedByText: string) returns (outcome: Outcome<PageGeometry.SetupError>)
      requires Valid()
      modifies this`rtl, this`rkeywords, this`generatedBy, this`pageFormat, this`pageWidth, this`pageHeight
      ensures Valid()
      ensures rtl == (old(rtl) || direction == "rtl")
      ensures rkeywords == "" && generatedBy == generatedByText
      ensures outcome.Pass? <==> PageGeometry.ResolveGeometry(old(Geometry())).Success?
      ensures outcome.Pass? ==> Geometry() == PageGeometry.ResolveGeometry(old(Geometry())).value
      ensures outcome.Fail? ==>
        outcome.error == PageGeometry.ResolveGeometry(old(Geometry())).error && Geometry() == old(Geometry())
    {
      if direction == "rtl" {
        rtl := true;
      }
      rkeywords := "";
      generatedBy := generatedByText;

      if pageWidth == 0.0 && pageHeight == 0.0 {
        var size: PageGeometry.Size;
        match PageGeometry.StandardSize(pageFormat) {
          case Some(known) =>
            size := known;
          case None =>
            // An unknown name becomes A4.
            pageFormat := PageGeometry.DefaultFormat;
            size := PageGeometry.Size(595.28, 841.89);
        }
        pageWidth := size.width;
        pageHeight := size.height;
      } else {
        if pageWidth < PageGeometry.MinCustomDimension {
          return Fail(PageGeometry.CustomWidthTooSmall);
        }
        if pageHeight < PageGeometry.MinCustomDimension {
          return Fail(PageGeometry.CustomHeightTooSmall);
        }
      }
      outcome := Pass;
    }

    /** Record which part of the report is being processed; order and value are not checked. */
    method SetProcessing(p: string)
      modifies this`processing
      ensures processing == p
    {
      processing := p;
    }

    /** Append raw character data to the title. */
    method AddTitle(data: string)
      modifies this`title
      ensures title == old(title) + data
    {
      title := title + data;
    }

    /** Append raw character data to the description. */
    method AddDescription(data: string)
      modifies this`rsubject
      ensures rsubject == old(rsubject) + data
    {
      rsubject := rsubject + data;
    }

    /** Add a style to the table, replacing one of the same name in its place. */
    method AddStyle(style: StyleTables.Style)
      requires Valid()
      modifies this`styles
      ensures Valid()
      ensures styles == StyleTables.Put(old(styles), style)
    {
      if style.name in styles.entries {
        styles := styles.(entries := styles.entries[style.name := style]);
      } else {
        styles := StyleTables.StyleTable(styles.order + [style.name], styles.entries[style.name := style]);
      }
    }

    /**
     * The style of the given name, or the first-inserted style when there is
     * none. On an empty table the lookup has no array to return, which the
     * declared return type turns into an error: None.
     */
    method GetStyle(s: string) returns (r: Option<StyleTables.Style>)
      requires Valid()
      ensures r == StyleTables.Get(styles, s)
    {
      if s !in styles.entries {
        if |styles.order| == 0 {
          return None;
        }
        return Some(styles.entries[styles.order[0]]);
      }
      r := Some(styles.entries[s]);
    }
  }

  /**
   * What a parser of the report definition can rely on: a US Letter report
   * in a left-to-right locale, phases set in any order, title text arriving
   * in pieces, and a style redefined under the same name.
   */
  method LetterReportScenario(productName: string, footer: string)
  {
    var report := new AbstractReport(productName);
    report.pageFormat := "LETTER";
    var outcome := report.Setup("ltr", footer);
    assert outcome == Pass;
    assert report.pageWidth == 612.00 && report.pageHeight == 792.00;
    assert !report.rtl && report.generatedBy == footer;
    assert report.leftMargin == 51.0 && report.footerMargin == 28.0;

    // A second setup in a right-to-left locale keeps the resolved page and turns RTL on.
    outcome := report.Setup("rtl", footer);
    assert outcome == Pass && report.rtl && report.pageWidth == 612.00;

    report.SetProcessing("F");
    report.SetProcessing("H");
    assert report.processing == "H";

    report.AddTitle("Foo");
    report.AddTitle("Bar");
    assert report.title == "FooBar";

    var plain := StyleTables.Style("text", map["font" := "dejavusans"]);
    var bold := StyleTables.Style("text", map["style" := "B"]);
    var small := StyleTables.Style("small", map["size" := "8"]);
    report.AddStyle(plain);
    report.AddStyle(small);
    report.AddStyle(bold);
    var found := report.GetStyle("text");
    assert found == Some(bold);
    var fallback := report.GetStyle("missing");
    assert fallback == Some(bold);
  }
}
