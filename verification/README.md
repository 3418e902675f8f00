# webtrees report document configuration, in Dafny

This project models the configuration state of a webtrees report document. That state lives in the abstract base class `AbstractReport`, which the PDF and HTML report writers share. The report-definition parser drives this state:

- It sets the page format or a custom size.
- It calls `setup`. That call turns RTL on for right-to-left locales, clears the keywords and stores the localised "Generated by" footer. It also resolves the page width and height in points from a table of named formats, falling back to A4, or it validates a custom size.
- It switches the processing phase (header, page header, body, footer).
- It accumulates the title and description from character data.
- It fills a table of named text styles. Lookups in that table fall back to the first-inserted style.

Files:

- `wrappers.dfy`: module `Wrappers`. It holds `Option`, `Result` and `Outcome`, which carry the error paths.
- `page_geometry.dfy`: module `PageGeometry`. It holds the format table (`StandardSize`), the geometry step of `setup` as a pure function (`ResolveGeometry`) and the lemmas about both. Sizes are exact `real`s in points.
- `style_table.dfy`: module `StyleTables`. The style table is an ordered map: the style names in first-insertion order, next to a map from name to style. That is how the source's array behaves, since a key keeps its position when its value is overwritten. `PutAll` is a run of `addStyle` calls; the lemmas about it are proved by induction.
- `report.dfy`: module `Report`, class `AbstractReport`. It has the source's public fields and its state-changing methods. Each method's `modifies` clause names exactly the fields the source assigns, so "nothing else changes" follows from the frame. `LetterReportScenario` is a client: it shows what a caller can rely on, such as a US Letter page at 612 × 792 points, titles that concatenate, and the style fallback.

Inputs from outside the class are parameters:

- The locale's text direction (`I18N::direction()`) is the `direction` parameter of `Setup`.
- The translated "Generated by %s" text is the `generatedByText` parameter of `Setup`.
- The product name and version (`Webtrees::NAME`, `Webtrees::VERSION`) are the constructor's `productName` parameter.

Some behaviour of `AbstractReport.php` differs from what a reader might expect. The model follows the code:

- `orientation` is stored but never read. No landscape swap of width and height happens in this class.
- `setProcessing` accepts any string in any order. The phases H/PH/B/F are a convention only, and nothing makes them monotonic.
- `rtl` is not derived once and then frozen. Every `setup` in an RTL locale sets it to true, and no call sets it back to false.
- The style table's insertion order matters. The lookup fallback depends on it.

## Model

| member | source | states |
|---|---|---|
| `PageGeometry.StandardSize` | app/Report/AbstractReport.php:280-422 | A name has a table entry exactly when it is one of 4A0…A10, DL or the nine US formats; every entry is portrait (width < height) and at least 10 points each way |
| `PageGeometry.ResolveGeometry` | app/Report/AbstractReport.php:272-440 | The geometry step of setup succeeds exactly when the size is unset (both 0) or both dimensions are at least 10; a success always has both dimensions at least 10, an unset size becomes a table entry, and a custom size is kept as given |
| `PageGeometry.KnownFormatResolves` | app/Report/AbstractReport.php:280-422 | A known format with an unset size gets that format's table width and height and keeps its name |
| `PageGeometry.UnknownFormatFallsBackToA4` | app/Report/AbstractReport.php:423-432 | An unknown format with an unset size never fails: the format becomes "A4" and the size 595.28 × 841.89 |
| `PageGeometry.CustomSizeRules` | app/Report/AbstractReport.php:433-440 | With a custom size: width < 10 fails with the width error (checked first); otherwise height < 10 fails with the height error; otherwise format and size are unchanged |
| `PageGeometry.ExactlyOneZeroFails` | app/Report/AbstractReport.php:273-440 | Setting only one of width and height always fails, with the width error when the width is the one left at 0 |
| `PageGeometry.ResolveIdempotent` | app/Report/AbstractReport.php:272-440 | Applying the geometry step to its own successful result changes nothing, so a second setup keeps the page |
| `PageGeometry.IsoSeriesHalves` | app/Report/AbstractReport.php:281-359 | Along the ISO 216 series 4A0, 2A0, A0 … A10, the height of each size is the width of the previous one |
| `PageGeometry.SampleSizes` | app/Report/AbstractReport.php:318-404 | LETTER is 612 × 792, A4 is 595.28 × 841.89 and DL is 311.81 × 623.62, with DL twice as high as wide |
| `StyleTables.Empty` | app/Report/AbstractReport.php:63-64 | The initial style table is well formed and holds no style |
| `StyleTables.Put` | app/Report/AbstractReport.php:486-489 | Adding a style maps its name to it and keeps every other name's entry or absence. The old order is a prefix of the new one, a new name is appended at the end, and an existing name keeps its position |
| `StyleTables.Get` | app/Report/AbstractReport.php:498-505 | A present name yields its style; an absent name yields the style under the first name in insertion order; the result is empty exactly when the table is empty, and is otherwise a stored style |
| `StyleTables.PutAll` | app/Report/AbstractReport.php:486-489 | Any run of style additions keeps the table well formed: each name in the order exactly once, and the order and map keys agree |
| `StyleTables.PutAllKeepsOrder` | app/Report/AbstractReport.php:486-489 | No run of additions moves or drops a name already in the order |
| `StyleTables.FirstAddedComesFirst` | app/Report/AbstractReport.php:486-489 | After any non-empty run of additions to an empty table, the first added name is first in the order |
| `StyleTables.LastWriteWins` | app/Report/AbstractReport.php:486-489 | After a run of additions, a name that occurs in it maps to the last style added under that name |
| `StyleTables.OtherNamesUntouched` | app/Report/AbstractReport.php:486-489 | Additions under other names leave a name's entry, or its absence, as it was |
| `StyleTables.MissingNameYieldsFirstAdded` | app/Report/AbstractReport.php:498-505 | However many styles were added, looking up a name never added yields the last style added under the first-added name |
| `StyleTables.SecondAddReplacesFirst` | app/Report/AbstractReport.php:486-489 | Adding two styles of the same name: the second is found, and the name keeps the position the first gave it |
| `Report.AbstractReport.constructor` | app/Report/AbstractReport.php:33-94 | A new report has the documented defaults: margins 51/28/76/60/14/28, portrait A4 with size unset, no styles, dejavusans 12, phase "H", left-to-right, "Generated by" shown but empty, empty title, keywords and subject, author set to the product name |
| `Report.AbstractReport.Setup` | app/Report/AbstractReport.php:260-441 | RTL becomes true for an "rtl" direction and is otherwise left as it was; keywords are cleared and the footer text stored, even when the call then fails; on success the page geometry is `ResolveGeometry` of the old one; on failure the error is the one it reports and the geometry is unchanged; no other field changes |
| `Report.AbstractReport.SetProcessing` | app/Report/AbstractReport.php:443-453 | The phase becomes the given string with no check on value or order; no other field changes |
| `Report.AbstractReport.AddTitle` | app/Report/AbstractReport.php:455-465 | The title becomes the old title followed by the data, so successive calls concatenate in order; no other field changes |
| `Report.AbstractReport.AddDescription` | app/Report/AbstractReport.php:467-477 | The description becomes the old description followed by the data; no other field changes |
| `Report.AbstractReport.AddStyle` | app/Report/AbstractReport.php:479-489 | The style table becomes `Put` of the old one, so the properties of `Put` hold; no other field changes |
| `Report.AbstractReport.GetStyle` | app/Report/AbstractReport.php:491-505 | Returns `Get` of the table without changing anything, so it returns the exact match, or else the first-inserted style, or nothing for an empty table |

## Left out

- The abstract element factories and render entry points (`clearHeader`, `createPageHeader`, `addElement`, `run`, `createCell`, `createTextBox`, `createText`, `createHTML`, `createLine`, `createImage`, `createImageFromObject`, `createFootnote`) have no body in this class. Their layout and rendering live in the PDF and HTML writer classes, which are not part of this model.
- `I18N::direction`, `I18N::translate`, the `Webtrees::NAME`/`VERSION` constants and `MediaFile` are foreign code. They enter only as the parameters described above.
- Page sizes are exact reals. Floating-point rounding, NaN, and PHP's loose `==` between a float and a non-float value are not modelled.
- `Report.AbstractReport.GetStyle`: on an empty table the source's `current` yields `false`, and the declared `array` return type then raises a type error. The model returns `None` for this case and does not model the exception itself.
- `StyleTables.Style`: a style is the source's string array with its `name` entry split out. A style array without a `name` entry is not modelled, and neither is PHP's conversion of numeric-string keys to integers. That conversion is applied consistently on insert and lookup, so it makes no difference to the behaviour modelled.
- The fallback is modelled as the first entry in insertion order. This assumes nothing else moves the style array's internal pointer, and nothing in this class does.
- The module that offers the birth report is not part of this model. It only wires routing, menus and permissions around the report. The census-column and controller tests are not part of this model either: they exercise classes outside this one.
