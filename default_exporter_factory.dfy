/** The built-in exporter factory: a type tag, upper-cased, is looked up in
    the closed enumeration {PDF, XLSX} and dispatched to an exporter. */
module DefaultExporterFactory {
  import opened Ascii

  /** The enumeration the tag is resolved against. */
  datatype ExporterType = PDF | XLSX

  /** The concrete exporters, as opaque tags. */
  datatype Exporter = PdfExporter | ExcelExporter

  /** Either a freshly made exporter, or the error raised for a tag that
      names no enumeration constant; `name` is the upper-cased tag the
      failed lookup was given. */
  datatype ExportResult = Exported(exporter: Exporter) | UnknownExportType(name: string)

  datatype Option<T> = None | Some(value: T)

  /** The declared name of an enumeration constant. */
  function Name(t: ExporterType): string {
    match t
    case PDF => "PDF"
    case XLSX => "XLSX"
  }

  /** Enumeration lookup by exact name; None where the enum's own lookup
      rejects the name as an illegal argument. */
  function ValueOf(name: string): (r: Option<ExporterType>)
    ensures r.Some? <==> exists t :: Name(t) == name
    ensures r.Some? ==> Name(r.value) == name
  {
    if name == "PDF" then assert Name(PDF) == name; Some(PDF)
    else if name == "XLSX" then assert Name(XLSX) == name; Some(XLSX)
    else None
  }

  /** Looking up a constant's own name finds that constant. */
  lemma ValueOfName(t: ExporterType)
    ensures ValueOf(Name(t)) == Some(t)
  {
  }

  /** The exporter made for a type tag: PDF and XLSX, in any case, give
      their exporter; every other tag is an error carrying the upper-cased
      name (no trimming, no default format). */
  function GetExporterForType(tag: string): (r: ExportResult)
    ensures r.UnknownExportType? ==> r.name == ToUpper(tag) && ValueOf(ToUpper(tag)).None?
    ensures r == Exported(PdfExporter) <==> ValueOf(ToUpper(tag)) == Some(PDF)
    ensures r == Exported(ExcelExporter) <==> ValueOf(ToUpper(tag)) == Some(XLSX)
  {
    match ValueOf(ToUpper(tag))
    case Some(PDF) => Exported(PdfExporter)
    case Some(XLSX) => Exported(ExcelExporter)
    case None => UnknownExportType(ToUpper(tag))
  }

  /** A PDF exporter is made exactly for the strings equal to "pdf" up to
      case. */
  lemma PdfTagIff(tag: string)
    ensures GetExporterForType(tag) == Exported(PdfExporter) <==> EqualsIgnoringCase(tag, "pdf")
  {
    ToUpperEqualIff(tag, "pdf");
  }

  /** An Excel exporter is made exactly for the strings equal to "xlsx" up
      to case. */
  lemma XlsxTagIff(tag: string)
    ensures GetExporterForType(tag) == Exported(ExcelExporter) <==> EqualsIgnoringCase(tag, "xlsx")
  {
    ToUpperEqualIff(tag, "xlsx");
  }

  /** Every tag that is neither "pdf" nor "xlsx" up to case is an error,
      never a silent default. */
  lemma UnknownTagIff(tag: string)
    ensures GetExporterForType(tag).UnknownExportType? <==>
            !EqualsIgnoringCase(tag, "pdf") && !EqualsIgnoringCase(tag, "xlsx")
  {
    PdfTagIff(tag);
    XlsxTagIff(tag);
  }

  /** The dispatch does not depend on the case the tag was written in. */
  lemma CaseInsensitive(tag: string)
    ensures GetExporterForType(ToUpper(tag)) == GetExporterForType(tag)
    ensures GetExporterForType(ToLower(tag)) == GetExporterForType(tag)
  {
    ToUpperIdempotent(tag);
    ToUpperOfToLower(tag);
  }

  /** Sample tags: the accepted spellings and some rejected ones (another
      format, the empty tag, surrounding blanks). */
  lemma Samples()
    ensures GetExporterForType("pdf") == Exported(PdfExporter)
    ensures GetExporterForType("Pdf") == Exported(PdfExporter)
    ensures GetExporterForType("PDF") == Exported(PdfExporter)
    ensures GetExporterForType("xlsx") == Exported(ExcelExporter)
    ensures GetExporterForType("XLSX") == Exported(ExcelExporter)
    ensures GetExporterForType("csv") == UnknownExportType("CSV")
    ensures GetExporterForType("") == UnknownExportType("")
    ensures GetExporterForType(" pdf") == UnknownExportType(" PDF")
    ensures GetExporterForType("xlsx ") == UnknownExportType("XLSX ")
  {
    assert ToUpper("Pdf") == "PDF";
    assert ToUpper("pdf") == "PDF";
    assert ToUpper("PDF") == "PDF";
    assert ToUpper("xlsx") == "XLSX";
    assert ToUpper("XLSX") == "XLSX";
    assert ToUpper("csv") == "CSV";
    assert ToUpper(" pdf") == " PDF";
    assert ToUpper("xlsx ") == "XLSX ";
  }
}
