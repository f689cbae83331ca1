/**
 The conversion engine's side of the handler: the fixed configuration that
 `createScrooge` builds, and the outcome of one conversion. The engine itself
 is not modelled; the handler receives it as a capability.
 */
module Scrooge {
  import opened JavaLang

  /** The font-size units the configuration mentions (the engine's default is em). */
  datatype LengthUnit = Em | Point

  /** Options of the generated document's head. */
  datatype HeadConfig = HeadConfig(
    metaAuthor: string,
    styleSheetInclude: string,
    includeDefaultFontStyle: bool)

  /** Character-formatting options. */
  datatype CharPropConfig = CharPropConfig(convertLanguage: bool, fontSizeUnit: LengthUnit)

  /** Paragraph-formatting options. */
  datatype ParaPropConfig = ParaPropConfig(convertIndent: bool, convertParagraphBorders: bool)

  /** The options `createScrooge` sets on a fresh converter. */
  datatype Config = Config(
    addOuterHtml: bool,
    head: HeadConfig,
    defaultLanguage: string,
    charProps: CharPropConfig,
    paraProps: ParaPropConfig,
    convertBookmarks: bool,
    convertEmptyParagraphs: bool,
    convertFootnotes: bool,
    convertHyperlinks: bool,
    convertPictures: bool,
    convertTables: bool)

  /** The stylesheet embedded in every converted document (the text block, incidental indentation removed). */
  const DefaultCss: string :=
    "body,p {\n" +
    "  margin: 0;\n" +
    "}\n" +
    "td {\n" +
    "  vertical-align: top;\n" +
    "  border: 1px solid #D3D3D3;\n" +
    "}\n" +
    "table {\n" +
    "  border-collapse: collapse;\n" +
    "}"

  const MetaAuthor: string := "https://www.scroogexhtml.com/"

  /** The converter configuration: a constant, never derived from the request. */
  function CreateScrooge(): (c: Config)
    // A complete standalone document, not a fragment.
    ensures c.addOuterHtml
    // Head: fixed author, the embedded stylesheet, the default font style; language "en".
    ensures c.head == HeadConfig(MetaAuthor, DefaultCss, true) && c.defaultLanguage == "en"
    // Languages converted; font sizes in points rather than the engine's default em.
    ensures c.charProps.convertLanguage && c.charProps.fontSizeUnit == Point
    ensures c.paraProps.convertIndent && c.paraProps.convertParagraphBorders
    ensures && c.convertBookmarks && c.convertEmptyParagraphs && c.convertFootnotes
            && c.convertHyperlinks && c.convertPictures && c.convertTables
  {
    Config(
      addOuterHtml := true,
      head := HeadConfig(MetaAuthor, DefaultCss, true),
      defaultLanguage := "en",
      charProps := CharPropConfig(true, Point),
      paraProps := ParaPropConfig(true, true),
      convertBookmarks := true,
      convertEmptyParagraphs := true,
      convertFootnotes := true,
      convertHyperlinks := true,
      convertPictures := true,
      convertTables := true)
  }

  /** One call of the engine's `convert`: a hypertext string, or the exception it threw. */
  datatype Conversion = Html(text: string) | ConversionFailure(cause: Throwable)
}
