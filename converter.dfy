/**
 * Configuration of the HTML-to-Markdown converter (Turndown): the fixed
 * formatting options and the set of elements removed before conversion.
 * The conversion itself is a library call and is a parameter of the model.
 */
module Converter {

  /** The option record passed to the Turndown constructor. */
  datatype TurndownOptions = TurndownOptions(
    headingStyle: string,
    hr: string,
    bulletListMarker: string,
    codeBlockStyle: string,
    emDelimiter: string)

  /** A configured converter: its options and the tag names passed to `remove`. */
  datatype TurndownConfig = TurndownConfig(options: TurndownOptions, removed: set<string>)

  /** Elements removed whatever the options say. */
  const AlwaysRemoved: set<string> := {"script", "style", "noscript", "iframe"}

  /** `configureTurndown`: fixed options, the noise elements removed, and `img`
      removed as well unless images are wanted. */
  function ConfigureTurndown(includeImages: bool): (c: TurndownConfig)
    ensures c.options.headingStyle == "atx" && c.options.hr == "---" && c.options.bulletListMarker == "-"
    ensures c.options.codeBlockStyle == "fenced" && c.options.emDelimiter == "*"
    ensures AlwaysRemoved <= c.removed
    ensures "img" in c.removed <==> !includeImages
    ensures c.removed <= AlwaysRemoved + {"img"}
  {
    var service := TurndownConfig(TurndownOptions("atx", "---", "-", "fenced", "*"), {});
    var service := service.(removed := service.removed + {"script", "style", "noscript", "iframe"});
    if !includeImages then service.(removed := service.removed + {"img"}) else service
  }

  /** The two configurations differ only in whether `img` is removed. */
  lemma ImagesOnlyDifference()
    ensures ConfigureTurndown(false).options == ConfigureTurndown(true).options
    ensures ConfigureTurndown(false).removed == ConfigureTurndown(true).removed + {"img"}
    ensures ConfigureTurndown(true).removed == AlwaysRemoved
  {
  }
}
