/** The node descriptor of the Handinger node: the parameters the workflow
    editor offers, with their types, defaults and the actions that show them,
    and the typed parameter values the host hands to `execute` for one item. */
module Description {

  /** A parameter value as the host supplies it, and as it is put in a query string. */
  datatype Value = Str(text: string) | Bool(flag: bool) | Num(number: int)

  /** The editor type of a parameter; an options parameter lists its choices. */
  datatype Kind = StringKind | BooleanKind | NumberKind | OptionsKind(choices: seq<string>)

  /** When the editor shows a parameter: always, or only for some values of `action`. */
  datatype Visibility = Always | ShownFor(actions: set<string>)

  datatype Property = Property(
    name: string,
    kind: Kind,
    defaultValue: Value,
    required: bool,
    visibility: Visibility)

  /** The parameters of the node, one constructor per entry of `description.properties`. */
  datatype ParamName =
    | Action | Url | Fresh
    | Prompt | JsonSchema
    | ContentType | LinkStyle | CleanContent | InlineImages | AdvancedScraping
    | ImageType | ViewportWidth | ViewportHeight | Timeout | Delay

  const CredentialName := "HandingerApi"

  const ActionChoices: seq<string> := ["llm", "content", "metadata", "screenshot"]
  const ContentTypeChoices: seq<string> := ["markdown", "html"]
  const LinkStyleChoices: seq<string> := ["inline", "citations", "none"]
  const ImageTypeChoices: seq<string> := ["png", "jpeg"]

  /** The descriptor entry of each parameter. */
  function Declared(n: ParamName): Property {
    match n
    case Action => Property("action", OptionsKind(ActionChoices), Str("llm"), false, VisibilityOf(n))
    case Url => Property("url", StringKind, Str(""), true, VisibilityOf(n))
    case Fresh => Property("fresh", BooleanKind, Bool(false), false, VisibilityOf(n))
    case Prompt => Property("prompt", StringKind, Str(""), true, VisibilityOf(n))
    case JsonSchema => Property("jsonSchema", StringKind, Str(""), true, VisibilityOf(n))
    case ContentType =>
      Property("contentType", OptionsKind(ContentTypeChoices), Str("markdown"), false, VisibilityOf(n))
    case LinkStyle =>
      Property("linkStyle", OptionsKind(LinkStyleChoices), Str("inline"), false, VisibilityOf(n))
    case CleanContent => Property("cleanContent", BooleanKind, Bool(true), false, VisibilityOf(n))
    case InlineImages => Property("inline_images", BooleanKind, Bool(false), false, VisibilityOf(n))
    case AdvancedScraping =>
      Property("advanced_scraping", BooleanKind, Bool(true), false, VisibilityOf(n))
    case ImageType =>
      Property("imageType", OptionsKind(ImageTypeChoices), Str("png"), false, VisibilityOf(n))
    case ViewportWidth => Property("viewportWidth", NumberKind, Num(1280), false, VisibilityOf(n))
    case ViewportHeight => Property("viewportHeight", NumberKind, Num(1024), false, VisibilityOf(n))
    case Timeout => Property("timeout", NumberKind, Num(30000), false, VisibilityOf(n))
    case Delay => Property("delay", NumberKind, Num(500), false, VisibilityOf(n))
  }

  /** The `displayOptions` of each parameter. */
  function VisibilityOf(n: ParamName): Visibility {
    match n
    case Action | Url | Fresh => Always
    case Prompt | JsonSchema => ShownFor({"llm"})
    case ContentType | LinkStyle | CleanContent | InlineImages => ShownFor({"content"})
    case AdvancedScraping => ShownFor({"content", "metadata"})
    case ImageType | ViewportWidth | ViewportHeight | Timeout | Delay => ShownFor({"screenshot"})
  }

  /** Whether the editor shows parameter `n` when `action` is selected. */
  predicate IsShown(n: ParamName, action: string) {
    match VisibilityOf(n)
    case Always => true
    case ShownFor(actions) => action in actions
  }

  /** Whether `v` is a value of editor type `k` (an options value is one of the choices). */
  predicate HasKind(v: Value, k: Kind) {
    match k
    case StringKind => v.Str?
    case BooleanKind => v.Bool?
    case NumberKind => v.Num?
    case OptionsKind(choices) => v.Str? && v.text in choices
  }

  /** The parameter values of one item, already typed by the host.
      Numbers are JavaScript numbers in the node; here they are integers. */
  datatype NodeParameters = NodeParameters(
    action: string,
    url: string,
    freshFlag: bool,
    prompt: string,
    jsonSchema: string,
    contentType: string,
    linkStyle: string,
    cleanContent: bool,
    inlineImages: bool,
    advancedScraping: bool,
    imageType: string,
    viewportWidth: int,
    viewportHeight: int,
    timeout: int,
    delay: int)

  /** What `getNodeParameter(Declared(n).name, i)` returns for an item with parameters `p`. */
  function Get(p: NodeParameters, n: ParamName): Value {
    match n
    case Action => Str(p.action)
    case Url => Str(p.url)
    case Fresh => Bool(p.freshFlag)
    case Prompt => Str(p.prompt)
    case JsonSchema => Str(p.jsonSchema)
    case ContentType => Str(p.contentType)
    case LinkStyle => Str(p.linkStyle)
    case CleanContent => Bool(p.cleanContent)
    case InlineImages => Bool(p.inlineImages)
    case AdvancedScraping => Bool(p.advancedScraping)
    case ImageType => Str(p.imageType)
    case ViewportWidth => Num(p.viewportWidth)
    case ViewportHeight => Num(p.viewportHeight)
    case Timeout => Num(p.timeout)
    case Delay => Num(p.delay)
  }

  /** The parameters of an item the user left untouched: every value is its declared default. */
  function Defaults(): NodeParameters {
    NodeParameters("llm", "", false, "", "", "markdown", "inline", true, false, true,
                   "png", 1280, 1024, 30000, 500)
  }

  /** Each parameter of `Defaults()` is the default its descriptor entry declares. */
  lemma DefaultsAreDeclared(n: ParamName)
    ensures Get(Defaults(), n) == Declared(n).defaultValue
  {
  }

  /** No two parameters share a name, so a name read by `getNodeParameter` denotes one parameter. */
  lemma NamesAreDistinct(m: ParamName, n: ParamName)
    requires Declared(m).name == Declared(n).name
    ensures m == n
  {
  }

  /** Every default is a value of its parameter's type; an options default is one of its choices. */
  lemma DefaultsHaveDeclaredKind(n: ParamName)
    ensures HasKind(Declared(n).defaultValue, Declared(n).kind)
  {
  }

  /** Every value an item supplies has its parameter's declared type; for an options
      parameter it is a string, which need not be one of the choices. */
  lemma ValuesHaveDeclaredType(p: NodeParameters, n: ParamName)
    ensures Declared(n).kind.OptionsKind? ==> Get(p, n).Str?
    ensures !Declared(n).kind.OptionsKind? ==> HasKind(Get(p, n), Declared(n).kind)
  {
  }

  /** The parameters declared `required` are exactly `url`, `prompt` and `jsonSchema`. */
  lemma RequiredParameters(n: ParamName)
    ensures Declared(n).required <==> n == Url || n == Prompt || n == JsonSchema
  {
  }
}
