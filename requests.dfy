/** Request construction in `execute` of the Handinger node: from the parameters
    of one item to the options of the authenticated GET request (credential
    type, method, URL, query string, JSON flag and headers).

    `RequestFor` states the request per action: the query keys each
    action sends and where each key's value comes from. `BuildRequest` is the
    node's `switch`, which fills the query record field by field; the two are
    proved equal, and the lemmas below state what the request is for each
    action and how it agrees with the node descriptor. */
module Requests {
  import opened Description

  /** The keys the node ever puts in its query record; `WireName` is the key as sent. */
  datatype QueryKey =
    | UrlKey | FreshKey
    | PromptKey | JsonSchemaKey
    | LinkStyleKey | CleanContentKey | InlineImagesKey | AdvancedScrapingKey
    | ImageTypeKey | ViewportWidthKey | ViewportHeightKey | TimeoutKey | DelayKey | ResponseTypeKey

  function WireName(k: QueryKey): string {
    match k
    case UrlKey => "url"
    case FreshKey => "fresh"
    case PromptKey => "prompt"
    case JsonSchemaKey => "json_schema"
    case LinkStyleKey => "link_style"
    case CleanContentKey => "clean_content"
    case InlineImagesKey => "inline_images"
    case AdvancedScrapingKey => "advanced_scraping"
    case ImageTypeKey => "image_type"
    case ViewportWidthKey => "viewport_width"
    case ViewportHeightKey => "viewport_height"
    case TimeoutKey => "timeout"
    case DelayKey => "delay"
    case ResponseTypeKey => "response_type"
  }

  datatype Format = Json | Text

  /** The options passed to `httpRequestWithAuthentication`, with the credential type it names. */
  datatype Request = Request(
    credentialType: string,
    httpMethod: string,
    url: string,
    qs: map<QueryKey, Value>,
    json: bool,
    headers: map<string, string>)

  const BaseUrl := "https://api.handinger.com"

  /** The query keys each action sends; an action outside the four sends only the common two. */
  function KeysFor(action: string): set<QueryKey> {
    var common := {UrlKey, FreshKey};
    if action == "llm" then common + {PromptKey, JsonSchemaKey}
    else if action == "content" then
      common + {LinkStyleKey, CleanContentKey, InlineImagesKey, AdvancedScrapingKey}
    else if action == "metadata" then common + {AdvancedScrapingKey}
    else if action == "screenshot" then
      common + {ImageTypeKey, ViewportWidthKey, ViewportHeightKey, TimeoutKey, DelayKey, ResponseTypeKey}
    else common
  }

  /** Where the value of a query key comes from: a parameter of the item, or a fixed value. */
  datatype QuerySource = Forward(param: ParamName) | Fixed(value: Value)

  /** The source of each key; a key forwards the same parameter whichever action sends it. */
  function SourceOf(k: QueryKey): QuerySource {
    match k
    case UrlKey => Forward(Url)
    case FreshKey => Forward(Fresh)
    case PromptKey => Forward(Prompt)
    case JsonSchemaKey => Forward(JsonSchema)
    case LinkStyleKey => Forward(LinkStyle)
    case CleanContentKey => Forward(CleanContent)
    case InlineImagesKey => Forward(InlineImages)
    case AdvancedScrapingKey => Forward(AdvancedScraping)
    case ImageTypeKey => Forward(ImageType)
    case ViewportWidthKey => Forward(ViewportWidth)
    case ViewportHeightKey => Forward(ViewportHeight)
    case TimeoutKey => Forward(Timeout)
    case DelayKey => Forward(Delay)
    case ResponseTypeKey => Fixed(Str("link"))
  }

  function Resolve(p: NodeParameters, source: QuerySource): Value {
    match source
    case Forward(n) => Get(p, n)
    case Fixed(v) => v
  }

  function Query(p: NodeParameters): map<QueryKey, Value> {
    map k | k in KeysFor(p.action) :: Resolve(p, SourceOf(k))
  }

  function EndpointFor(action: string, contentType: string): string {
    if action == "llm" then "/llm"
    else if action == "content" then
      (if contentType == "markdown" then "/markdown" else if contentType == "html" then "/html" else "")
    else if action == "metadata" then "/meta"
    else if action == "screenshot" then "/image"
    else ""
  }

  /** Content and screenshots are read as text, everything else as JSON. */
  function FormatFor(action: string): Format {
    if action in {"content", "screenshot"} then Text else Json
  }

  function HeadersFor(f: Format): map<string, string> {
    map["Accept" := (if f == Json then "application/json" else "text/plain"),
        "Content-Type" := "application/json"]
  }

  /** The request the node issues for an item with parameters `p`. */
  function RequestFor(p: NodeParameters): Request {
    var f := FormatFor(p.action);
    Request(CredentialName, "GET", BaseUrl + EndpointFor(p.action, p.contentType), Query(p),
            f == Json, HeadersFor(f))
  }

  /** The `switch (action)` of `execute`: start from `{url, fresh}` with an empty
      endpoint and JSON format, then let the matching case add its fields. */
  method BuildRequest(p: NodeParameters) returns (req: Request)
    ensures req == RequestFor(p)
  {
    var action, url, freshFlag := p.action, p.url, p.freshFlag;
    var qs: map<QueryKey, Value> := map[UrlKey := Str(url), FreshKey := Bool(freshFlag)];
    var endpoint := "";
    var responseFormat := Json;
    if action == "llm" {
      endpoint := "/llm";
      qs := qs[PromptKey := Str(p.prompt)];
      qs := qs[JsonSchemaKey := Str(p.jsonSchema)];
      LlmQuery(p);
    } else if action == "content" {
      var contentType := p.contentType;
      qs := qs[LinkStyleKey := Str(p.linkStyle)];
      qs := qs[CleanContentKey := Bool(p.cleanContent)];
      qs := qs[InlineImagesKey := Bool(p.inlineImages)];
      qs := qs[AdvancedScrapingKey := Bool(p.advancedScraping)];
      responseFormat := Text;
      endpoint := if contentType == "markdown" then "/markdown" else if contentType == "html" then "/html" else "";
      ContentQuery(p);
    } else if action == "metadata" {
      endpoint := "/meta";
      qs := qs[AdvancedScrapingKey := Bool(p.advancedScraping)];
      MetadataQuery(p);
    } else if action == "screenshot" {
      endpoint := "/image";
      qs := qs[ImageTypeKey := Str(p.imageType)];
      qs := qs[ViewportWidthKey := Num(p.viewportWidth)];
      qs := qs[ViewportHeightKey := Num(p.viewportHeight)];
      qs := qs[TimeoutKey := Num(p.timeout)];
      qs := qs[DelayKey := Num(p.delay)];
      qs := qs[ResponseTypeKey := Str("link")];
      responseFormat := Text;
      ScreenshotQuery(p);
    } else {
      UnmatchedQuery(p);
    }
    req := Request(CredentialName, "GET", BaseUrl + endpoint, qs, responseFormat == Json,
                   map["Accept" := (if responseFormat == Json then "application/json" else "text/plain"),
                       "Content-Type" := "application/json"]);
  }

  /** The query string of each action, written out. */
  lemma LlmQuery(p: NodeParameters)
    requires p.action == "llm"
    ensures Query(p) ==
              map[UrlKey := Str(p.url), FreshKey := Bool(p.freshFlag),
                  PromptKey := Str(p.prompt), JsonSchemaKey := Str(p.jsonSchema)]
  {
  }

  lemma ContentQuery(p: NodeParameters)
    requires p.action == "content"
    ensures Query(p) ==
              map[UrlKey := Str(p.url), FreshKey := Bool(p.freshFlag),
                  LinkStyleKey := Str(p.linkStyle), CleanContentKey := Bool(p.cleanContent),
                  InlineImagesKey := Bool(p.inlineImages), AdvancedScrapingKey := Bool(p.advancedScraping)]
  {
  }

  lemma MetadataQuery(p: NodeParameters)
    requires p.action == "metadata"
    ensures Query(p) ==
              map[UrlKey := Str(p.url), FreshKey := Bool(p.freshFlag),
                  AdvancedScrapingKey := Bool(p.advancedScraping)]
  {
  }

  lemma ScreenshotQuery(p: NodeParameters)
    requires p.action == "screenshot"
    ensures Query(p) ==
              map[UrlKey := Str(p.url), FreshKey := Bool(p.freshFlag),
                  ImageTypeKey := Str(p.imageType), ViewportWidthKey := Num(p.viewportWidth),
                  ViewportHeightKey := Num(p.viewportHeight), TimeoutKey := Num(p.timeout),
                  DelayKey := Num(p.delay), ResponseTypeKey := Str("link")]
  {
  }

  lemma UnmatchedQuery(p: NodeParameters)
    requires p.action !in ActionChoices
    ensures Query(p) == map[UrlKey := Str(p.url), FreshKey := Bool(p.freshFlag)]
  {
  }

  /** Whatever the action, the query string carries `url` and `fresh` exactly as read. */
  lemma UrlAndFreshAlwaysSent(p: NodeParameters)
    ensures UrlKey in RequestFor(p).qs && RequestFor(p).qs[UrlKey] == Str(p.url)
    ensures FreshKey in RequestFor(p).qs && RequestFor(p).qs[FreshKey] == Bool(p.freshFlag)
  {
  }

  /** The key set of each action: no key of another action's case ever appears. */
  lemma QueryKeysPerAction(p: NodeParameters)
    ensures p.action == "llm" ==>
              RequestFor(p).qs.Keys == {UrlKey, FreshKey, PromptKey, JsonSchemaKey}
    ensures p.action == "content" ==>
              RequestFor(p).qs.Keys ==
                {UrlKey, FreshKey, LinkStyleKey, CleanContentKey, InlineImagesKey, AdvancedScrapingKey}
    ensures p.action == "metadata" ==>
              RequestFor(p).qs.Keys == {UrlKey, FreshKey, AdvancedScrapingKey}
    ensures p.action == "screenshot" ==>
              RequestFor(p).qs.Keys ==
                {UrlKey, FreshKey, ImageTypeKey, ViewportWidthKey, ViewportHeightKey, TimeoutKey,
                 DelayKey, ResponseTypeKey}
    ensures p.action !in ActionChoices ==> RequestFor(p).qs.Keys == {UrlKey, FreshKey}
  {
  }

  /** A screenshot always asks for a link, whatever the other inputs; no other action sends
      `response_type`. */
  lemma ScreenshotAlwaysAsksForLink(p: NodeParameters)
    ensures ResponseTypeKey in RequestFor(p).qs <==> p.action == "screenshot"
    ensures p.action == "screenshot" ==> RequestFor(p).qs[ResponseTypeKey] == Str("link")
  {
  }

  /** No two query keys are sent under the same name, so keying the query by `QueryKey`
      loses nothing of the record the node builds. */
  lemma WireNamesAreDistinct(j: QueryKey, k: QueryKey)
    requires WireName(j) == WireName(k)
    ensures j == k
  {
  }

  /** The URL is the API's base followed by the endpoint of the action. */
  lemma EndpointSelection(p: NodeParameters)
    ensures BaseUrl <= RequestFor(p).url
    ensures p.action == "llm" ==> RequestFor(p).url == BaseUrl + "/llm"
    ensures p.action == "metadata" ==> RequestFor(p).url == BaseUrl + "/meta"
    ensures p.action == "screenshot" ==> RequestFor(p).url == BaseUrl + "/image"
    ensures p.action == "content" && p.contentType == "markdown" ==>
              RequestFor(p).url == BaseUrl + "/markdown"
    ensures p.action == "content" && p.contentType == "html" ==>
              RequestFor(p).url == BaseUrl + "/html"
    ensures p.action == "content" && p.contentType != "markdown" && p.contentType != "html" ==>
              RequestFor(p).url == BaseUrl
    ensures p.action !in ActionChoices ==> RequestFor(p).url == BaseUrl
  {
  }

  /** The endpoint is empty exactly when the action, or for content the content type,
      is not one of the choices the descriptor offers. */
  lemma EmptyEndpointIffOutsideChoices(p: NodeParameters)
    ensures RequestFor(p).url == BaseUrl <==>
              !(p.action in Declared(Action).kind.choices &&
                (p.action == "content" ==> p.contentType in Declared(ContentType).kind.choices))
  {
  }

  /** A non-empty endpoint tells which action was requested. */
  lemma EndpointIdentifiesAction(p: NodeParameters, q: NodeParameters)
    requires RequestFor(p).url == RequestFor(q).url != BaseUrl
    ensures p.action == q.action
  {
    var n := |BaseUrl|;
    assert RequestFor(p).url[n..] == EndpointFor(p.action, p.contentType);
    assert RequestFor(q).url[n..] == EndpointFor(q.action, q.contentType);
  }

  /** The response is read as text exactly for content and screenshots; the JSON flag and
      the Accept header follow the format; Content-Type, method and credential never vary. */
  lemma FormatAndHeaders(p: NodeParameters)
    ensures RequestFor(p).json <==> p.action != "content" && p.action != "screenshot"
    ensures RequestFor(p).headers.Keys == {"Accept", "Content-Type"}
    ensures RequestFor(p).headers["Accept"] ==
              (if RequestFor(p).json then "application/json" else "text/plain")
    ensures RequestFor(p).headers["Content-Type"] == "application/json"
    ensures RequestFor(p).httpMethod == "GET"
    ensures RequestFor(p).credentialType == CredentialName
  {
  }

  /** An action the `switch` does not match leaves the request at its initial state:
      the bare base URL, JSON, and `{url, fresh}`. */
  lemma UnmatchedActionFallsThrough(p: NodeParameters)
    requires p.action !in ActionChoices
    ensures RequestFor(p) ==
              Request(CredentialName, "GET", BaseUrl, map[UrlKey := Str(p.url), FreshKey := Bool(p.freshFlag)],
                      true, map["Accept" := "application/json", "Content-Type" := "application/json"])
  {
    UnmatchedQuery(p);
  }

  /** Every parameter a case forwards is one the editor shows for that action. */
  lemma ForwardedParametersAreShown(action: string, k: QueryKey)
    requires k in KeysFor(action) && SourceOf(k).Forward?
    ensures IsShown(SourceOf(k).param, action)
  {
    if action == "llm" {
      assert k in {UrlKey, FreshKey, PromptKey, JsonSchemaKey};
    } else if action == "content" {
      assert k in {UrlKey, FreshKey, LinkStyleKey, CleanContentKey, InlineImagesKey, AdvancedScrapingKey};
    } else if action == "metadata" {
      assert k in {UrlKey, FreshKey, AdvancedScrapingKey};
    } else if action == "screenshot" {
      assert k != ResponseTypeKey;
    } else {
      assert k in {UrlKey, FreshKey};
    }
  }

  /** The query key under which a parameter other than `action` and `contentType` is
      forwarded: the inverse of `SourceOf`. */
  function KeyOf(n: ParamName): (k: QueryKey)
    requires n != Action && n != ContentType
    ensures SourceOf(k) == Forward(n)
    ensures forall j :: SourceOf(j) == Forward(n) ==> j == k
  {
    match n
    case Url => UrlKey
    case Fresh => FreshKey
    case Prompt => PromptKey
    case JsonSchema => JsonSchemaKey
    case LinkStyle => LinkStyleKey
    case CleanContent => CleanContentKey
    case InlineImages => InlineImagesKey
    case AdvancedScraping => AdvancedScrapingKey
    case ImageType => ImageTypeKey
    case ViewportWidth => ViewportWidthKey
    case ViewportHeight => ViewportHeightKey
    case Timeout => TimeoutKey
    case Delay => DelayKey
  }

  /** Conversely, every parameter the editor shows for an action is forwarded under its
      query key, except `action` itself and `contentType`, which selects the endpoint. */
  lemma ShownParametersAreForwarded(p: NodeParameters, n: ParamName)
    requires IsShown(n, p.action) && n != Action && n != ContentType
    ensures KeyOf(n) in RequestFor(p).qs && RequestFor(p).qs[KeyOf(n)] == Get(p, n)
  {
  }

  /** The request depends only on the parameters the editor shows for the selected action:
      every parameter `execute` reads in a case is displayed for that action. */
  lemma RequestDependsOnlyOnShown(p: NodeParameters, q: NodeParameters)
    requires forall n :: IsShown(n, p.action) ==> Get(p, n) == Get(q, n)
    ensures RequestFor(p) == RequestFor(q)
  {
    assert Get(p, Action) == Get(q, Action);
    forall k | k in KeysFor(p.action)
      ensures Resolve(p, SourceOf(k)) == Resolve(q, SourceOf(k))
    {
      if SourceOf(k).Forward? {
        ForwardedParametersAreShown(p.action, k);
      }
    }
    assert Query(p) == Query(q);
    if p.action == "content" {
      assert Get(p, ContentType) == Get(q, ContentType);
    }
  }

  /** A node left at its defaults asks the LLM endpoint with an empty prompt and schema. */
  lemma DefaultRequest()
    ensures RequestFor(Defaults()) ==
              Request(CredentialName, "GET", BaseUrl + "/llm",
                      map[UrlKey := Str(""), FreshKey := Bool(false), PromptKey := Str(""),
                          JsonSchemaKey := Str("")],
                      true, map["Accept" := "application/json", "Content-Type" := "application/json"])
  {
    LlmQuery(Defaults());
  }

  /** An options value the editor does not list is still accepted and sent: a content
      item with an unlisted content type reaches the bare base URL. */
  lemma UnlistedContentTypeIsSent()
    ensures exists p: NodeParameters :: p.action == "content" && Get(p, ContentType).text !in ContentTypeChoices &&
                        RequestFor(p).url == BaseUrl
  {
    var p := Defaults().(action := "content", contentType := "pdf");
    assert Get(p, ContentType).text !in ContentTypeChoices;
    assert RequestFor(p).url == BaseUrl + "";
  }
}
