# Handinger n8n node — a verified model

The Handinger node is an n8n workflow node. For each input item it calls the Handinger web
API: it asks an LLM about a page (`llm`), fetches its content as Markdown or HTML
(`content`), reads its metadata (`metadata`) or takes a screenshot (`screenshot`). It then
returns one JSON record per item.

This project models the node's `execute` and the constant descriptor that `execute` reads
its parameters from. It has three modules:

- `Description` (`description.dfy`) holds the node descriptor as constants. That is each
  parameter's name, editor type, default, `required` flag and the actions that display it.
  It also holds the typed parameter values of one item (`NodeParameters`). `Get` is what
  `getNodeParameter` returns for an item.
- `Requests` (`requests.dfy`) covers request construction.
  - `RequestFor` states the request per action: the query keys each action sends
    (`KeysFor`), where each key's value comes from (`SourceOf`), the endpoint and the
    response format.
  - `BuildRequest` is the node's `switch`. It starts from `{url, fresh}` with an empty
    endpoint and the JSON format, and fills the query record field by field. It is proved
    equal to `RequestFor`.
  - The lemmas state the request per action and check it against the descriptor.
- `Execution` (`execution.dfy`) covers the item loop.
  - The HTTP call is an oracle: `responses[i]` is what the i-th call returns.
  - `Run` is the reference outcome, defined item by item.
  - `Execute` is the node's `for` loop. It is proved to produce `Run`'s outcome and to
    issue exactly the requests `RequestFor` describes, one per item attempted.

The query record's keys are the enumeration `QueryKey`. `WireName` gives the key as sent,
and `WireNamesAreDistinct` shows that no two keys share a name.

Two behaviours of `execute` are easy to miss, and the model keeps both:

- `url`, `prompt` and `jsonSchema` are declared `required`
  (nodes/Handinger/Handinger.node.ts:67, 82, 91; `RequiredParameters`), but `execute` does
  not check them: an empty value is sent as is (`UrlAndFreshAlwaysSent`, `DefaultRequest`).
  Likewise an options value outside its listed choices is sent unchecked
  (`UnlistedContentTypeIsSent`).
- In strict mode (`continueOnFail` off) the code rethrows the first failure. The records of
  the items before it are discarded, not returned (`StrictReturnsOnlySuccesses`,
  `StrictRaisesIffSomeCallFails`).

## Model

| member | source | states |
|---|---|---|
| Description.DefaultsAreDeclared | nodes/Handinger/Handinger.node.ts:29-211 | An item left untouched has, for every parameter, the default the descriptor declares (action `llm`, contentType `markdown`, linkStyle `inline`, imageType `png`, viewport 1280x1024, timeout 30000, delay 500, …) |
| Description.NamesAreDistinct | nodes/Handinger/Handinger.node.ts:29-211 | No two descriptor entries share a name, so each name read by `getNodeParameter` denotes one parameter |
| Description.DefaultsHaveDeclaredKind | nodes/Handinger/Handinger.node.ts:29-211 | Every default has its parameter's editor type, and an options default is one of its choices |
| Description.ValuesHaveDeclaredType | nodes/Handinger/Handinger.node.ts:29-211 | Every value an item supplies has its parameter's type; an options value is a string (that it need not be one of the choices is shown by `UnlistedContentTypeIsSent`) |
| Description.RequiredParameters | nodes/Handinger/Handinger.node.ts:64-95 | The parameters declared `required` are exactly `url`, `prompt` and `jsonSchema` |
| Requests.BuildRequest | nodes/Handinger/Handinger.node.ts:220-281 | The `switch` builds exactly the request `RequestFor` describes: credential `HandingerApi`, GET, base URL plus the endpoint, the query record of the action, the JSON flag and the headers |
| Requests.LlmQuery | nodes/Handinger/Handinger.node.ts:230-233 | For `llm` the query is exactly {url, fresh, prompt, json_schema}, with the item's values |
| Requests.ContentQuery | nodes/Handinger/Handinger.node.ts:236-243 | For `content` the query is exactly {url, fresh, link_style, clean_content, inline_images, advanced_scraping}, with the item's values |
| Requests.MetadataQuery | nodes/Handinger/Handinger.node.ts:251-253 | For `metadata` the query is exactly {url, fresh, advanced_scraping} |
| Requests.ScreenshotQuery | nodes/Handinger/Handinger.node.ts:256-264 | For `screenshot` the query is exactly {url, fresh, image_type, viewport_width, viewport_height, timeout, delay, response_type = `link`} |
| Requests.UnmatchedQuery | nodes/Handinger/Handinger.node.ts:224-229 | For an action outside the four, the query stays {url, fresh} |
| Requests.UrlAndFreshAlwaysSent | nodes/Handinger/Handinger.node.ts:220-224 | Whatever the action, `url` and `fresh` are in the query exactly as read |
| Requests.QueryKeysPerAction | nodes/Handinger/Handinger.node.ts:229-266 | The key set of each action, and of an unmatched one, is exactly its own: no key of another case appears |
| Requests.ScreenshotAlwaysAsksForLink | nodes/Handinger/Handinger.node.ts:262 | `response_type` is sent exactly for screenshots, and then it is always `link` |
| Requests.WireNamesAreDistinct | nodes/Handinger/Handinger.node.ts:224-262 | No two query keys are sent under the same name |
| Requests.EndpointSelection | nodes/Handinger/Handinger.node.ts:226-273 | The URL is always `https://api.handinger.com` followed by the endpoint: `/llm`, `/meta`, `/image`, `/markdown` or `/html` for content by type, and empty for an unknown content type or action |
| Requests.EmptyEndpointIffOutsideChoices | nodes/Handinger/Handinger.node.ts:29-116 | The endpoint is empty if and only if the action, or for content the content type, is not one of the choices the descriptor offers |
| Requests.EndpointIdentifiesAction | nodes/Handinger/Handinger.node.ts:226-273 | Two requests with the same non-empty endpoint come from the same action |
| Requests.FormatAndHeaders | nodes/Handinger/Handinger.node.ts:227-278 | The response is read as text exactly for content and screenshots. The `json` flag is set exactly for the JSON format. Accept follows the format. Content-Type is always `application/json`, the method is always GET and the credential is always `HandingerApi` |
| Requests.UnmatchedActionFallsThrough | nodes/Handinger/Handinger.node.ts:224-281 | An unmatched action issues the initial request: the bare base URL, JSON, and {url, fresh} |
| Requests.ForwardedParametersAreShown | nodes/Handinger/Handinger.node.ts:80-209 | Every parameter a case reads is one the descriptor displays for that action |
| Requests.KeyOf | nodes/Handinger/Handinger.node.ts:224-262 | Each forwarded parameter has a query key whose source is that parameter, and no other key has that source |
| Requests.ShownParametersAreForwarded | nodes/Handinger/Handinger.node.ts:80-209 | Every parameter displayed for an action is sent in its query, except `action` and `contentType`, which select the endpoint |
| Requests.RequestDependsOnlyOnShown | nodes/Handinger/Handinger.node.ts:229-266 | Two items that agree on the parameters displayed for their action produce the same request |
| Requests.UnlistedContentTypeIsSent | nodes/Handinger/Handinger.node.ts:236-249 | Some content item has a content type outside the listed choices; it is sent anyway, to the bare base URL |
| Requests.DefaultRequest | nodes/Handinger/Handinger.node.ts:29-95 | An item left at its defaults asks `/llm` with an empty url, prompt and schema and `fresh` false |
| Execution.Records | nodes/Handinger/Handinger.node.ts:283-296 | The records of a run that does not abort: one per response, in order, each the record of its response |
| Execution.FirstError | nodes/Handinger/Handinger.node.ts:218-300 | The index of the first failed call: all calls before it succeed, and it fails unless it is the end |
| Execution.RunCharacterized | nodes/Handinger/Handinger.node.ts:218-303 | With `continueOnFail` the outcome is every response's record. Without it, the first failure is raised with its message, or all records are returned when nothing fails |
| Execution.Execute | nodes/Handinger/Handinger.node.ts:214-304 | The loop returns `Run`'s outcome and issues `RequestFor(items[j])` as its j-th request. It issues every request, unless strict mode stops right after the first failure |
| Execution.ContinueOnFailRecordsEveryItem | nodes/Handinger/Handinger.node.ts:283-296 | With `continueOnFail`, nothing is raised and record i belongs to item i. It is `{success: true, response}` with the body unmodified, or `{success: false, error}` with the message |
| Execution.StrictRaisesIffSomeCallFails | nodes/Handinger/Handinger.node.ts:289-300 | Without `continueOnFail`, the execution raises if and only if some call fails, and it raises the first failure's message |
| Execution.StrictReturnsOnlySuccesses | nodes/Handinger/Handinger.node.ts:283-303 | Without `continueOnFail`, a returned output has one success record per item with its body |
| Execution.ModesAgreeWithoutFailures | nodes/Handinger/Handinger.node.ts:289-300 | When no call fails, `continueOnFail` makes no difference |
| Execution.StrictStopsAtFirstFailure | nodes/Handinger/Handinger.node.ts:289-300 | Without `continueOnFail`, only the calls up to the first failure are made, for any responses agreeing up to it, and what later calls would return does not affect the result |
| Execution.StrictFailureAt | nodes/Handinger/Handinger.node.ts:289-300 | A failure at item i, after only successes, raises its message after i + 1 calls |
| Execution.CompletedRun | nodes/Handinger/Handinger.node.ts:218-303 | A loop that runs to its end, with no failure in strict mode, returns one record per item after issuing every call |

## Left out

- The HTTP call. `httpRequestWithAuthentication` does network I/O, so its outcome for the
  i-th item is an input: the sequence `responses` of bodies and error messages. The model
  does not say what the API returns for a request; `Execute` records the requests issued
  (`requested`) instead.
- The credential descriptor (`credentials/HandingerApi.credentials.ts`). It adds
  `Authorization: Bearer <apiKey>` through the host's template engine, so no logic of the
  node is involved. That header is not among the request's `headers`.
- Host helpers. `getInputData`, `getNodeParameter`, `continueOnFail` and `returnJsonArray`
  are given: items are already-typed `NodeParameters`, `continueOnFail` is a boolean, and
  the output is the one branch of records. A failure of `getNodeParameter` itself, which
  the `catch` would also handle, is not modelled; only the HTTP call fails.
- The error object. A caught error is reduced to its `message`. Strict mode rethrows the
  whole object; the model raises its message.
- Numbers. The numeric parameters are JavaScript numbers; here they are integers, with no
  floating point.
- Key order. `qs` is a JavaScript object whose keys have an insertion order; the model keys
  it by a map, so the order keys are written in is not captured.
- Concurrency and async. `execute` awaits each call before the next item, so it is modelled
  as a plain sequential loop.
- UI-only descriptor fields. Display names, descriptions, the icon, the subtitle,
  `noDataExpression` and the option labels are presentation only.
