# Figma to HTML converter — a Dafny model

The repository is a Next.js application that turns the address of a Figma
design into HTML that embeds the design. The model covers two parts of it:

- The converter page, `app/page.tsx`. The page:
  - extracts the file key from the pasted URL with the regular expression
    `figma\.com\/file\/([a-zA-Z0-9]+)`;
  - builds the Figma embed-viewer URL for that key;
  - fills a fixed HTML template with the key and the export date;
  - keeps the form state in four React state hooks (`figmaUrl`, `iframeUrl`,
    `htmlCode`, `loading`). A submission updates them at once, and a
    completion scheduled with `setTimeout` updates them again later.
- The API route, `app/api/figma/route.ts`. `POST` reads `figmaUrl` from the
  JSON body and answers in one of three ways:
  - 200 with the key, the embed URL and a minimal embedding page;
  - 400 `Invalid Figma URL` when the URL holds no key;
  - 500 `Something went wrong` when the body is unusable.

Modules, one per file:

- `FigmaUrlPattern` (`figma_url_pattern.dfy`): the regular expression. It is
  stated two ways, proved equal by `MatchIsLeftmostMatch`:
  - the scan a regex engine performs: the first index where a match starts,
    then the greedy run of letters and digits;
  - a declarative leftmost, maximal match.
- `FigmaLinks` (`figma_links.dfy`): the page's `extractFileKey` and
  `generateEmbedUrl`, and the `src` attribute that places a URL in an iframe.
- `Page` (`page.dfy`): `createHTMLTemplate`.
  - The template text is kept as its source lines, grouped as head, body and
    tail around the lines that splice in the key and the date.
  - `FillTemplate` is the shape of the document for any fixed text. The
    lemmas are proved about that shape and then applied to the page's own
    text.
- `PageComponent` (`home.dfy`): the page component as a class.
  - Its fields are the four state hooks, plus `pending`, the keys captured
    by completions that are scheduled but have not yet run.
  - Each event is a method: typing a URL, submitting, and a completion
    firing.
- `FigmaRoute` (`route.dfy`): the API route as a function from the request's
  `figmaUrl` to a response record.
- `Text` (`text.dfy`) and `Wrappers` (`wrappers.dfy`): substring occurrence,
  joining lines, cancellation laws for concatenation, and `Option`.

The route contains its own, character-for-character identical copies of the
pattern and of the embed-URL template literal. The model defines each once:
the pattern in `FigmaUrlPattern` and the embed URL in `FigmaLinks`. The route
uses those definitions. `RouteKeyAgreesWithPage`
proves that the route's `?.[1] || ''` yields the same key as the page's
`match ? match[1] : ''`.

The pattern (`app/page.tsx` line 13) accepts only `figma.com/file/` URLs, and
any character outside `[a-zA-Z0-9]` ends the key:

- a `/design/` URL yields no key (`DesignUrlYieldsNoKey`);
- `/`, `_`, `-` and `?` end the key (`ExampleFileUrl`, `ExampleUnderscoreEndsKey`,
  `ExampleHyphenEndsKey`, `ExampleQueryEndsKey`); in general any character
  that is not a letter or digit does (`ExtractFileKeyAfterHost`).

The template's "Embed URL" line shows the `/file/` address of the design
(`https://www.figma.com/file/<key>`), not the embed-viewer URL. The model
reproduces that line as written.

Inputs that the code reads from its environment are parameters of the model:

- The export date, `new Date().toLocaleDateString()`, evaluated when the
  completion runs, is the `exportDate` argument of `Home.FireTimer`.
- The parsed request body is the `Option<string>` argument of
  `FigmaRoute.Post`.

## Model

| member | source | states |
|---|---|---|
| FigmaUrlPattern.FirstMatchFrom | app/page.tsx:13 | the regex engine's scan: the first index from `from` on where the marker is followed by a letter or digit, or none when no later index qualifies |
| FigmaUrlPattern.AlnumRunEnd | app/page.tsx:13 | the greedy `[a-zA-Z0-9]+`: the run from `from` holds only letters and digits and ends at the end of the URL or at a character that is neither |
| FigmaUrlPattern.Match | app/page.tsx:13 | the regex engine's result is a leftmost, maximal match whenever it succeeds, and it fails exactly when no index starts a match |
| FigmaUrlPattern.MatchIsLeftmostMatch | app/page.tsx:13 | `Match` returns a given match exactly when that match is the leftmost, maximal match of the pattern |
| FigmaUrlPattern.LeftmostMatchUnique | app/page.tsx:13 | a URL has at most one leftmost, maximal match |
| FigmaUrlPattern.MatchAfterPrefix | app/page.tsx:13 | if no match starts inside a prefix, the marker and a key follow it, and then a non-alphanumeric character or the end, then the match is at the end of the prefix with exactly that key |
| FigmaUrlPattern.KeyBeforeDelimiterUnique | app/page.tsx:13 | two keys each followed by a non-alphanumeric character split the same text in the same place |
| FigmaUrlPattern.NoMatchWithoutMarkerChar | app/page.tsx:13 | a URL lacking any character of `figma.com/file/` has no match |
| FigmaLinks.ExtractFileKey | app/page.tsx:12-15 | the key is empty exactly when the pattern has no match; a non-empty key consists only of ASCII letters and digits and is the group of the leftmost match |
| FigmaLinks.ExtractFileKeyOccurs | app/page.tsx:12-15 | a non-empty key appears in the URL directly after `figma.com/file/` |
| FigmaLinks.ExtractFileKeyLeftmostMaximal | app/page.tsx:12-15 | the key comes from the leftmost matching index and is followed by the end of the URL or by a character that is not a letter or digit |
| FigmaLinks.ExtractFileKeyAfterHost | app/page.tsx:12-15 | after a host without `f`, the marker and a key, followed by the end of the URL or by a character that is not a letter or digit, the extracted key is exactly that key |
| FigmaLinks.ExampleFileUrl | app/page.tsx:12-15 | `https://www.figma.com/file/ABC123/My-Design` yields `ABC123` |
| FigmaLinks.ExampleUnderscoreEndsKey | app/page.tsx:13 | `_` ends the key |
| FigmaLinks.ExampleHyphenEndsKey | app/page.tsx:13 | `-` ends the key |
| FigmaLinks.ExampleQueryEndsKey | app/page.tsx:13 | `?` ends the key |
| FigmaLinks.DesignUrlYieldsNoKey | app/page.tsx:12-15 | a `figma.com/design/` URL yields the empty key |
| FigmaLinks.UpperCaseUrlYieldsNoKey | app/page.tsx:13 | matching is case-sensitive: `Figma.com/File/` yields the empty key |
| FigmaLinks.GenerateEmbedUrl | app/page.tsx:18-20 | definition: the viewer prefix, then `https://www.figma.com/file/`, then the key; its properties are the three lemmas below |
| FigmaLinks.EmbedUrlTargetsFileForm | app/page.tsx:18-20 | the embed URL is the viewer address `https://www.figma.com/embed?embed_host=share&url=` followed by `https://www.figma.com/file/` and the key |
| FigmaLinks.EmbedUrlRoundTrip | app/page.tsx:12-20 | extracting the key from the embed URL of any key gives that key back |
| FigmaLinks.EmbedUrlInjective | app/page.tsx:18-20 | different keys give different embed URLs |
| Page.CreateHTMLTemplate | app/page.tsx:47-163 | definition: the page's template lines with the key spliced in three times (iframe `src`, File Key, Embed URL) and the date once; its properties are the lemmas below |
| Page.TemplateIframeSrc | app/page.tsx:134-138 | the exported document's iframe `src` attribute holds `generateEmbedUrl(key)` |
| Page.TemplateShowsFileKey | app/page.tsx:144 | the exported document contains the `File Key:` paragraph with the key |
| Page.TemplateDeterminesInputs | app/page.tsx:47-163 | the exported document determines both the key and the export date it was made from |
| Page.FillTemplateDeterminesInputs | app/page.tsx:47-163 | the same, for any fixed text around the spliced lines |
| PageComponent.Home.constructor | app/page.tsx:6-9 | all four hooks start empty, and `loading` starts false |
| PageComponent.Home.SetFigmaUrl | app/page.tsx:210 | the input's change handler sets `figmaUrl` and nothing else |
| PageComponent.Home.HandleSubmit | app/page.tsx:23-44 | with an empty key nothing changes; otherwise `iframeUrl` becomes the key's embed URL, `loading` becomes true and a completion for that key is scheduled |
| PageComponent.Home.Submit | app/page.tsx:220-222 | while `loading` the disabled button submits nothing; otherwise the effect is that of `handleSubmit` |
| PageComponent.Home.FireTimer | app/page.tsx:39-43 | the oldest scheduled completion sets `htmlCode` to the template for the key it captured and lowers `loading`; it leaves the URL and the preview alone |
| PageComponent.ConvertOnce | app/page.tsx:23-43 | for one submission and its completion: an unusable URL leaves preview and HTML empty; otherwise they are `generateEmbedUrl(key)` and `createHTMLTemplate(key)`, and the preview URL yields the same key again |
| FigmaRoute.RouteFileKey | app/api/figma/route.ts:9 | the route's key is empty exactly when the pattern has no match |
| FigmaRoute.RouteKeyAgreesWithPage | app/api/figma/route.ts:9 | the route's optional chaining with an empty-string default gives the same key as the page's `extractFileKey` |
| FigmaRoute.Post | app/api/figma/route.ts:4-46 | no usable `figmaUrl` gives 500 `Something went wrong`; no key gives 400 `Invalid Figma URL`; otherwise 200 with `success` true, the extracted key, that key's embed URL and the embedding page |
| FigmaRoute.PostSucceeds | app/api/figma/route.ts:33-38 | a successful response's embed URL has the viewer prefix and the `/file/` form of its key, the page's iframe points at it, and the key extracted from it is the response's key |
| FigmaRoute.EmbedPage | app/api/figma/route.ts:19-31 | definition: the embedding page's lines around the iframe line that holds the key's embed URL; its properties are the two lemmas below |
| FigmaRoute.EmbedPageEmbedsUrl | app/api/figma/route.ts:19-31 | the embedding page's iframe `src` holds the embed URL of the key |
| FigmaRoute.EmbedPageDeterminesKey | app/api/figma/route.ts:19-31 | different keys give different embedding pages |
| FigmaRoute.SameResponseIffSameKey | app/api/figma/route.ts:9-38 | two URLs get the same response exactly when they have the same key |
| FigmaRoute.ScenarioFileUrl | app/api/figma/route.ts:9-38 | `https://www.figma.com/file/ABC123/My-Design` gets status 200 with key `ABC123` and its embed URL |
| FigmaRoute.ScenarioForeignDomain | app/api/figma/route.ts:11-16 | `https://example.com/foo` gets status 400 `Invalid Figma URL` |

## Left out

- Rendering (the JSX of `app/page.tsx`, lines 184 onwards): the model keeps the state that the markup shows, not the markup.
- `alert`: a call to it has no effect on the page state, so the model drops the calls.
- Copy to clipboard and download (`copyToClipboard`, `downloadHTML`): these only hand `htmlCode` to the browser, which is outside the model.
- The one-second delay of `setTimeout`: a completion is an explicit `FireTimer` step. Its order with respect to other events is left to the caller of the model.
- `new Date().toLocaleDateString()`: locale formatting is outside the model; the date text is the `exportDate` parameter.
- Browser form validation (`type="url"`, `required`): the model runs `handleSubmit` on any text in the input, including text a browser would refuse as a URL.
- `request.json()`, destructuring, and `NextResponse.json`: `FigmaRoute.Post` takes the parsed `figmaUrl`, or `None` when parsing or the string requirement fails, and returns the status and body as a record.
- The route `app/api/figma/export-real/route.ts` is not part of this model.
- Characters are Dafny characters (Unicode scalar values), not UTF-16 code units. The pattern only examines ASCII characters, so the difference does not affect which key is extracted.
- PageComponent.Home: the component receives the template text as constructor arguments instead of reading the global constants (`ConvertOnce` passes `TemplateHead`, `TemplateBody` and `TemplateTail`). Its methods therefore state `htmlCode` in terms of `FillTemplate` over those fields. `ConvertOnce` connects them to `CreateHTMLTemplate`.
