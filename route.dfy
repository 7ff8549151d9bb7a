/**
 * The API route `POST /api/figma` (app/api/figma/route.ts): it reads
 * `figmaUrl` from the JSON request body and answers with the key, the embed
 * URL and a minimal page that embeds the design, or with an error.
 */
module FigmaRoute {
  import opened Wrappers
  import opened FigmaUrlPattern
  import opened FigmaLinks
  import opened Text

  /** The JSON bodies the route sends. */
  datatype Body =
    | ErrorBody(error: string)
    | SuccessBody(success: bool, html: string, fileKey: string, embedUrl: string)

  /** A response: its HTTP status and its JSON body. */
  datatype Response = Response(status: nat, body: Body)

  const InvalidUrlMessage: string := "Invalid Figma URL"
  const FailureMessage: string := "Something went wrong"

  /**
   * Line 9: `figmaUrl.match(...)?.[1] || ''`. Optional chaining gives no
   * group when nothing matches, and `|| ''` turns a missing or empty group
   * into `""`.
   */
  function RouteFileKey(figmaUrl: string): (fileKey: string)
    ensures fileKey == "" <==> !HasMatch(figmaUrl)
  {
    var group: Option<string> := match Match(figmaUrl)
      case None => None
      case Some(m) => Some(m.group);
    if group.Some? && group.value != "" then group.value else ""
  }

  /** The route extracts the same key as the page. */
  lemma RouteKeyAgreesWithPage(figmaUrl: string)
    ensures RouteFileKey(figmaUrl) == ExtractFileKey(figmaUrl)
  {
  }

  /** The lines of the embedding page before the iframe (lines 19-28). */
  const PageHeadLines: seq<string> := [
    "<!DOCTYPE html>",
    "<html>",
    "<head>",
    "    <title>Figma Design</title>",
    "    <style>",
    "        body { margin: 0; padding: 0; }",
    "        iframe { width: 100%; height: 100vh; border: none; }",
    "    </style>",
    "</head>",
    "<body>"
  ]

  /** The lines of the embedding page after the iframe (lines 30-31). */
  const PageTailLines: seq<string> := [
    "</body>",
    "</html>"
  ]

  const PageHead: string := JoinLines(PageHeadLines)
  const PageTail: string := JoinLines(PageTailLines)

  /** Line 29: a full-screen iframe showing the embed URL of the key. */
  function IframeLine(fileKey: string): string
  {
    "    <iframe " + SrcAttribute(GenerateEmbedUrl(fileKey)) + " allowfullscreen></iframe>"
  }

  /** The shape of the embedding page: fixed text around the iframe line. */
  function FillPage(head: string, tail: string, fileKey: string): string
  {
    head + ("\n" + (IframeLine(fileKey) + ("\n" + tail)))
  }

  /** The `html` of a successful response (lines 19-31). */
  function EmbedPage(fileKey: string): (html: string)
  {
    FillPage(PageHead, PageTail, fileKey)
  }

  /**
   * `POST`. `figmaUrl` is the request's `figmaUrl` when the body is JSON
   * holding a string there, and `None` otherwise: an unparseable body, a
   * body that is not an object, or a missing or non-string `figmaUrl` all
   * throw inside the `try` and end in the `catch` (lines 40-44).
   */
  function Post(figmaUrl: Option<string>): (r: Response)
    ensures figmaUrl.None? ==> r == Response(500, ErrorBody(FailureMessage))
    ensures figmaUrl.Some? && !HasMatch(figmaUrl.value) ==> r == Response(400, ErrorBody(InvalidUrlMessage))
    ensures figmaUrl.Some? && HasMatch(figmaUrl.value) ==>
      && r.status == 200
      && r.body.SuccessBody? && r.body.success
      && r.body.fileKey == ExtractFileKey(figmaUrl.value)
      && IsFileKey(r.body.fileKey)
      && r.body.embedUrl == GenerateEmbedUrl(r.body.fileKey)
      && r.body.html == EmbedPage(r.body.fileKey)
  {
    match figmaUrl
    case None => Response(500, ErrorBody(FailureMessage))
    case Some(url) =>
      var fileKey := RouteFileKey(url);
      if fileKey == "" then
        Response(400, ErrorBody(InvalidUrlMessage))
      else
        Response(200, SuccessBody(true, EmbedPage(fileKey), fileKey, GenerateEmbedUrl(fileKey)))
  }

  lemma FillPageEmbedsUrl(head: string, tail: string, fileKey: string)
    ensures Occurs(FillPage(head, tail, fileKey), SrcAttribute(GenerateEmbedUrl(fileKey)))
  {
    var src := SrcAttribute(GenerateEmbedUrl(fileKey));
    OccursAtMiddle("    <iframe ", src, " allowfullscreen></iframe>");
    assert Occurs(IframeLine(fileKey), src);
    OccursExtendRight(IframeLine(fileKey), src, "\n" + tail);
    OccursExtendLeft("\n", IframeLine(fileKey) + ("\n" + tail), src);
    OccursExtendLeft(head, "\n" + (IframeLine(fileKey) + ("\n" + tail)), src);
  }

  /** The page's iframe shows the embed URL of the key. */
  lemma EmbedPageEmbedsUrl(fileKey: string)
    ensures Occurs(EmbedPage(fileKey), SrcAttribute(GenerateEmbedUrl(fileKey)))
  {
    FillPageEmbedsUrl(PageHead, PageTail, fileKey);
  }

  lemma FillPageDeterminesKey(head: string, tail: string, k1: string, k2: string)
    requires IsFileKey(k1) && IsFileKey(k2)
    requires FillPage(head, tail, k1) == FillPage(head, tail, k2)
    ensures k1 == k2
  {
    var z := "\n" + tail;
    CancelPrefix(head, "\n" + (IframeLine(k1) + z), "\n" + (IframeLine(k2) + z));
    CancelPrefix("\n", IframeLine(k1) + z, IframeLine(k2) + z);
    var open := "    <iframe ";
    var close := " allowfullscreen></iframe>";
    var viewer := EmbedViewer + FileAddress;
    RegroupAround(open, "src=\"", viewer, k1, "\"", close, z);
    RegroupAround(open, "src=\"", viewer, k2, "\"", close, z);
    CancelPrefix(open + "src=\"" + viewer, k1 + ("\"" + close + z), k2 + ("\"" + close + z));
    KeyBeforeDelimiterUnique(k1, "\"" + close + z, k2, "\"" + close + z);
  }

  /** Different keys give different pages. */
  lemma EmbedPageDeterminesKey(k1: string, k2: string)
    requires IsFileKey(k1) && IsFileKey(k2)
    requires EmbedPage(k1) == EmbedPage(k2)
    ensures k1 == k2
  {
    FillPageDeterminesKey(PageHead, PageTail, k1, k2);
  }

  /**
   * A successful response is self-consistent: the embed URL is the viewer
   * address followed by the key's `/file/` address, the page's iframe shows
   * it, and extracting a key from it gives the response's key back.
   */
  lemma PostSucceeds(url: string)
    requires HasMatch(url)
    ensures Post(Some(url)).status == 200
    ensures Post(Some(url)).body.SuccessBody?
    ensures Post(Some(url)).body.fileKey == ExtractFileKey(url)
    ensures Post(Some(url)).body.embedUrl[..|EmbedViewer|] == "https://www.figma.com/embed?embed_host=share&url="
    ensures Post(Some(url)).body.embedUrl[|EmbedViewer|..] == "https://www.figma.com/file/" + ExtractFileKey(url)
    ensures Occurs(Post(Some(url)).body.html, SrcAttribute(Post(Some(url)).body.embedUrl))
    ensures ExtractFileKey(Post(Some(url)).body.embedUrl) == Post(Some(url)).body.fileKey
  {
    var fileKey := ExtractFileKey(url);
    EmbedUrlTargetsFileForm(fileKey);
    EmbedPageEmbedsUrl(fileKey);
    EmbedUrlRoundTrip(fileKey);
  }

  /**
   * Two URLs get the same response exactly when they have the same key: the
   * response depends on the URL only through its key, and a success names
   * its key.
   */
  lemma SameResponseIffSameKey(u1: string, u2: string)
    ensures Post(Some(u1)) == Post(Some(u2)) <==> ExtractFileKey(u1) == ExtractFileKey(u2)
  {
  }

  /** A design link gets its key and embed URL back. */
  lemma ScenarioFileUrl()
    ensures Post(Some("https://www.figma.com/file/ABC123/My-Design")).status == 200
    ensures Post(Some("https://www.figma.com/file/ABC123/My-Design")).body.fileKey == "ABC123"
    ensures Post(Some("https://www.figma.com/file/ABC123/My-Design")).body.embedUrl == GenerateEmbedUrl("ABC123")
  {
    ExampleFileUrl();
  }

  /** A link to another site is rejected with status 400. */
  lemma ScenarioForeignDomain()
    ensures Post(Some("https://example.com/foo")) == Response(400, ErrorBody(InvalidUrlMessage))
  {
    NoMatchWithoutMarkerChar("https://example.com/foo", 'g');
  }
}
