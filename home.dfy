module PageComponent {
  import opened FigmaUrlPattern
  import opened FigmaLinks
  import opened Page

  /**
   * The page component's state (`useState` hooks, lines 6-9) and the updates
   * the form makes to it. The `setTimeout` callback that `handleSubmit`
   * schedules is modelled as an explicit later step, `FireTimer`; `pending`
   * holds the keys that the scheduled callbacks captured, oldest first (all
   * use the same delay, so they fire in that order).
   *
   * The component is built with the fixed text of its HTML template
   * (`head`, `body`, `tail`; `ConvertOnce` passes `TemplateHead`,
   * `TemplateBody`, `TemplateTail`), so that the state updates reason about
   * `FillTemplate` without unfolding that text.
   */
  class Home {
    var figmaUrl: string
    var iframeUrl: string
    var htmlCode: string
    var loading: bool
    var pending: seq<string>
    const head: string
    const body: string
    const tail: string
    /** The key the preview URL was made from. */
    ghost var previewKey: string
    /** The key and date the generated HTML was made from. */
    ghost var exportedKey: string
    ghost var exportedDate: string

    ghost predicate Valid()
      reads this
    {
      && (forall i :: 0 <= i < |pending| ==> IsFileKey(pending[i]))
      && (loading ==> pending != [])
      && (pending != [] ==> previewKey == pending[|pending| - 1])
      && (iframeUrl != "" || pending != [] ==> IsFileKey(previewKey) && iframeUrl == GenerateEmbedUrl(previewKey))
      && (htmlCode != "" ==> IsFileKey(exportedKey) && htmlCode == FillTemplate(head, body, tail, exportedKey, exportedDate))
    }

    /** The initial state: every hook starts empty, `loading` false. */
    constructor (head: string, body: string, tail: string)
      ensures Valid()
      ensures this.head == head && this.body == body && this.tail == tail
      ensures figmaUrl == "" && iframeUrl == "" && htmlCode == "" && !loading && pending == []
    {
      figmaUrl, iframeUrl, htmlCode, loading, pending := "", "", "", false, [];
      previewKey, exportedKey, exportedDate := "", "", "";
      this.head, this.body, this.tail := head, body, tail;
    }

    /** The URL input's `onChange` (line 210). */
    method SetFigmaUrl(url: string)
      requires Valid()
      modifies this
      ensures Valid()
      ensures figmaUrl == url
      ensures iframeUrl == old(iframeUrl) && htmlCode == old(htmlCode)
      ensures loading == old(loading) && pending == old(pending)
    {
      figmaUrl := url;
    }

    /**
     * `handleSubmit`: without a key nothing changes (the page only alerts);
     * with one, the preview URL is set, `loading` is raised and a completion
     * for that key is scheduled.
     */
    method HandleSubmit()
      requires Valid()
      modifies this
      ensures Valid()
      ensures figmaUrl == old(figmaUrl) && htmlCode == old(htmlCode)
      ensures ExtractFileKey(old(figmaUrl)) == "" ==>
        iframeUrl == old(iframeUrl) && loading == old(loading) && pending == old(pending)
      ensures ExtractFileKey(old(figmaUrl)) != "" ==>
        && iframeUrl == GenerateEmbedUrl(ExtractFileKey(old(figmaUrl)))
        && loading
        && pending == old(pending) + [ExtractFileKey(old(figmaUrl))]
    {
      var fileKey := ExtractFileKey(figmaUrl);
      if fileKey == "" {
        return;
      }
      iframeUrl := GenerateEmbedUrl(fileKey);
      loading := true;
      pending := pending + [fileKey];
      previewKey := fileKey;
    }

    /**
     * Submitting the form through its button (line 222): while `loading`
     * the button is disabled and the form does not submit; otherwise the
     * submission runs `handleSubmit`.
     */
    method Submit()
      requires Valid()
      modifies this
      ensures Valid()
      ensures figmaUrl == old(figmaUrl) && htmlCode == old(htmlCode)
      ensures old(loading) || ExtractFileKey(old(figmaUrl)) == "" ==>
        iframeUrl == old(iframeUrl) && loading == old(loading) && pending == old(pending)
      ensures !old(loading) && ExtractFileKey(old(figmaUrl)) != "" ==>
        && iframeUrl == GenerateEmbedUrl(ExtractFileKey(old(figmaUrl)))
        && loading
        && pending == old(pending) + [ExtractFileKey(old(figmaUrl))]
    {
      if !loading {
        HandleSubmit();
      }
    }

    /**
     * The scheduled callback of `handleSubmit` (lines 39-43) running for the
     * oldest pending key, on the date `exportDate`.
     */
    method FireTimer(exportDate: string)
      requires Valid() && pending != []
      modifies this
      ensures Valid()
      ensures htmlCode == FillTemplate(head, body, tail, old(pending)[0], exportDate)
      ensures !loading && pending == old(pending)[1..]
      ensures figmaUrl == old(figmaUrl) && iframeUrl == old(iframeUrl)
    {
      var fileKey := pending[0];
      htmlCode := FillTemplate(head, body, tail, fileKey, exportDate);
      loading := false;
      pending := pending[1..];
      exportedKey, exportedDate := fileKey, exportDate;
    }
  }

  /**
   * One visit to the page: type `url`, submit, and let the completion run on
   * `exportDate`. Returns the preview URL and the generated HTML.
   */
  method ConvertOnce(url: string, exportDate: string) returns (preview: string, html: string)
    ensures ExtractFileKey(url) == "" ==> preview == "" && html == ""
    ensures ExtractFileKey(url) != "" ==>
      && preview == GenerateEmbedUrl(ExtractFileKey(url))
      && html == CreateHTMLTemplate(ExtractFileKey(url), exportDate)
    ensures preview != "" ==> ExtractFileKey(preview) == ExtractFileKey(url)
  {
    var page := new Home(TemplateHead, TemplateBody, TemplateTail);
    page.SetFigmaUrl(url);
    page.Submit();
    if page.pending != [] {
      page.FireTimer(exportDate);
    }
    preview, html := page.iframeUrl, page.htmlCode;
    if preview != "" {
      EmbedUrlRoundTrip(ExtractFileKey(url));
    }
  }
}
