/**
 * The HTML document that the converter page (app/page.tsx) exports
 * (`createHTMLTemplate`).
 */
module Page {
  import opened FigmaUrlPattern
  import opened FigmaLinks
  import opened Text

  /** The template lines before the iframe `src` line: document head, styles and page header. */
  const TemplateHeadLines: seq<string> := [
    "<!DOCTYPE html>",
    "<html lang=\"en\">",
    "<head>",
    "    <meta charset=\"UTF-8\">",
    "    <meta name=\"viewport\" content=\"width=device-width, initial-scale=1.0\">",
    "    <title>Figma Design</title>",
    "    <style>",
    "        * {",
    "            margin: 0;",
    "            padding: 0;",
    "            box-sizing: border-box;",
    "            font-family: 'Inter', sans-serif;",
    "        }",
    "        ",
    "        body {",
    "            background: #f5f5f5;",
    "            padding: 20px;",
    "        }",
    "        ",
    "        .container {",
    "            max-width: 1200px;",
    "            margin: 0 auto;",
    "            background: white;",
    "            border-radius: 12px;",
    "            padding: 40px;",
    "            box-shadow: 0 4px 20px rgba(0,0,0,0.1);",
    "        }",
    "        ",
    "        .header {",
    "            text-align: center;",
    "            margin-bottom: 40px;",
    "            padding-bottom: 20px;",
    "            border-bottom: 2px solid #f0f0f0;",
    "        }",
    "        ",
    "        h1 {",
    "            color: #333;",
    "            font-size: 36px;",
    "            margin-bottom: 10px;",
    "        }",
    "        ",
    "        .description {",
    "            color: #666;",
    "            font-size: 18px;",
    "            line-height: 1.6;",
    "        }",
    "        ",
    "        .figma-embed {",
    "            width: 100%;",
    "            height: 600px;",
    "            border: none;",
    "            border-radius: 8px;",
    "            margin: 20px 0;",
    "        }",
    "        ",
    "        .content {",
    "            margin-top: 40px;",
    "        }",
    "        ",
    "        .section {",
    "            margin-bottom: 30px;",
    "        }",
    "        ",
    "        .section-title {",
    "            font-size: 24px;",
    "            color: #333;",
    "            margin-bottom: 15px;",
    "            font-weight: 600;",
    "        }",
    "        ",
    "        .section-content {",
    "            background: #f8f9fa;",
    "            padding: 20px;",
    "            border-radius: 8px;",
    "            line-height: 1.6;",
    "        }",
    "    </style>",
    "    <link href=\"https://fonts.googleapis.com/css2?family=Inter:wght@300;400;500;600;700&display=swap\" rel=\"stylesheet\">",
    "</head>",
    "<body>",
    "    <div class=\"container\">",
    "        <div class=\"header\">",
    "            <h1>Figma Design Export</h1>",
    "            <p class=\"description\">This is an HTML export of your Figma design. You can embed the Figma file and customize this template.</p>",
    "        </div>",
    "        ",
    "        <iframe ",
    "            class=\"figma-embed\" "
  ]

  /** The template lines between the iframe `src` line and the File Key line. */
  const TemplateBodyLines: seq<string> := [
    "            allowfullscreen",
    "        ></iframe>",
    "        ",
    "        <div class=\"content\">",
    "            <div class=\"section\">",
    "                <h2 class=\"section-title\">Design Details</h2>",
    "                <div class=\"section-content\">"
  ]

  /** The template lines after the Export Date line: usage notes and closing tags. */
  const TemplateTailLines: seq<string> := [
    "                </div>",
    "            </div>",
    "            ",
    "            <div class=\"section\">",
    "                <h2 class=\"section-title\">How to Use</h2>",
    "                <div class=\"section-content\">",
    "                    <p>1. This HTML file contains an embedded Figma design</p>",
    "                    <p>2. You can customize the styles in the &lt;style&gt; tag</p>",
    "                    <p>3. Add your own content in the HTML structure</p>",
    "                    <p>4. Save this file and open it in any browser</p>",
    "                </div>",
    "            </div>",
    "        </div>",
    "    </div>",
    "</body>",
    "</html>"
  ]

  /** app/page.tsx line 136: the iframe's `src` attribute, holding the embed URL. */
  function IframeSrcLine(fileKey: string): string
  {
    "            " + SrcAttribute(GenerateEmbedUrl(fileKey))
  }

  /** The indentation of the Design Details lines. */
  const DetailIndent: string := "                    "

  function FileKeyParagraph(fileKey: string): string
  {
    "<p><strong>File Key:</strong> " + fileKey + "</p>"
  }

  /** app/page.tsx line 144. */
  function FileKeyLine(fileKey: string): string
  {
    DetailIndent + FileKeyParagraph(fileKey)
  }

  /** app/page.tsx line 145: the `/file/` address of the key (not the embed URL). */
  function EmbedUrlLine(fileKey: string): string
  {
    DetailIndent + "<p><strong>Embed URL:</strong> " + FileAddress + fileKey + "</p>"
  }

  /** app/page.tsx line 146. */
  function ExportDateLine(exportDate: string): string
  {
    DetailIndent + "<p><strong>Export Date:</strong> " + exportDate + "</p>"
  }

  /**
   * The shape of the exported page: fixed text around the four template lines
   * that splice in the key and the date. `CreateHTMLTemplate` fills it with
   * the page's own text; the lemmas about the shape hold whatever that text is.
   */
  function FillTemplate(head: string, body: string, tail: string, fileKey: string, exportDate: string): string
  {
    head + ("\n" + (IframeSrcLine(fileKey) + ("\n" + (body + ("\n" + (FileKeyLine(fileKey)
      + ("\n" + (EmbedUrlLine(fileKey) + ("\n" + (ExportDateLine(exportDate) + ("\n" + tail)))))))))))
  }

  const TemplateHead: string := JoinLines(TemplateHeadLines)
  const TemplateBody: string := JoinLines(TemplateBodyLines)
  const TemplateTail: string := JoinLines(TemplateTailLines)

  /**
   * `createHTMLTemplate`, with the export date (the page's
   * `new Date().toLocaleDateString()`) passed in as `exportDate`.
   */
  function CreateHTMLTemplate(fileKey: string, exportDate: string): (html: string)
  {
    FillTemplate(TemplateHead, TemplateBody, TemplateTail, fileKey, exportDate)
  }

  lemma FillTemplateIframeSrc(head: string, body: string, tail: string, fileKey: string, exportDate: string)
    ensures Occurs(FillTemplate(head, body, tail, fileKey, exportDate), SrcAttribute(GenerateEmbedUrl(fileKey)))
  {
    var src := SrcAttribute(GenerateEmbedUrl(fileKey));
    var rest := "\n" + (body + ("\n" + (FileKeyLine(fileKey)
      + ("\n" + (EmbedUrlLine(fileKey) + ("\n" + (ExportDateLine(exportDate) + ("\n" + tail))))))));
    OccursAtMiddle("", src, "");
    assert "" + src + "" == src;
    OccursExtendLeft("            ", src, src);
    OccursExtendRight(IframeSrcLine(fileKey), src, rest);
    OccursExtendLeft("\n", IframeSrcLine(fileKey) + rest, src);
    OccursExtendLeft(head, "\n" + (IframeSrcLine(fileKey) + rest), src);
  }

  /** The exported page's iframe `src` attribute holds exactly the embed URL. */
  lemma TemplateIframeSrc(fileKey: string, exportDate: string)
    ensures Occurs(CreateHTMLTemplate(fileKey, exportDate), SrcAttribute(GenerateEmbedUrl(fileKey)))
  {
    FillTemplateIframeSrc(TemplateHead, TemplateBody, TemplateTail, fileKey, exportDate);
  }

  lemma FillTemplateShowsFileKey(head: string, body: string, tail: string, fileKey: string, exportDate: string)
    ensures Occurs(FillTemplate(head, body, tail, fileKey, exportDate), FileKeyParagraph(fileKey))
  {
    var par := FileKeyParagraph(fileKey);
    var rest := "\n" + (EmbedUrlLine(fileKey) + ("\n" + (ExportDateLine(exportDate) + ("\n" + tail))));
    OccursAtMiddle("", par, "");
    assert "" + par + "" == par;
    OccursExtendLeft(DetailIndent, par, par);
    OccursExtendRight(FileKeyLine(fileKey), par, rest);
    var s := FileKeyLine(fileKey) + rest;
    OccursExtendLeft("\n", s, par);
    OccursExtendLeft(body, "\n" + s, par);
    OccursExtendLeft("\n", body + ("\n" + s), par);
    var s2 := "\n" + (body + ("\n" + s));
    OccursExtendLeft(IframeSrcLine(fileKey), s2, par);
    OccursExtendLeft("\n", IframeSrcLine(fileKey) + s2, par);
    OccursExtendLeft(head, "\n" + (IframeSrcLine(fileKey) + s2), par);
  }

  /** The exported page shows the key on its File Key line. */
  lemma TemplateShowsFileKey(fileKey: string, exportDate: string)
    ensures Occurs(CreateHTMLTemplate(fileKey, exportDate), FileKeyParagraph(fileKey))
  {
    FillTemplateShowsFileKey(TemplateHead, TemplateBody, TemplateTail, fileKey, exportDate);
  }

  /** Line 136 followed by anything splits just before and just after the key. */
  lemma IframeSrcLineSplit(fileKey: string, rest: string)
    ensures IframeSrcLine(fileKey) + rest == ("            src=\"" + EmbedViewer + FileAddress) + (fileKey + ("\"" + rest))
  {
  }

  lemma FillTemplateDeterminesInputs(head: string, body: string, tail: string,
                                     k1: string, d1: string, k2: string, d2: string)
    requires IsFileKey(k1) && IsFileKey(k2)
    requires FillTemplate(head, body, tail, k1, d1) == FillTemplate(head, body, tail, k2, d2)
    ensures k1 == k2 && d1 == d2
  {
    var z1 := "\n" + (body + ("\n" + (FileKeyLine(k1)
      + ("\n" + (EmbedUrlLine(k1) + ("\n" + (ExportDateLine(d1) + ("\n" + tail))))))));
    var z2 := "\n" + (body + ("\n" + (FileKeyLine(k2)
      + ("\n" + (EmbedUrlLine(k2) + ("\n" + (ExportDateLine(d2) + ("\n" + tail))))))));
    CancelPrefix(head, "\n" + (IframeSrcLine(k1) + z1), "\n" + (IframeSrcLine(k2) + z2));
    CancelPrefix("\n", IframeSrcLine(k1) + z1, IframeSrcLine(k2) + z2);
    IframeSrcLineSplit(k1, z1);
    IframeSrcLineSplit(k2, z2);
    CancelPrefix("            src=\"" + EmbedViewer + FileAddress, k1 + ("\"" + z1), k2 + ("\"" + z2));
    KeyBeforeDelimiterUnique(k1, "\"" + z1, k2, "\"" + z2);
    var w := "\n" + tail;
    var y1 := "\n" + (body + ("\n" + (FileKeyLine(k1) + ("\n" + (EmbedUrlLine(k1) + "\n")))));
    CancelPrefix("\"", z1, z2);
    CancelPrefix("\n", body + ("\n" + (FileKeyLine(k1) + ("\n" + (EmbedUrlLine(k1) + ("\n" + (ExportDateLine(d1) + w)))))),
                        body + ("\n" + (FileKeyLine(k1) + ("\n" + (EmbedUrlLine(k1) + ("\n" + (ExportDateLine(d2) + w)))))));
    CancelPrefix(body, "\n" + (FileKeyLine(k1) + ("\n" + (EmbedUrlLine(k1) + ("\n" + (ExportDateLine(d1) + w))))),
                       "\n" + (FileKeyLine(k1) + ("\n" + (EmbedUrlLine(k1) + ("\n" + (ExportDateLine(d2) + w))))));
    CancelPrefix("\n", FileKeyLine(k1) + ("\n" + (EmbedUrlLine(k1) + ("\n" + (ExportDateLine(d1) + w)))),
                        FileKeyLine(k1) + ("\n" + (EmbedUrlLine(k1) + ("\n" + (ExportDateLine(d2) + w)))));
    CancelPrefix(FileKeyLine(k1), "\n" + (EmbedUrlLine(k1) + ("\n" + (ExportDateLine(d1) + w))),
                                  "\n" + (EmbedUrlLine(k1) + ("\n" + (ExportDateLine(d2) + w))));
    CancelPrefix("\n", EmbedUrlLine(k1) + ("\n" + (ExportDateLine(d1) + w)),
                        EmbedUrlLine(k1) + ("\n" + (ExportDateLine(d2) + w)));
    CancelPrefix(EmbedUrlLine(k1), "\n" + (ExportDateLine(d1) + w), "\n" + (ExportDateLine(d2) + w));
    CancelPrefix("\n", ExportDateLine(d1) + w, ExportDateLine(d2) + w);
    CancelSuffix(ExportDateLine(d1), ExportDateLine(d2), w);
    assert ExportDateLine(d1) == (DetailIndent + "<p><strong>Export Date:</strong> ") + (d1 + "</p>");
    assert ExportDateLine(d2) == (DetailIndent + "<p><strong>Export Date:</strong> ") + (d2 + "</p>");
    CancelPrefix(DetailIndent + "<p><strong>Export Date:</strong> ", d1 + "</p>", d2 + "</p>");
    CancelSuffix(d1, d2, "</p>");
  }

  /**
   * The exported page determines both the key and the export date it was
   * made from, for every key that extraction can produce.
   */
  lemma TemplateDeterminesInputs(k1: string, d1: string, k2: string, d2: string)
    requires IsFileKey(k1) && IsFileKey(k2)
    requires CreateHTMLTemplate(k1, d1) == CreateHTMLTemplate(k2, d2)
    ensures k1 == k2 && d1 == d2
  {
    FillTemplateDeterminesInputs(TemplateHead, TemplateBody, TemplateTail, k1, d1, k2, d2);
  }
}
