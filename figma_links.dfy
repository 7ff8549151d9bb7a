/**
 * The two helpers of the converter page (app/page.tsx) that turn a design's
 * address into its key and back into an embeddable address:
 * `extractFileKey` and `generateEmbedUrl`. The API route repeats both.
 */
module FigmaLinks {
  import opened Wrappers
  import opened FigmaUrlPattern
  import opened Text

  /**
   * `extractFileKey`: capture group 1 of the leftmost match, or `""` when
   * the URL does not match (`match ? match[1] : ''`).
   */
  function ExtractFileKey(url: string): (key: string)
    ensures key == "" <==> !HasMatch(url)
    ensures key != "" ==> IsFileKey(key)
    ensures key != "" ==> exists i: nat :: IsLeftmostMatch(url, RegexMatch(i, key))
  {
    match Match(url)
    case None => ""
    case Some(m) => m.group
  }

  /** A non-empty key follows the marker somewhere in the URL. */
  lemma ExtractFileKeyOccurs(url: string)
    requires ExtractFileKey(url) != ""
    ensures Occurs(url, Marker + ExtractFileKey(url))
  {
    var key := ExtractFileKey(url);
    var i: nat :| IsLeftmostMatch(url, RegexMatch(i, key));
    assert url[i..i + |Marker|] == Marker;
    assert url[i + |Marker|..i + |Marker| + |key|] == key;
    assert url[i..i + |Marker + key|] == Marker + key;
    assert OccursAt(url, Marker + key, i);
  }

  /**
   * The key comes from the leftmost index where the pattern matches, and it
   * is maximal: what follows it is the end of the URL or not a letter or digit.
   */
  lemma ExtractFileKeyLeftmostMaximal(url: string, i: nat)
    requires MatchStartsAt(url, i)
    requires forall j: nat :: j < i ==> !MatchStartsAt(url, j)
    ensures var key := ExtractFileKey(url);
      var end := i + |Marker| + |key|;
      && IsFileKey(key)
      && end <= |url|
      && url[i + |Marker|..end] == key
      && (end == |url| || !IsAsciiAlnum(url[end]))
  {
    var m := Match(url).value;
    assert m.index == i by {
      assert !(m.index < i);
      assert !(i < m.index);
    }
  }

  /**
   * After a host part without any `f`, the marker and a key, the key is
   * extracted whatever follows, provided it is not a letter or digit.
   */
  lemma ExtractFileKeyAfterHost(host: string, key: string, rest: string)
    requires 'f' !in host
    requires IsFileKey(key)
    requires rest == [] || !IsAsciiAlnum(rest[0])
    ensures ExtractFileKey(host + Marker + key + rest) == key
  {
    assert host + Marker + key + rest == host + (Marker + key + rest);
    NoMatchStartsIn(host, Marker + key + rest);
    MatchAfterPrefix(host, key, rest);
  }

  lemma ExampleFileUrl()
    ensures ExtractFileKey("https://www.figma.com/file/ABC123/My-Design") == "ABC123"
  {
    assert "https://www.figma.com/file/ABC123/My-Design" == "https://www." + Marker + "ABC123" + "/My-Design";
    ExtractFileKeyAfterHost("https://www.", "ABC123", "/My-Design");
  }

  /** `_` ends a key: it is outside `[a-zA-Z0-9]`. */
  lemma ExampleUnderscoreEndsKey()
    ensures ExtractFileKey("https://www.figma.com/file/ABC_123/x") == "ABC"
  {
    assert "https://www.figma.com/file/ABC_123/x" == "https://www." + Marker + "ABC" + "_123/x";
    ExtractFileKeyAfterHost("https://www.", "ABC", "_123/x");
  }

  /** `-` ends a key, and the `www.` part of the host is not needed. */
  lemma ExampleHyphenEndsKey()
    ensures ExtractFileKey("https://figma.com/file/Ab9-x") == "Ab9"
  {
    assert "https://figma.com/file/Ab9-x" == "https://" + Marker + "Ab9" + "-x";
    ExtractFileKeyAfterHost("https://", "Ab9", "-x");
  }

  /** A query string ends a key. */
  lemma ExampleQueryEndsKey()
    ensures ExtractFileKey("https://www.figma.com/file/XyZ?node-id=1") == "XyZ"
  {
    assert "https://www.figma.com/file/XyZ?node-id=1" == "https://www." + Marker + "XyZ" + "?node-id=1";
    ExtractFileKeyAfterHost("https://www.", "XyZ", "?node-id=1");
  }

  /** A `/design/` URL has no `figma.com/file/` segment, so it yields no key. */
  lemma DesignUrlYieldsNoKey()
    ensures ExtractFileKey("https://www.figma.com/design/ABC/x") == ""
  {
    NoMatchWithoutMarkerChar("https://www.figma.com/design/ABC/x", 'l');
  }

  /** Matching is case-sensitive: `Figma.com/File/` is not the marker. */
  lemma UpperCaseUrlYieldsNoKey()
    ensures ExtractFileKey("https://www.Figma.com/File/ABC123/x") == ""
  {
    NoMatchWithoutMarkerChar("https://www.Figma.com/File/ABC123/x", 'f');
  }

  /** The scheme and `www.` part that both Figma addresses begin with. */
  const WwwPrefix: string := "https://www."

  /** The path and query of the Figma embed viewer, up to the value of its `url` parameter. */
  const ViewerPath: string := "figma.com/embed?embed_host=share&url="

  /** The Figma embed viewer's address, up to the value of its `url` parameter. */
  const EmbedViewer: string := WwwPrefix + ViewerPath

  /** The `/file/` address of a design, up to its key: `https://www.figma.com/file/`. */
  const FileAddress: string := WwwPrefix + Marker

  /**
   * `generateEmbedUrl`: the viewer address, then the `/file/` address of the
   * key (written in the page as one template literal).
   */
  function GenerateEmbedUrl(fileKey: string): (url: string)
  {
    EmbedViewer + FileAddress + fileKey
  }

  /**
   * The embed URL begins with the viewer address, and the rest, the value of
   * its `url` parameter, is always the `/file/` form of the key.
   */
  lemma EmbedUrlTargetsFileForm(fileKey: string)
    ensures |EmbedViewer| <= |GenerateEmbedUrl(fileKey)|
    ensures GenerateEmbedUrl(fileKey)[..|EmbedViewer|] == "https://www.figma.com/embed?embed_host=share&url="
    ensures GenerateEmbedUrl(fileKey)[|EmbedViewer|..] == "https://www.figma.com/file/" + fileKey
  {
    EmbedViewerIsLiteral();
    assert FileAddress == "https://www.figma.com/file/";
    assert GenerateEmbedUrl(fileKey) == EmbedViewer + (FileAddress + fileKey);
  }

  lemma EmbedViewerIsLiteral()
    ensures EmbedViewer == "https://www.figma.com/embed?embed_host=share&url="
  {
  }

  /** The viewer path has one `f`, its first character. */
  lemma ViewerPathHasOneF()
    ensures ViewerPath[0] == 'f'
    ensures forall i :: 1 <= i < |ViewerPath| ==> ViewerPath[i] != 'f'
  {
  }

  lemma WwwPrefixHasNoF()
    ensures forall i :: 0 <= i < |WwwPrefix| ==> WwwPrefix[i] != 'f'
  {
  }

  /**
   * The shape of an embed URL: text without `f`, then text whose only `f` is
   * its first character, then text without `f`, the marker and a key. Its
   * leftmost match is the marker before the key.
   */
  lemma MatchAfterViewer(a: string, v: string, w: string, key: string)
    requires 'f' !in a && 'f' !in w
    requires v != [] && v[0] == 'f'
    requires forall i :: 1 <= i < |v| ==> v[i] != 'f'
    requires |v| - 1 + |w| >= 10
    requires IsFileKey(key)
    ensures Match(a + v + (w + Marker) + key) == Some(RegexMatch(|a| + |v| + |w|, key))
  {
    var b := v[1..] + w;
    assert 'f' !in b by {
      assert forall i :: 0 <= i < |b| ==> b[i] != 'f' by {
        assert forall i :: 0 <= i < |v| - 1 ==> b[i] == v[i + 1];
        assert forall i :: |v| - 1 <= i < |b| ==> b[i] == w[i - (|v| - 1)];
      }
    }
    var prefix := a + [v[0]] + b;
    assert prefix == a + "f" + b;
    assert |prefix| == |a| + |v| + |w|;
    SplitAfterFirst(a, v, w, Marker, key);
    NoMatchStartsAroundOneF(a, b, Marker + key + []);
    MatchAfterPrefix(prefix, key, []);
  }

  /**
   * Extracting the key from the embed URL gives the key back: the
   * `figma.com/embed` text before it is no match, and nothing follows it.
   */
  lemma EmbedUrlRoundTrip(fileKey: string)
    requires IsFileKey(fileKey)
    ensures ExtractFileKey(GenerateEmbedUrl(fileKey)) == fileKey
  {
    ViewerPathHasOneF();
    WwwPrefixHasNoF();
    MatchAfterViewer(WwwPrefix, ViewerPath, WwwPrefix, fileKey);
  }

  /** Different keys give different embed URLs. */
  lemma EmbedUrlInjective(k1: string, k2: string)
    requires GenerateEmbedUrl(k1) == GenerateEmbedUrl(k2)
    ensures k1 == k2
  {
    assert k1 == GenerateEmbedUrl(k1)[|EmbedViewer + FileAddress|..];
    assert k2 == GenerateEmbedUrl(k2)[|EmbedViewer + FileAddress|..];
  }

  /** `src="<url>"`: an HTML `src` attribute holding `url`. */
  function SrcAttribute(url: string): string
  {
    "src=\"" + url + "\""
  }
}
