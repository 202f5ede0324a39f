/**
 * The grab command: pick a downloader for a URL. Video-platform links go to
 * yt-dlp, links whose path has an extension and links a HEAD request reports
 * as HTML go to wget, anything else to curl. The HEAD request is outside the
 * model: its response for each URL comes in as `head`.
 */
module Grab {
  import opened GoStd

  /** The response to an HTTP HEAD request: a transport error, or the Content-Type header. */
  datatype HeadResponse = HeadFailed | HeadOk(contentType: string)

  /** isWebPage: the HEAD request succeeded and its Content-Type mentions text/html. */
  function IsWebPage(head: HeadResponse): (r: bool)
    ensures r ==> head.HeadOk? && exists i :: OccursAt(head.contentType, "text/html", i)
    ensures head.HeadOk? && (exists i :: OccursAt(head.contentType, "text/html", i)) ==> r
  {
    if head.HeadFailed? then false
    else
      ContainsIff(head.contentType, "text/html");
      Contains(head.contentType, "text/html")
  }

  predicate IsVideoUrl(url: string) {
    Contains(url, "youtube.com") || Contains(url, "youtu.be") || Contains(url, "tiktok.com")
  }

  /** What the URL was recognised as. */
  datatype Detection = VideoPlatform | FileDownload(ext: string) | WebPage | Unknown

  datatype Plan = Plan(detected: Detection, download: Command)

  function YtDlp(url: string): Command {
    Command("yt-dlp", ["-f", "bestvideo[ext=mp4]+bestaudio[ext=m4a]/best[ext=mp4]",
                       "-o", "~/Downloads/%(title)s.%(ext)s", url])
  }

  function Wget(url: string): Command {
    Command("wget", ["-c", url])
  }

  function Curl(url: string): Command {
    Command("curl", ["-O", url])
  }

  /** downloadFile: one downloader per URL, chosen by the first test that matches. */
  function DownloadFile(url: string, head: string -> HeadResponse): (p: Plan)
    ensures p.download.name in {"yt-dlp", "wget", "curl"}
    ensures |p.download.args| > 0 && p.download.args[|p.download.args| - 1] == url
    ensures IsVideoUrl(url) <==> p.download == YtDlp(url) && p.detected == VideoPlatform
    ensures p.download == Wget(url) <==> !IsVideoUrl(url) && (Ext(url) != "" || IsWebPage(head(url)))
    ensures p.download == Curl(url) <==> !IsVideoUrl(url) && Ext(url) == "" && !IsWebPage(head(url))
    ensures !IsVideoUrl(url) && Ext(url) != "" ==> p.detected == FileDownload(Ext(url))
    // the probe is sent only when neither the host nor the extension decided
    ensures p.detected in {WebPage, Unknown} <==> !IsVideoUrl(url) && Ext(url) == ""
  {
    if IsVideoUrl(url) then Plan(VideoPlatform, YtDlp(url))
    else if Ext(url) != "" then Plan(FileDownload(Ext(url)), Wget(url))
    else if IsWebPage(head(url)) then Plan(WebPage, Wget(url))
    else Plan(Unknown, Curl(url))
  }

  /** When the host or the extension decides, the web-page probe cannot change the choice. */
  lemma ProbeNotConsulted(url: string, head1: string -> HeadResponse, head2: string -> HeadResponse)
    requires IsVideoUrl(url) || Ext(url) != ""
    ensures DownloadFile(url, head1) == DownloadFile(url, head2)
  {
  }

  /** A string lacking one of the pattern's characters cannot contain the pattern. */
  lemma MissingCharNotContained(s: string, pattern: string, j: nat)
    requires j < |pattern|
    requires pattern[j] !in s
    ensures !Contains(s, pattern)
  {
    forall i | 0 <= i <= |s| - |pattern| ensures !OccursAt(s, pattern, i) {
      assert s[i..i + |pattern|][j] == s[i + j];
      assert s[i + j] in s;
    }
    ContainsIff(s, pattern);
  }

  /** A URL without a 'y' and without a 'k' names none of the video hosts. */
  lemma NoVideoHostWithoutYAndK(url: string)
    requires 'y' !in url && 'k' !in url
    ensures !IsVideoUrl(url)
  {
    MissingCharNotContained(url, "youtube.com", 0);
    MissingCharNotContained(url, "youtu.be", 0);
    MissingCharNotContained(url, "tiktok.com", 2);
  }

  /** filepath.Ext reads the top-level domain of a bare host as an extension. */
  lemma BareHostExt()
    ensures Ext("https://example.com") == ".com"
  {
    assert "https://example.com" == "https://example" + "." + "com";
    assert PlainFrom("com", 0);
    ExtOfAppended("https://example", "com");
  }

  /**
   * A bare host name has an extension too: "https://example.com" is taken for
   * a ".com" file and goes to wget without the web-page probe.
   */
  lemma BareHostIsFileDownload(head: string -> HeadResponse)
    ensures DownloadFile("https://example.com", head) == Plan(FileDownload(".com"), Wget("https://example.com"))
  {
    NoVideoHostWithoutYAndK("https://example.com");
    BareHostExt();
  }

  /** A video link with a file extension still goes to yt-dlp. */
  lemma VideoHostBeatsExtension(head: string -> HeadResponse)
    ensures DownloadFile("https://youtu.be/clip.mp4", head).download.name == "yt-dlp"
  {
    var url := "https://youtu.be/clip.mp4";
    assert url == "https://" + "youtu.be" + "/clip.mp4";
    ContainsIff(url, "youtu.be");
    assert OccursAt(url, "youtu.be", 8);
  }
}
