/**
 * The reports view-model (`mvvm/reports/ReportsViewModel`): the report
 * plugins, the selected one, and the HTML shown, in which every image the
 * page refers to by name is inlined as a base64 data URI.
 */
module Reports {
  import opened Wrappers
  import opened JavaText

  /** The identity of a report plugin. */
  type ReportId = nat
  /** The identity of an image of a page. */
  type ImageId = nat

  /** An `HtmlPage`: its HTML and its images by name, in the image map's
      iteration order; `None` is a null map. */
  datatype HtmlPage = HtmlPage(html: string, images: Option<seq<(string, ImageId)>>)

  /** What running a report gives: a page, or an exception with its
      (possibly null) message. */
  datatype ReportOutcome = Page(page: HtmlPage) | Failure(message: Option<string>)

  function DataUri(code: string): string {
    "data:image/png;base64," + code
  }

  /** `src="name"` and `src='name'`. */
  function DoubleQuotedSrc(target: string): string {
    "src=\"" + target + "\""
  }

  function SingleQuotedSrc(target: string): string {
    "src='" + target + "'"
  }

  /** One iteration of the `processHtml` loop: the double-quoted references
      to `name` first, then the single-quoted ones. */
  function ReplaceImage(html: string, name: string, code: string): string {
    var once := ReplaceAll(html, DoubleQuotedSrc(name), DoubleQuotedSrc(DataUri(code)));
    ReplaceAll(once, SingleQuotedSrc(name), SingleQuotedSrc(DataUri(code)))
  }

  /** The HTML after the loop has handled `images`, in order; `encode` is
      `encodeImageToBase64`. */
  function Processed(html: string, images: seq<(string, ImageId)>, encode: ImageId -> string): string {
    if images == [] then html
    else
      var (name, image) := images[|images| - 1];
      ReplaceImage(Processed(html, images[..|images| - 1], encode), name, encode(image))
  }

  /** Neither reference form of the name occurs in the text. */
  ghost predicate Unreferenced(html: string, name: string) {
    (forall i :: !OccursAt(html, DoubleQuotedSrc(name), i))
    && (forall i :: !OccursAt(html, SingleQuotedSrc(name), i))
  }

  /** Images the page never refers to leave its HTML unchanged. */
  lemma {:induction false} UnreferencedImagesChangeNothing(html: string, images: seq<(string, ImageId)>,
                                                           encode: ImageId -> string)
    requires forall k :: 0 <= k < |images| ==> Unreferenced(html, images[k].0)
    ensures Processed(html, images, encode) == html
  {
    if images != [] {
      var (name, image) := images[|images| - 1];
      UnreferencedImagesChangeNothing(html, images[..|images| - 1], encode);
      assert Unreferenced(html, name);
      ReplaceAllAbsent(html, DoubleQuotedSrc(name), DoubleQuotedSrc(DataUri(encode(image))));
      ReplaceAllAbsent(html, SingleQuotedSrc(name), SingleQuotedSrc(DataUri(encode(image))));
    }
  }

  /** A lone double-quoted reference to an image becomes its data URI. */
  lemma DoubleQuotedReferenceInlined(a: string, b: string, name: string, code: string)
    requires forall i :: 0 <= i < |a| ==> !OccursAt(a + DoubleQuotedSrc(name) + b, DoubleQuotedSrc(name), i)
    requires forall i :: !OccursAt(b, DoubleQuotedSrc(name), i)
    requires forall i :: !OccursAt(a + DoubleQuotedSrc(DataUri(code)) + b, SingleQuotedSrc(name), i)
    ensures ReplaceImage(a + DoubleQuotedSrc(name) + b, name, code) == a + DoubleQuotedSrc(DataUri(code)) + b
  {
    var p := DoubleQuotedSrc(name);
    var r := DoubleQuotedSrc(DataUri(code));
    ReplaceAllRewritesFirst(a, b, p, r);
    ReplaceAllAbsent(b, p, r);
    ReplaceAllAbsent(a + r + b, SingleQuotedSrc(name), SingleQuotedSrc(DataUri(code)));
  }

  /** A lone single-quoted reference to an image becomes its data URI. */
  lemma SingleQuotedReferenceInlined(a: string, b: string, name: string, code: string)
    requires forall i :: !OccursAt(a + SingleQuotedSrc(name) + b, DoubleQuotedSrc(name), i)
    requires forall i :: 0 <= i < |a| ==> !OccursAt(a + SingleQuotedSrc(name) + b, SingleQuotedSrc(name), i)
    requires forall i :: !OccursAt(b, SingleQuotedSrc(name), i)
    ensures ReplaceImage(a + SingleQuotedSrc(name) + b, name, code) == a + SingleQuotedSrc(DataUri(code)) + b
  {
    var s := a + SingleQuotedSrc(name) + b;
    ReplaceAllAbsent(s, DoubleQuotedSrc(name), DoubleQuotedSrc(DataUri(code)));
    ReplaceAllRewritesFirst(a, b, SingleQuotedSrc(name), SingleQuotedSrc(DataUri(code)));
    ReplaceAllAbsent(b, SingleQuotedSrc(name), SingleQuotedSrc(DataUri(code)));
  }

  const ErrorPrefix: string := "<html><body><h1>Error generating report</h1><p>"
  const ErrorSuffix: string := "</p></body></html>"

  /** The page shown for a failed report; a null message reads "null". */
  function ErrorPage(message: Option<string>): string {
    ErrorPrefix + message.GetOr("null") + ErrorSuffix
  }

  /** The message between the error page's fixed parts. */
  function ErrorMessage(html: string): string
    requires |ErrorPrefix| + |ErrorSuffix| <= |html|
  {
    html[|ErrorPrefix|..|html| - |ErrorSuffix|]
  }

  /** The error page embeds the message whole: it can be read back. */
  lemma ErrorPageEmbedsMessage(message: Option<string>)
    ensures |ErrorPrefix| + |ErrorSuffix| <= |ErrorPage(message)|
    ensures ErrorMessage(ErrorPage(message)) == message.GetOr("null")
    ensures ErrorPage(message)[..|ErrorPrefix|] == ErrorPrefix
  {
    var m := message.GetOr("null");
    assert (ErrorPrefix + m + ErrorSuffix)[|ErrorPrefix|..|ErrorPrefix| + |m|] == m;
  }

  class ReportsViewModel {
    /** Whether the view-model has a document. */
    const hasDocument: bool
    const encode: ImageId -> string

    var availableReports: seq<ReportId>
    var selectedReport: Option<ReportId>
    var reportHtml: string

    /** The constructor, which runs `loadReports` on the discovered `plugins`. */
    constructor (hasDocument: bool, encode: ImageId -> string, plugins: seq<ReportId>)
      ensures this.hasDocument == hasDocument && this.encode == encode
      ensures availableReports == plugins && reportHtml == ""
      ensures selectedReport == if plugins == [] then None else Some(plugins[0])
    {
      this.hasDocument := hasDocument;
      this.encode := encode;
      availableReports := [];
      selectedReport := None;
      reportHtml := "";
      new;
      LoadReports(plugins);
    }

    /** `loadReports`: the first plugin becomes the selection. */
    method LoadReports(plugins: seq<ReportId>)
      modifies this`availableReports, this`selectedReport
      ensures availableReports == plugins
      ensures plugins != [] ==> selectedReport == Some(plugins[0])
      ensures plugins == [] ==> selectedReport == old(selectedReport)
    {
      availableReports := plugins;
      if availableReports != [] {
        selectedReport := Some(availableReports[0]);
      }
    }

    method SelectReport(r: Option<ReportId>)
      modifies this`selectedReport
      ensures selectedReport == r
    {
      selectedReport := r;
    }

    /** `processHtml`. */
    method ProcessHtml(page: HtmlPage) returns (html: string)
      ensures page.images.Some? ==> html == Processed(page.html, page.images.value, encode)
      ensures page.images.None? || page.images.value == [] ==> html == page.html
    {
      html := page.html;
      if page.images.None? {
        return;
      }
      var images := page.images.value;
      for k := 0 to |images|
        invariant html == Processed(page.html, images[..k], encode)
      {
        var (name, image) := images[k];
        var code := encode(image);
        html := ReplaceAll(html, DoubleQuotedSrc(name), DoubleQuotedSrc(DataUri(code)));
        html := ReplaceAll(html, SingleQuotedSrc(name), SingleQuotedSrc(DataUri(code)));
        assert images[..k + 1][..k] == images[..k];
      }
      assert images[..|images|] == images;
    }

    /** `generateReport`, where `getReport` runs a report plugin over the
        selected date range. */
    method GenerateReport(getReport: ReportId -> ReportOutcome)
      modifies this`reportHtml
      ensures selectedReport.None? || !hasDocument ==> reportHtml == old(reportHtml)
      ensures selectedReport.Some? && hasDocument ==>
        match getReport(selectedReport.value)
        case Page(page) =>
          reportHtml == if page.images.Some? then Processed(page.html, page.images.value, encode) else page.html
        case Failure(message) => reportHtml == ErrorPage(message)
    {
      if selectedReport.None? || !hasDocument {
        return;
      }
      var outcome := getReport(selectedReport.value);
      match outcome {
        case Page(page) =>
          var html := ProcessHtml(page);
          reportHtml := html;
        case Failure(message) =>
          reportHtml := ErrorPrefix + message.GetOr("null") + ErrorSuffix;
      }
    }
  }
}
