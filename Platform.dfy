/** What the audit code receives from outside: HTTP responses, the XML and
    HTML parsers' view of a document, and the tasks it hands to the
    framework's task queue. The network and the parsers are plain functions
    here, so that every operation is deterministic in them. */
module Platform {
  import opened PhpArray

  /** `makeRequest`'s result: the HTTP status and, when asked for, the body. */
  datatype Response = Response(status: int, content: string)

  /** A sitemap `<url>` element, by the text of each `<loc>` inside it. */
  datatype UrlElement = UrlElement(locs: seq<string>)

  /** `DOMDocument::loadXML` either yields the `<url>` elements or throws. */
  datatype SitemapParse = Urls(elements: seq<UrlElement>) | Malformed

  /** The `<head>` elements the audit looks at; `None` when the element is
      absent, the attribute's text (possibly empty) when it is present. */
  datatype Head = Head(
    title: Option<string>,            // <title> inner HTML
    description: Option<string>,      // meta[name="description"] content
    keywords: Option<string>,         // meta[name="keywords"] content
    ogImage: Option<string>,          // meta[property="og:image"] content
    siteVerification: Option<string>) // meta[name="google-site-verification"] content

  /** An `<a>` element: its `href` and `title` attributes, "" when missing. */
  datatype Anchor = Anchor(href: string, title: string)

  /** An HTML page as `HTML5DOMDocument` presents it: the head, the text of
      the body with scripts and tags removed, and every anchor in order. */
  datatype HtmlDoc = HtmlDoc(head: Option<Head>, bodyText: Option<string>, anchors: seq<Anchor>)

  /** The network (`get` fetches with the body, `head` without it) and the parsers. */
  datatype World = World(
    get: string -> Response,
    head: string -> int,
    parseXml: string -> SitemapParse,
    parseHtml: string -> HtmlDoc)

  /** The tasks the audit code queues: `bearcms-audits-initialize`,
      `bearcms-audits-check-page` (with its start time) and
      `bearcms-audits-check-link` (with the task id it is deduplicated by). */
  datatype Task =
    | InitializeTask(auditId: string)
    | CheckPageTask(auditId: string, pageId: string, startTime: int)
    | CheckLinkTask(auditId: string, url: string, taskId: string)

  /** The id a task is queued under, when it has one. */
  function TaskId(t: Task): Option<string> {
    if t.CheckLinkTask? then Some(t.taskId) else None
  }

  const CheckLinkPrefix: string := "bearcms-audits-check-link-"

  /** The check-link task `checkPage` queues for a short URL. */
  function CheckLinkFor(md5: string -> string, id: string, short: string): Task {
    CheckLinkTask(id, short, CheckLinkPrefix + id + "-" + md5(short))
  }
}
