/**
 * The fetch command (fetcher.ts): run configuration, link dispatch, the per-link
 * success or failure line, and the metadata counts.
 */
module Fetcher {
  import opened Wrappers
  import opened Log
  import opened Fetch

  const MinutesToMillis: real := 60000.0

  // `defaultValues`
  const DefaultAppTimeout: real := 5.0
  const MaxAppTimeout: real := 10.0
  const DefaultLinksLimited: bool := true
  const DefaultMaxLinks: nat := 5
  const DefaultShowMetadata: bool := false

  /** A JavaScript number, as `Number(...)` produces it. */
  datatype JsNumber = NaN | PosInfinity | NegInfinity | Finite(value: real)

  /**
   * The `setMaxTimeout` option as the constructor sees it: whether the raw value is
   * truthy, and what `Number(...)` makes of it. An absent option is falsy.
   */
  datatype TimeoutArg = TimeoutArg(truthy: bool, number: JsNumber)

  const TimeoutUnset: TimeoutArg := TimeoutArg(false, NaN)

  /** A flag option: the literal `true`, some other truthy or falsy value, or absent. */
  datatype JsFlag = Unset | LiteralTrue | OtherTruthy | OtherFalsy

  predicate Truthy(f: JsFlag) {
    f == LiteralTrue || f == OtherTruthy
  }

  /** `CommandOptions`; an omitted options bag is `NoOptions`. */
  datatype CommandOptions = CommandOptions(metadata: JsFlag, overrideMaxLinks: JsFlag, setMaxTimeout: TimeoutArg)

  const NoOptions: CommandOptions := CommandOptions(Unset, Unset, TimeoutUnset)

  /** The two reasons construction ends the process with exit code 1. */
  datatype ConfigError = InvalidTimeout(given: JsNumber) | TooManyLinks

  /** `isNaN(t) || t <= 0 || t > maxAppTimeout`; +Infinity is above the bound, -Infinity below zero. */
  predicate TimeoutOutOfRange(t: JsNumber) {
    match t
    case NaN => true
    case PosInfinity => true
    case NegInfinity => true
    case Finite(v) => v <= 0.0 || v > MaxAppTimeout
  }

  /** The error construction stops with for `linkCount` links, if any: the timeout is checked first. */
  function StartupError(linkCount: nat, options: CommandOptions): Option<ConfigError> {
    if options.setMaxTimeout.truthy && TimeoutOutOfRange(options.setMaxTimeout.number) then
      Some(InvalidTimeout(options.setMaxTimeout.number))
    else if linkCount > DefaultMaxLinks && options.overrideMaxLinks != LiteralTrue then
      Some(TooManyLinks)
    else
      None
  }

  /** The run's timeout in minutes: the given value when it was truthy, the default otherwise. */
  function ConfiguredTimeout(arg: TimeoutArg): real {
    if arg.truthy && arg.number.Finite? then arg.number.value else DefaultAppTimeout
  }

  /** A truthy timeout argument is refused exactly when it is NaN, at most 0 or above 10. */
  lemma TimeoutRange(linkCount: nat, options: CommandOptions)
    requires options.setMaxTimeout.truthy
    ensures StartupError(linkCount, options) == Some(InvalidTimeout(options.setMaxTimeout.number)) <==>
      match options.setMaxTimeout.number
      case Finite(v) => v <= 0.0 || v > 10.0
      case _ => true
  {
  }

  /** A falsy timeout argument (absent, or the number 0) is never refused and leaves 5 minutes. */
  lemma FalsyTimeoutKeepsDefault(linkCount: nat, options: CommandOptions)
    requires !options.setMaxTimeout.truthy
    ensures StartupError(linkCount, options) != Some(InvalidTimeout(options.setMaxTimeout.number))
    ensures ConfiguredTimeout(options.setMaxTimeout) == 5.0
  {
  }

  /** A bad timeout is what is reported, however many links there are. */
  lemma TimeoutCheckedBeforeLinkLimit(linkCount: nat, options: CommandOptions)
    requires options.setMaxTimeout.truthy && TimeoutOutOfRange(options.setMaxTimeout.number)
    ensures StartupError(linkCount, options) == Some(InvalidTimeout(options.setMaxTimeout.number))
  {
  }

  /** With an acceptable timeout, construction fails exactly for more than 5 links without the literal `true` override. */
  lemma LinkLimit(linkCount: nat, options: CommandOptions)
    requires !(options.setMaxTimeout.truthy && TimeoutOutOfRange(options.setMaxTimeout.number))
    ensures StartupError(linkCount, options).Some? <==> linkCount > 5 && options.overrideMaxLinks != LiteralTrue
    ensures StartupError(linkCount, options).Some? ==> StartupError(linkCount, options) == Some(TooManyLinks)
    ensures options.overrideMaxLinks == LiteralTrue ==> StartupError(linkCount, options) == None
    ensures linkCount <= 5 ==> StartupError(linkCount, options) == None
  {
  }

  /** An element of the parsed page: its tag name and its attributes. */
  datatype Element = Element(tag: string, attributes: map<string, string>)

  /** An `<a>` whose `href` is present, non-empty and starts with "http://" or "https://". */
  predicate IsAbsoluteLink(e: Element) {
    e.tag == "a" && "href" in e.attributes &&
    var href := e.attributes["href"];
    href != "" && ("http://" <= href || "https://" <= href)
  }

  /** An `<img>` whose `src` is present and non-empty. */
  predicate IsImageWithSource(e: Element) {
    e.tag == "img" && "src" in e.attributes && e.attributes["src"] != ""
  }

  function LinkCount(doc: seq<Element>): nat {
    if doc == [] then 0
    else LinkCount(doc[..|doc| - 1]) + (if IsAbsoluteLink(doc[|doc| - 1]) then 1 else 0)
  }

  function ImageCount(doc: seq<Element>): nat {
    if doc == [] then 0
    else ImageCount(doc[..|doc| - 1]) + (if IsImageWithSource(doc[|doc| - 1]) then 1 else 0)
  }

  /** How many elements of `doc` have tag `tag`. */
  function TagCount(doc: seq<Element>, tag: string): nat {
    if doc == [] then 0
    else TagCount(doc[..|doc| - 1], tag) + (if doc[|doc| - 1].tag == tag then 1 else 0)
  }

  /** The counts of two consecutive parts of a page add up. */
  lemma {:induction false} CountsAppend(a: seq<Element>, b: seq<Element>)
    ensures LinkCount(a + b) == LinkCount(a) + LinkCount(b)
    ensures ImageCount(a + b) == ImageCount(a) + ImageCount(b)
  {
    if b == [] {
      assert a + b == a;
    } else {
      var n := |b| - 1;
      CountsAppend(a, b[..n]);
      assert (a + b)[..|a + b| - 1] == a + b[..n];
    }
  }

  /** Only anchors are counted as links and only images as images. */
  lemma {:induction false} CountsBounded(doc: seq<Element>)
    ensures LinkCount(doc) <= TagCount(doc, "a")
    ensures ImageCount(doc) <= TagCount(doc, "img")
  {
    if doc != [] {
      CountsBounded(doc[..|doc| - 1]);
    }
  }

  /** An absolute link and a relative one, then an image with a source: one link, one image. */
  lemma CountsExample()
    ensures var doc := [Element("a", map["href" := "http://x.com"]),
                        Element("a", map["href" := "/rel"]),
                        Element("img", map["src" := "y.png"])];
      LinkCount(doc) == 1 && ImageCount(doc) == 1
  {
    var doc := [Element("a", map["href" := "http://x.com"]),
                Element("a", map["href" := "/rel"]),
                Element("img", map["src" := "y.png"])];
    assert "http://" <= "http://x.com";
    assert !("http://" <= "/rel") && !("https://" <= "/rel");
    assert doc[..1][..0] == [] && doc[..2][..1] == doc[..1] && doc[..|doc| - 1] == doc[..2];
    assert LinkCount(doc[..1]) == 1 && ImageCount(doc[..1]) == 0;
    assert LinkCount(doc[..2]) == 1 && ImageCount(doc[..2]) == 0;
  }

  function DigitChar(d: nat): (c: char)
    requires d < 10
    ensures '0' <= c <= '9' && c as int - '0' as int == d
  {
    ('0' as int + d) as char
  }

  predicate IsDigits(s: string) {
    forall i :: 0 <= i < |s| ==> '0' <= s[i] <= '9'
  }

  /** The number a string of decimal digits spells. */
  function DecimalValue(s: string): nat
    requires IsDigits(s)
  {
    if s == [] then 0 else DecimalValue(s[..|s| - 1]) * 10 + (s[|s| - 1] as int - '0' as int)
  }

  /** Decimal digits of `n`, as a template string prints an integer. */
  function NatToString(n: nat): (s: string)
    ensures |s| >= 1 && IsDigits(s)
  {
    if n < 10 then [DigitChar(n)] else NatToString(n / 10) + [DigitChar(n % 10)]
  }

  /** The printed count reads back as the count: the digits spell `n` in decimal. */
  lemma {:induction false} NatToStringValue(n: nat)
    ensures DecimalValue(NatToString(n)) == n
  {
    var s := NatToString(n);
    if n < 10 {
      assert s[..0] == [];
    } else {
      NatToStringValue(n / 10);
      assert s[..|s| - 1] == NatToString(n / 10);
    }
  }

  /** The metadata sentence for a page with the given counts. */
  function MetadataMessage(url: string, timestamp: string, linkCount: nat, imageCount: nat): string {
    "Visited page of " + url + " at " + timestamp + " with num_of_links: " + NatToString(linkCount) +
    ", num_of_images: " + NatToString(imageCount) + ","
  }

  /** How the file writer's answer is printed: its path, or "null" when the write failed. */
  function StoredAs(path: Option<string>): string {
    match path
    case Some(p) => p
    case None => "null"
  }

  /** The error line for a link that does not parse as a URL. */
  function InvalidLinkMessage(link: string): string {
    ColorizeLog("[ERR] Invalid link: '" + link + "'. Please use the protocol of either 'http' or 'https'", Error)
  }

  /** The links that parse, in input order. */
  function ValidLinks(parse: string -> Option<Url>, links: seq<string>): seq<string> {
    if links == [] then []
    else ValidLinks(parse, links[..|links| - 1]) +
         (if IsValidUrl(parse, links[|links| - 1]) then [links[|links| - 1]] else [])
  }

  /** The links that do not parse, in input order. */
  function InvalidLinks(parse: string -> Option<Url>, links: seq<string>): seq<string> {
    if links == [] then []
    else InvalidLinks(parse, links[..|links| - 1]) +
         (if IsValidUrl(parse, links[|links| - 1]) then [] else [links[|links| - 1]])
  }

  /** Every link goes to exactly one side, the one its validity says. */
  lemma {:induction false} LinksPartition(parse: string -> Option<Url>, links: seq<string>)
    ensures |ValidLinks(parse, links)| + |InvalidLinks(parse, links)| == |links|
    ensures multiset(ValidLinks(parse, links)) + multiset(InvalidLinks(parse, links)) == multiset(links)
    ensures forall l :: l in ValidLinks(parse, links) ==> l in links && IsValidUrl(parse, l)
    ensures forall l :: l in InvalidLinks(parse, links) ==> l in links && !IsValidUrl(parse, l)
    ensures forall l :: l in links ==> (l in ValidLinks(parse, links) <==> IsValidUrl(parse, l))
    ensures forall l :: l in links ==> (l in InvalidLinks(parse, links) <==> !IsValidUrl(parse, l))
  {
    if links != [] {
      var init := links[..|links| - 1];
      var last := links[|links| - 1];
      LinksPartition(parse, init);
      assert links == init + [last];
      assert forall l :: l in links ==> l in init || l == last;
    }
  }

  /** The split respects the order of the input: splitting a concatenation concatenates the splits. */
  lemma {:induction false} LinksSplitAppend(parse: string -> Option<Url>, a: seq<string>, b: seq<string>)
    ensures ValidLinks(parse, a + b) == ValidLinks(parse, a) + ValidLinks(parse, b)
    ensures InvalidLinks(parse, a + b) == InvalidLinks(parse, a) + InvalidLinks(parse, b)
  {
    if b == [] {
      assert a + b == a;
    } else {
      var n := |b| - 1;
      LinksSplitAppend(parse, a, b[..n]);
      assert (a + b)[..|a + b| - 1] == a + b[..n];
    }
  }

  /** A file write a task performs: the page of `url` stored under its domain's name. */
  datatype FileWrite = FileWrite(url: string, html: string)

  /** A console line: `console.log` writes to standard output, `console.error` to standard error. */
  datatype LogLine = Stdout(text: string) | Stderr(text: string)

  class FetchCommand {
    var links: seq<string>
    var appTimeout: real
    var maxLinks: nat
    var linksLimited: bool
    var showMetadata: bool

    /** What construction guarantees: an in-range timeout, the cap of 5, and the cap respected unless lifted. */
    ghost predicate Valid()
      reads this
    {
      0.0 < appTimeout <= MaxAppTimeout && maxLinks == DefaultMaxLinks &&
      (linksLimited ==> |links| <= maxLinks)
    }

    /** The first five assignments of the constructor: the links and the defaults. */
    constructor (links: seq<string>)
      ensures this.links == links
      ensures appTimeout == 5.0 && maxLinks == 5 && linksLimited && !showMetadata
    {
      this.links := links;
      appTimeout := DefaultAppTimeout;
      maxLinks := DefaultMaxLinks;
      linksLimited := DefaultLinksLimited;
      showMetadata := DefaultShowMetadata;
    }

    /** `new FetchCommand(links, options)`, with `process.exit(1)` as a `Failure`. */
    static method Create(links: seq<string>, options: CommandOptions) returns (r: Result<FetchCommand, ConfigError>)
      ensures r.Failure? <==> StartupError(|links|, options).Some?
      ensures r.Failure? ==> StartupError(|links|, options) == Some(r.error)
      ensures r.Success? ==> fresh(r.value) && r.value.Valid()
      ensures r.Success? ==>
        r.value.links == links &&
        r.value.appTimeout == ConfiguredTimeout(options.setMaxTimeout) &&
        r.value.maxLinks == DefaultMaxLinks &&
        r.value.linksLimited == (options.overrideMaxLinks != LiteralTrue) &&
        r.value.showMetadata == Truthy(options.metadata)
    {
      var command := new FetchCommand(links);
      if options.setMaxTimeout.truthy {
        var maxTimeout := options.setMaxTimeout.number;
        if TimeoutOutOfRange(maxTimeout) {
          return Failure(InvalidTimeout(maxTimeout));
        }
        command.appTimeout := maxTimeout.value;
      }
      if Truthy(options.overrideMaxLinks) {
        if options.overrideMaxLinks == LiteralTrue {
          command.linksLimited := false;
        }
      }
      if |links| > command.maxLinks && command.linksLimited {
        return Failure(TooManyLinks);
      }
      if Truthy(options.metadata) {
        command.showMetadata := true;
      }
      return Success(command);
    }

    /**
     * The synchronous part of `execute`: the deadline of the global timer, the links that
     * get a fetch task (in the order the tasks are started) and the error lines for the rest.
     */
    method Execute(parse: string -> Option<Url>) returns (deadlineMs: real, tasks: seq<string>, errorLines: seq<string>)
      requires Valid()
      ensures deadlineMs == appTimeout * MinutesToMillis
      ensures 0.0 < deadlineMs <= 600000.0
      ensures tasks == ValidLinks(parse, links)
      ensures |errorLines| == |InvalidLinks(parse, links)|
      ensures forall k :: 0 <= k < |errorLines| ==> errorLines[k] == InvalidLinkMessage(InvalidLinks(parse, links)[k])
      ensures |tasks| + |errorLines| == |links|
    {
      deadlineMs := (if appTimeout == 0.0 then DefaultAppTimeout else appTimeout) * MinutesToMillis;
      tasks, errorLines := [], [];
      for i := 0 to |links|
        invariant tasks == ValidLinks(parse, links[..i])
        invariant |errorLines| == |InvalidLinks(parse, links[..i])|
        invariant forall k :: 0 <= k < |errorLines| ==>
          errorLines[k] == InvalidLinkMessage(InvalidLinks(parse, links[..i])[k])
      {
        var link := links[i];
        assert links[..i + 1][..i] == links[..i];
        if IsValidUrl(parse, link) {
          tasks := tasks + [link];
        } else {
          errorLines := errorLines + [InvalidLinkMessage(link)];
        }
      }
      assert links[..|links|] == links;
      LinksPartition(parse, links);
    }

    /** `buildMetadataMessage` on the parsed page `doc`, at time `timestamp`. */
    method BuildMetadataMessage(url: string, doc: seq<Element>, timestamp: string) returns (message: string)
      ensures message == MetadataMessage(url, timestamp, LinkCount(doc), ImageCount(doc))
    {
      var linkCount: nat := 0;
      for i := 0 to |doc|
        invariant linkCount == LinkCount(doc[..i])
      {
        assert doc[..i + 1][..i] == doc[..i];
        if IsAbsoluteLink(doc[i]) {
          linkCount := linkCount + 1;
        }
      }
      var imageCount: nat := 0;
      for i := 0 to |doc|
        invariant imageCount == ImageCount(doc[..i])
      {
        assert doc[..i + 1][..i] == doc[..i];
        if IsImageWithSource(doc[i]) {
          imageCount := imageCount + 1;
        }
      }
      assert doc[..|doc|] == doc;
      message := MetadataMessage(url, timestamp, linkCount, imageCount);
    }

    /**
     * `buildOutputMessage`: the page is always handed to the file writer, whose answer
     * `storedPath` ends the message; `parseHtml` stands for the HTML parser.
     */
    method BuildOutputMessage(url: string, html: string, parseHtml: string -> seq<Element>,
                              timestamp: string, storedPath: Option<string>)
      returns (message: string, written: FileWrite)
      ensures written == FileWrite(url, html)
      ensures !showMetadata ==> message == "Success for " + url + " HTML content stored as " + StoredAs(storedPath)
      ensures showMetadata ==>
        message == MetadataMessage(url, timestamp, LinkCount(parseHtml(html)), ImageCount(parseHtml(html))) +
                   " HTML content stored as " + StoredAs(storedPath)
    {
      message := "";
      if showMetadata {
        message := BuildMetadataMessage(url, parseHtml(html), timestamp);
      } else {
        message := "Success for " + url;
      }
      written := FileWrite(url, html);
      message := message + " HTML content stored as " + StoredAs(storedPath);
    }

    /**
     * `showResult`: the line the task itself logs (the failure line or the success line)
     * and the file write it performs if any. Lines logged inside the fetch and the file
     * writer are not among them.
     */
    method ShowResult(url: string, response: HttpResponseData, parseHtml: string -> seq<Element>,
                      timestamp: string, storedPath: Option<string>)
      returns (line: LogLine, written: Option<FileWrite>)
      requires WellFormed(response)
      ensures !response.valid <==> written == None
      ensures !response.valid ==> line == Stderr(ColorizeLog("[ERR] Failed to fetch content for " + url, Error))
      ensures response.valid ==> written == Some(FileWrite(url, response.body.value)) && line.Stdout?
      ensures response.valid && !showMetadata ==>
        line == Stdout(ColorizeLog("Success for " + url + " HTML content stored as " + StoredAs(storedPath)))
      ensures response.valid && showMetadata ==>
        var doc := parseHtml(response.body.value);
        line == Stdout(ColorizeLog(MetadataMessage(url, timestamp, LinkCount(doc), ImageCount(doc)) +
                                   " HTML content stored as " + StoredAs(storedPath)))
    {
      if !response.valid {
        return Stderr(ColorizeLog("[ERR] Failed to fetch content for " + url, Error)), None;
      }
      var html := response.body.value;
      var outputMessage, write := BuildOutputMessage(url, html, parseHtml, timestamp, storedPath);
      line, written := Stdout(ColorizeLog(outputMessage)), Some(write);
    }
  }
}
