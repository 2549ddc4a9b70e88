# fetcher, modelled in Dafny

`fetcher` is a command-line tool. It takes up to five web page URLs (more with `--override-max-links`) and fetches each page with axios. It retries transport failures with exponential backoff. It stores the HTML in a file named after the domain. For each link it prints a coloured error line (invalid link, failed fetch) or a success line, which with `--metadata` also gives the number of absolute links and images on the page. Retry notices and file-write errors are printed besides. The whole run is bounded by a global timeout of more than 0 and at most 10 minutes (default 5).

This project models the deterministic core of that pipeline. Every foreign call becomes an input:

- `new URL(...)` is a parameter `parse: string -> Option<Url>`.
- The network is the sequence of outcomes of successive GET requests.
- cheerio is a parameter `parseHtml: string -> seq<Element>`.
- The clock is a `timestamp` string.
- The file writer's answer is a `storedPath: Option<string>`.

Modules, one per source file:

- `Log` (utils/log.ts): `ColorizeLog`, the colour table and the reset code.
- `Fetch` (utils/fetch.ts): `CheckHttpResponse`, a method whose while loop is the recursive retry closure, with its shared counter `currentRetry`. Also `IsValidUrl` and `GetDomainName`.
- `Fetcher` (fetcher.ts): the class `FetchCommand`. `Create` is the constructor, with `process.exit(1)` modelled as a `Failure`. `Execute` splits the links into fetch tasks and error lines. `ShowResult`, `BuildOutputMessage` and `BuildMetadataMessage` produce the line a task logs itself and its file write. The counting rules are the functions `LinkCount` and `ImageCount` and the lemmas about them.
- `Wrappers`: `Option` and `Result`.

Points where the code differs from what its messages or help text suggest (the model follows the code):

- `isValidURL` accepts any URL that parses, whatever its scheme. The error text "Please use the protocol of either 'http' or 'https'" is never enforced: `ftp://host` gets a fetch task (`IsValidUrl` looks only at whether parsing succeeds).
- The timeout check accepts every number in (0, 10], so 0.5 minutes is accepted. A falsy value (absent, or the number 0) is not checked at all and leaves the default of 5.
- Only the literal `true` lifts the link cap. Other truthy values of `overrideMaxLinks` do not.
- `axios.get(url)` is called with axios's default status check, which treats every status outside 2xx as an error. So in the running program a 404 or 500 is thrown and retried like a network failure, and the `status < 400` test only ever sees 2xx responses. The model keeps both possibilities as inputs: a 4xx/5xx that arrives as a `Response` is final with `valid = false`, one that arrives as a `Throw` is retried.
- A write that fails makes the writer return `null`. The success line then ends with "stored as null" (`StoredAs`).

## Model

| member | source | states |
|---|---|---|
| `Log.Color` | utils/log.ts:6-9 | Info is ESC "[32m" (green) and Error is ESC "[31m" (red); both prefixes are 5 characters long |
| `Log.ColorizeLog` | utils/log.ts:11-15 | the line is the colour prefix, then the text, then the 4-character reset code; its length is the text's length plus 9 |
| `Log.StripColorizeLog` | utils/log.ts:14 | removing the 5-character prefix and the 4-character suffix recovers the text exactly |
| `Log.ColorizeLogInjective` | utils/log.ts:6-14 | equal coloured lines come from equal texts and equal severities |
| `Log.ColorizeLogDefaultIsInfo` | utils/log.ts:13 | omitting the severity gives the green Info line |
| `Fetch.CheckHttpResponse` | utils/fetch.ts:9-49 | between 1 and max(retryCount, 0) + 1 GETs are made. The first response ends the loop with `valid = status < 400` and its body, so a 4xx/5xx response is not retried. A throw is final only after all retries, and then the result is `{valid: false, body: null}`. Retry k waits 2^k * 1000 ms, and the waits total (2^retries - 1) * 1000 ms. A valid result always carries the body, and the body is null exactly when the retries were exhausted |
| `Fetch.SumOfBackoffs` | utils/fetch.ts:22-31 | the waits 1000, 2000, 4000, ... of n retries add up to (2^n - 1) * 1000 ms |
| `Fetch.ExhaustedRetriesScenario` | utils/fetch.ts:9-45 | six throwing GETs with the default count of 5 give 6 attempts, waits of 1, 2, 4, 8 and 16 s, and `{valid: false, body: null}` |
| `Fetch.ThirdAttemptSucceedsScenario` | utils/fetch.ts:13-31 | two throws and then a 200 give 3 attempts, waits of 1 and 2 s, and a valid result carrying the body |
| `Fetch.IsValidUrl` | utils/fetch.ts:59-66 | true exactly when URL parsing succeeds; nothing else, such as the scheme, is examined |
| `Fetch.StripWww` | utils/fetch.ts:72 | a hostname starting with "www." loses exactly those 4 characters; any other hostname is unchanged |
| `Fetch.GetDomainName` | utils/fetch.ts:68-77 | "" when parsing fails; otherwise the parsed hostname with one leading "www." removed |
| `Fetch.StripWwwIsSuffix` | utils/fetch.ts:72 | the domain is a suffix of the hostname, and prefixing "www." back restores the hostname when it was removed |
| `Fetch.StripWwwOnce` | utils/fetch.ts:72 | only one prefix is removed: "www.www.a" becomes "www.a" |
| `Fetcher.TimeoutRange` | fetcher.ts:42-50 | a truthy timeout is refused exactly when `Number` makes it NaN, at most 0 or above 10 |
| `Fetcher.FalsyTimeoutKeepsDefault` | fetcher.ts:37-50 | a falsy timeout is never refused and the timeout stays at 5 minutes |
| `Fetcher.TimeoutCheckedBeforeLinkLimit` | fetcher.ts:42-62 | a bad timeout is the error reported even when there are also too many links |
| `Fetcher.LinkLimit` | fetcher.ts:52-62 | with an acceptable timeout, construction fails exactly when there are more than 5 links and the override is not literally `true`; 5 links always pass, and any count passes with the override |
| `Fetcher.CountsAppend` | fetcher.ts:131-152 | the link and image counts of two consecutive parts of a page add up |
| `Fetcher.CountsBounded` | fetcher.ts:133-152 | the link count is at most the number of `<a>` elements, and the image count at most the number of `<img>` elements |
| `Fetcher.CountsExample` | fetcher.ts:136-152 | with one absolute and one relative anchor and an image with a `src`, one link and one image are counted |
| `Fetcher.LinksPartition` | fetcher.ts:79-90 | every link lands on the side its validity says: a link of the input is among the dispatched links exactly when it parses and among the reported ones exactly when it does not. The two sides together hold exactly the input links, as a multiset, and number `links.length` |
| `Fetcher.NatToStringValue` | fetcher.ts:154 | the counts printed in the metadata sentence are decimal digits that spell the count exactly |
| `Fetcher.LinksSplitAppend` | fetcher.ts:79-90 | the split keeps input order: splitting a concatenation concatenates the splits |
| `Fetcher.FetchCommand.constructor` | fetcher.ts:35-40 | the links are stored and the defaults are timeout 5, cap 5, cap enforced and metadata off |
| `Fetcher.FetchCommand.Create` | fetcher.ts:35-67 | fails exactly when the timeout is out of range (checked first) or the link cap applies. On success the object is valid, the timeout is the given value or 5, the cap is lifted exactly by a literal `true`, and metadata is on exactly when the flag is truthy |
| `Fetcher.FetchCommand.Execute` | fetcher.ts:69-95 | the deadline is the timeout times 60000 ms, in (0, 600000]. A task is started for each link that parses, in input order. Each other link gets one "Invalid link" error line, in order. Tasks plus error lines equal `links.length` |
| `Fetcher.FetchCommand.BuildMetadataMessage` | fetcher.ts:131-155 | the message reports `LinkCount` and `ImageCount` of the page: links are `<a>` elements with a non-empty `href` starting with "http://" or "https://", and images are `<img>` elements with a non-empty `src` |
| `Fetcher.FetchCommand.BuildOutputMessage` | fetcher.ts:116-129 | the page is always handed to the writer. Without metadata the message is "Success for " + url + " HTML content stored as " + path; with metadata the metadata sentence comes first |
| `Fetcher.FetchCommand.ShowResult` | fetcher.ts:97-114 | the line the task itself logs: an invalid fetch writes no file and logs exactly one red "Failed to fetch content" line; a valid one writes the body and logs one green success line |

## Left out

- Console output inside `checkHttpResponse` is not modelled: the uncoloured "Retrying in n second(s)" line before each retry (utils/fetch.ts:24-28), and the line coloured as Info but written to standard error when the retries run out (utils/fetch.ts:33-40). It is cosmetic; the delays are returned instead of waited on.
- The red "Error writing HTML content to file" line that the file writer logs when a write fails (utils/file.ts:17) is not modelled. A task whose write fails therefore logs two lines, not only the success line `ShowResult` gives.
- The outer `catch` of `checkHttpResponse` (utils/fetch.ts:50-56) is not modelled because it is unreachable: line 49 returns the closure's promise without `await`, so a rejection skips it and reaches the `catch` in `showResult`.
- The `catch` in `showResult` (fetcher.ts:109-113) is not modelled. It handles exceptions from logging, `JSON.stringify` or the HTML parser, which sit outside the modelled inputs.
- Timers and concurrency are not modelled: the global `setTimeout` firing and killing the process, `clearTimeout`, `Promise.allSettled`, and the order in which tasks finish. The tasks are independent, so each is modelled alone by `ShowResult`.
- Whether axios reports a 4xx/5xx as a response or as a thrown error depends on its status validation, which is not part of this model. Both are possible inputs.
- WHATWG URL parsing, cheerio's lenient HTML parsing, `new Date().toString()` and the file system are parameters, because they are foreign code, a clock and I/O.
- utils/file.ts is not part of this model. Its `<domain>.html` naming and the write itself appear only as the recorded `FileWrite` and the writer's answer.
- Fetcher.FetchCommand.Create: returns only the kind of configuration error, not the text of the two fatal messages, whose number formatting is JavaScript's.
- Fetcher.FetchCommand.Create: keeps `Number(setMaxTimeout)` as the timeout instead of the raw value the source stores. The raw value is only ever used through numeric coercion, which gives the same number.
- Fetch.CheckHttpResponse: takes `retryCount` as an integer. A fractional count, which no caller passes, is not modelled.
- The command-line setup with commander and the help output (fetcher.ts:158-193) are library glue.
