# RTF-to-HTML cloud function: a Dafny model of the request handler

The repository is one Google Cloud HTTP function, `func.HelloWorld`. It reads
the `url` query parameter and accepts it only under
`https://scroogexhtml.com/rtf/`. It fetches that document, converts it from
RTF to HTML with the ScroogeXHTML engine using a fixed configuration, and sends
exactly one response back. That response is the converted bytes, a usage page
or an error page.

The model treats the handler as one pure function, `HelloWorld.Service`. It
takes the query-parameter map (absent when the runtime has none) and an `Env`
that holds the collaborators as function values:

- `fetch` gives what `getCurrentRtf` returns: a stream, null, or a thrown object.
- `convert` is the engine, applied to the configuration and the bytes.
- `encode` is UTF-8 encoding.

`Service` returns an `Outcome`. That is either a response (the status that was
set, where `None` means the runtime's default 200, and a text or byte body) or
a throwable that escapes to the runtime. Either way the outcome carries the
ordered trace of side effects: the log line, the fetch attempt, and the engine
call with its configuration and bytes.

Every throwable has a kind, Exception or Error, because the handler's
`catch (Exception e)` catches only exceptions. An `Error` from the fetch or the
engine escapes the handler, for example a stack overflow or running out of
memory.

Files:

- `wrappers.dfy`: `Option`.
- `java_lang.dfy`: the Java behaviour the handler relies on. This is `String.startsWith`, a signed `byte`, the Exception/Error split, `Throwable.toString`, `getMessage` as string concatenation prints it (`"null"` when it is absent), and `new RuntimeException(cause)`.
- `logging.dfy`: SLF4J's one-argument formatting, which puts the argument in the pattern's first `{}`.
- `scrooge.dfy`: the configuration record that `createScrooge` builds (`Scrooge.CreateScrooge`, including the embedded stylesheet) and the outcome of one conversion.
- `hello_world.dfy`: the pages, `getCurrentRtf`, the environment, the response and `service`.
- `pipeline.dfy`: the same handler written as stages with explicit result types: validation, fetch and conversion, then rendering. It includes a proof that the staged version agrees with `Service` on every request.
- `properties.dfy`: lemmas that relate several requests or several parts of the model.

The model follows the code in three places where the intended design reads differently:

- A failed download does not produce the usage page. `getCurrentRtf` wraps the `IOException` in a `RuntimeException`, and the handler's `catch (Exception e)` turns that into status 500 with the *error* page. The page shows the wrapper's message, which is the cause's `toString()`: its class name, `": "`, then its message. The 500-with-usage-page answer comes only from a null stream, and the real `getCurrentRtf` never returns null (`NullStreamUnreachable`).
- If the `url` key is bound to an empty list, `getFirst()` throws `NoSuchElementException` outside the `try`. That exception escapes the handler (`Escaped`); it is not a 400.
- The handler never sets a content type.

## Model

| member | source | states |
|---|---|---|
| JavaLang.StartsWith | src/main/java/func/HelloWorld.java:66 | the character-by-character prefix test holds exactly when the prefix is no longer than the string and equals its leading slice |
| JavaLang.ToString | src/main/java/func/HelloWorld.java:166 | `toString()` of a throwable starts with its class name and continues with `": "` and the message, or is just the class name when there is no message |
| JavaLang.MessageText | src/main/java/func/HelloWorld.java:89 | concatenating `getMessage()` appends the message itself, or `null` when there is none |
| JavaLang.WrapInRuntimeException | src/main/java/func/HelloWorld.java:166 | `new RuntimeException(cause)` is a caught-by-`catch (Exception e)` exception of class `java.lang.RuntimeException` whose message is the cause's `toString()` |
| JavaLang.WrappedMessageNamesCause | src/main/java/func/HelloWorld.java:165-166 | the message of the `RuntimeException` that wraps a cause starts with the cause's class name and ends with the cause's message (or is just the class name when the cause has none) |
| Logging.Format | src/main/java/func/HelloWorld.java:69 | a pattern without a `{}` anchor is logged unchanged |
| Logging.FormatFillsFirstAnchor | src/main/java/func/HelloWorld.java:69 | the argument replaces the first `{}` anchor, and the text before and after the anchor is kept |
| HelloWorld.LogLine | src/main/java/func/HelloWorld.java:69 | the logged line is the fixed text `Converting URL to InputStream: ` followed by the URL verbatim |
| Scrooge.CreateScrooge | src/main/java/func/HelloWorld.java:119-152 | the constant configuration: a whole document (outer HTML); author `https://www.scroogexhtml.com/`; the embedded stylesheet and default font style; language `en`; languages converted with font sizes in points; indents and paragraph borders converted; bookmarks, empty paragraphs, footnotes, hyperlinks, pictures and tables converted |
| HelloWorld.ErrorPage | src/main/java/func/HelloWorld.java:87-90 | the error page is a whole `<html><body>`…`</body></html>` page: the error heading and phrase, then exactly the message, then the closing markup |
| HelloWorld.ErrorDetail | src/main/java/func/HelloWorld.java:87-90 | reading a message back from a page succeeds only on a page that is exactly the error page for that message |
| HelloWorld.ErrorPageIsNotUsagePage | src/main/java/func/HelloWorld.java:87-88 | no error page, whatever its message, is equal to the usage page (their headings differ) |
| HelloWorld.GetCurrentRtf | src/main/java/func/HelloWorld.java:160-167 | never yields a null stream; yields a stream over exactly the downloaded bytes iff the download succeeded; an I/O failure comes out as an exception of class `RuntimeException` whose message is present and is the cause's `toString()`; anything else passes through unchanged |
| HelloWorld.CatchException | src/main/java/func/HelloWorld.java:84-91 | an Exception becomes status 500 with the error page quoting its message; any other throwable (an Error) escapes unchanged; the effects already done are kept |
| HelloWorld.ProcessApproved | src/main/java/func/HelloWorld.java:69-91 | for an accepted URL, the trace is the log line, then the fetch, then the engine call exactly when there were bytes. A thrown Exception gives 500 and the error page. An Error escapes. 500 and the usage page happen iff the stream is null. The status stays unset iff fetch and conversion both succeed, and then the body is the encoded HTML |
| HelloWorld.Service | src/main/java/func/HelloWorld.java:53-98 | a missing or disallowed `url` gives exactly 400 and the usage page, with an empty trace. The status is 400 iff the request is not approved. An empty `url` list throws `NoSuchElementException` with no effects. An approved `url` is logged once and then fetched verbatim. The engine runs iff the fetch gave bytes, on those bytes and with the fixed configuration. The outcome escapes iff the list is empty or fetch/conversion threw an Error. A thrown Exception gives 500 and the error page with its message. 500 and the usage page happen iff the fetch gave null. The status stays unset iff fetch and conversion both succeed, and then the body is exactly the encoded HTML. Bytes are streamed iff the status is unset |
| Pipeline.Validate | src/main/java/func/HelloWorld.java:55-66 | approves exactly the requests whose first `url` value starts with the allow-listed prefix, and returns that value unchanged. It reports a missing parameter iff the map or the key is absent, an empty parameter iff the list is empty, and a disallowed origin iff a first value exists and fails the prefix test |
| Pipeline.ServiceIsPipeline | src/main/java/func/HelloWorld.java:53-98 | on every request, the handler equals the staged composition validate, fetch/convert, render |
| HelloWorldProperties.ErrorDetailRoundTrip | src/main/java/func/HelloWorld.java:84-91 | the message can be read back from the error page built for it, exactly |
| HelloWorldProperties.UsagePageCarriesNoError | src/main/java/func/HelloWorld.java:106-112 | the usage page does not read as an error page |
| HelloWorldProperties.UsagePageLayout | src/main/java/func/HelloWorld.java:106-112 | the usage page is a whole `<html><body>`…`</body></html>` page with the converter heading, and shows the example URL right after `?url=` |
| HelloWorldProperties.ErrorPageQuotesMessage | src/main/java/func/HelloWorld.java:89 | the error page holds "Failed to process the RTF document: " followed directly by the message, verbatim |
| HelloWorldProperties.LogLineIdentifiesUrl | src/main/java/func/HelloWorld.java:69 | two equal log lines name the same URL |
| HelloWorldProperties.OnlyFirstUrlMatters | src/main/java/func/HelloWorld.java:63-64 | two requests that agree on the presence and first value of `url` get the same outcome |
| HelloWorldProperties.LaterUrlValuesIgnored | src/main/java/func/HelloWorld.java:63-64 | changing the `url` values after the first, or any other parameter, leaves the outcome unchanged |
| HelloWorldProperties.AnyPathUnderPrefixIsFetched | src/main/java/func/HelloWorld.java:66-72 | whatever follows the prefix, the first two effects are the log line and then the fetch of that exact URL |
| HelloWorldProperties.OtherOriginIsRejected | src/main/java/func/HelloWorld.java:92-97 | a URL that does not start with the prefix gets exactly 400 and the usage page, with no log and no fetch |
| HelloWorldProperties.UsageExampleIsAccepted | src/main/java/func/HelloWorld.java:110 | the example URL on the usage page passes the prefix check at line 66, and a request for it is fetched |
| HelloWorldProperties.ConfigIsRequestIndependent | src/main/java/func/HelloWorld.java:119-152 | every engine call, for any request in any environment, receives the one `CreateScrooge()` configuration |
| HelloWorldProperties.DownloadFailureShowsErrorPage | src/main/java/func/HelloWorld.java:71-91 | with the real `getCurrentRtf`, a failed download of an accepted URL gives 500 and the error page quoting the cause's `toString()`. That message starts with the cause's class name and ends with its message. The trace is log then fetch, with no engine call |
| HelloWorldProperties.NullStreamUnreachable | src/main/java/func/HelloWorld.java:72-83 | with the real `getCurrentRtf`, no request is answered with 500 and the usage page |
| HelloWorldProperties.EngineErrorEscapes | src/main/java/func/HelloWorld.java:75-84 | an Error thrown by the engine is not caught by `catch (Exception e)`: it escapes after the log, the fetch and the engine call |

## Left out

- The HTTP runtime types (`HttpRequest`, `HttpResponse`, writers, output streams) are not modelled. The response is a value, and the writer's calls are concatenated into one body text.
- The hazard where `getWriter` is called after `getOutputStream` is not modelled. It would happen if writing the success body threw, and it is I/O semantics of the runtime.
- The network download (`IOUtils.toByteArray(URI.create(url))`) is not modelled. It is an uninterpreted `Download` outcome given per URL.
- The ScroogeXHTML conversion is not modelled. It is the `convert` capability. The engine's defaults for options that `createScrooge` does not set are not part of this model, and neither are its length units other than em and point.
- A conversion that returns null, which would make `getBytes` throw a `NullPointerException` inside the `try`, is not modelled. `convert` returns a string or throws.
- UTF-8 encoding is not modelled. It is the `encode` capability.
- The SLF4J backend is not modelled. The trace keeps the formatted log line.
- Logging.Format: escaped anchors (`\\{}`) and the null argument are not modelled, because the handler's pattern has one plain anchor and the URL is never null.
- A query map that binds `url` to null, or a `url` list whose first element is null, is not modelled. Dafny maps and strings have no null.
- Content type is not modelled, because the code never sets it.
- What the runtime answers when a throwable escapes is not modelled. That is the runtime's behaviour, not the handler's.
- Repeating a request and getting the same answer holds by construction, because `Service` is a pure function. It has no separate lemma.
