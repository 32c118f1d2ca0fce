# matrixjavalib-main-web, modelled in Dafny

This project models the servlet helpers of the matrixjavalib web library. The main piece is the bordered text-table renderer that the request-logging filters use to dump parameters, headers, attributes and session contents.

The renderer exists twice, once in `LogRequestFilter` and once in `RequestDumpFilter`, with the same algorithm. It has two variants:

- The string variant (`dumpStringMap`) prints a two-column block of names and values.
- The object variant (`dumpObjectMap` with `ClassAndToString`) prints a name/type line for each entry, followed by full-width value lines.

Around the renderer the model covers:

- the conditional-request checks of `HttpServletMx` and `Servlets` (If-Modified-Since and If-None-Match, sections 3.3 and 3.2 of RFC 7232);
- the parameter helpers of `HttpServletMx` and `HttpServlets`;
- the query-string and Basic-authorization builders of `HttpMx` and `HTTPs` (section 2 of RFC 7617);
- `PagingInfo` and the paging resolution of `Pages`;
- the `&nbsp;` padding of `HtmlMx` and `HTMLs`;
- the `SetCharacterEncodingFilter` lifecycle;
- the session token stores `TokenMx` and `Tokens`.

How Java is represented:

- **Output.** A `PrintWriter` is a `Writer` object. It holds the finished lines and the text of the line still being written.
- **Ordered maps.** A map the renderer walks is an ordered sequence of entries.
- **Requests and responses.** A servlet request is a `Request` object: headers, date headers, parameters and the servlet path are constants; attributes, the character encoding and the session change. A response holds a status and headers.
- **The session.** It is an optional map. A request that has no session yet holds `None`.
- **Attribute values.** They carry their runtime type (`String`, `Integer`, `Long`, `StringBuilder`, anything else). A cast to the wrong type gives `ClassCastException`.
- **Exceptions.** An exception a Java method throws is an `Err` result, or a returned `Option` of the exception for a method that also changes state.
- **Code outside the core** is taken as a parameter:
  - `getClass().toString()` and `toString()` are data carried by each object.
  - URL encoding and decoding and Base64 are function-typed parameters.
  - The random UUID of a fresh token or page key is an input.

Modules:

| file | module | models |
|---|---|---|
| wrappers.dfy | Wrappers | `Option`, `Result` |
| java_lang.dfy | JavaLang | Java objects, `String.valueOf`, `Arrays.toString`, truncating division |
| java_text.dfy | JavaText | `String.trim`, `split`, blankness, case-insensitive comparison, decimal parsing |
| box_layout.dfy | BoxLayout | widths, line counts and value chunks shared by both table variants |
| string_table.dfy | StringTable | the lines `dumpStringMap` writes, as a function, with its properties |
| object_table.dfy | ObjectTable | `ClassAndToString` and the lines `dumpObjectMap` writes, with its properties |
| dump_renderer.dfy | DumpRenderer | the writer and the imperative renderer, proved to write those lines |
| servlet_model.dfy | ServletModel | request and response objects |
| conditional.dfy | ConditionalRequests | `checkIfModifiedSince`, `checkIfNoneMatchEtag` (both classes) |
| parameters.dfy | RequestParameters | parameter fallbacks, `getParametersStartingWith`, messages and errors |
| paging_info.dfy | Paging | `PagingInfo` |
| pages.dfy | PageRequests | `Pages` |
| query_strings.dfy | QueryStrings | `buildQueryString`, `encodeParameterStringWithPrefix`, Basic headers |
| html_padding.dfy | HtmlPadding | `expandToLength`, `fitToLength` |
| encoding_filter.dfy | EncodingFilter | `SetCharacterEncodingFilter` |
| tokens.dfy | SessionTokens | `TokenMx`, `Tokens` |

## Model

Source paths are below `src/main/java/net/matrix/` or `src/test/java/net/matrix/` of the repository and are written out in full.

| member | source | states |
|---|---|---|
| DumpRenderer.PrintChar | src/main/java/net/matrix/web/http/servlet/filter/LogRequestFilter.java:472-476 | appends `repeat` copies of the character to the current line; nothing for a count of zero or less |
| DumpRenderer.StringWidths | src/main/java/net/matrix/web/http/servlet/filter/LogRequestFilter.java:284-305 | replaces every null value of the caller's map by "(null)" in place, leaves the other entries alone, and returns exactly the name, value and total widths of `StringTable.Layout` |
| DumpRenderer.MeasureStringEntries | src/main/java/net/matrix/web/http/servlet/filter/LogRequestFilter.java:288-300 | overwrites each null value with "(null)" in place and returns the longest name length and the value width the clamping loop reaches from 0 |
| DumpRenderer.PrintStringRow | src/main/java/net/matrix/web/http/servlet/filter/LogRequestFilter.java:324-353 | writes the physical lines of one entry: a blank padded cell for an empty value, otherwise one line per chunk, with an indented name column on the continuation lines |
| DumpRenderer.DumpStringMap | src/main/java/net/matrix/web/http/servlet/filter/LogRequestFilter.java:283-361 | normalises nulls in the caller's map and writes exactly `StringTable.TableLines` of the entries in their order |
| DumpRenderer.DescribeEntries | src/main/java/net/matrix/servlet/filter/RequestDumpFilter.java:285-288 | builds a fresh list of descriptions in the map's order, or stops with the first description's exception |
| DumpRenderer.ObjectWidths | src/main/java/net/matrix/servlet/filter/RequestDumpFilter.java:291-310 | the width loops give exactly the name, type and value widths of `ObjectTable.Layout` |
| DumpRenderer.PrintObjectEntry | src/main/java/net/matrix/servlet/filter/RequestDumpFilter.java:329-359 | writes an entry's name/type line followed by its value lines |
| DumpRenderer.PrintValueLines | src/main/java/net/matrix/servlet/filter/RequestDumpFilter.java:336-358 | writes one blank padded line for an empty text, otherwise the value lines of its chunks in order |
| DumpRenderer.DumpObjectMap | src/main/java/net/matrix/servlet/filter/RequestDumpFilter.java:284-365 | leaves the caller's map alone; writes exactly `ObjectTable.TableLines` of the descriptions; a primitive array value throws before anything is written |
| BoxLayout.MaxLenIsLongest | src/main/java/net/matrix/web/http/servlet/filter/LogRequestFilter.java:292-294 | the running maximum of name lengths is at least every name's length and equal to one of them |
| BoxLayout.ClampedWidthValue | src/main/java/net/matrix/servlet/filter/RequestDumpFilter.java:291-304 | the clamped width loop ends at `maxLength` whenever some text is longer than `maxLength`, whatever the seed; otherwise at max(seed, longest text) |
| BoxLayout.StringValueWidthIsClampedMax | src/main/java/net/matrix/web/http/servlet/filter/LogRequestFilter.java:295-299 | seeded with 0, the value width is min(maxLength, longest value), so later short values cannot widen a pinned column |
| BoxLayout.LineCountBounds | src/main/java/net/matrix/web/http/servlet/filter/LogRequestFilter.java:329-332 | the number of chunks is ceil(len / maxLength): zero exactly for an empty value, and the chunks just cover the value |
| BoxLayout.ChunksRoundTrip | src/main/java/net/matrix/web/http/servlet/filter/LogRequestFilter.java:337-352 | the chunks of a value, in order, concatenate to exactly the value |
| BoxLayout.ChunkLengths | src/main/java/net/matrix/web/http/servlet/filter/LogRequestFilter.java:339-347 | every chunk but the last is `maxLength` long; the last is the non-empty rest |
| StringTable.Normalized | src/main/java/net/matrix/web/http/servlet/filter/LogRequestFilter.java:288-291 | every key and order is kept, null values become "(null)", and non-null entries are untouched |
| StringTable.LayoutWidths | src/main/java/net/matrix/web/http/servlet/filter/LogRequestFilter.java:301-305 | after reconciliation the name width is the longest name, nameWidth + valueWidth + 1 == totalLen, and totalLen = max(title length, longest name + clamped value width + 1) |
| StringTable.EmptyMapLines | src/main/java/net/matrix/web/http/servlet/filter/LogRequestFilter.java:307-317 | an empty map gives exactly three lines: a rule, the title bar and the same rule, each title length + 2 wide |
| StringTable.TableLineCount | src/main/java/net/matrix/web/http/servlet/filter/LogRequestFilter.java:306-360 | a non-empty map gives four frame lines plus the sum over entries of max(1, ceil(len / maxLength)) |
| StringTable.FramingWidths | src/main/java/net/matrix/web/http/servlet/filter/LogRequestFilter.java:306-323 | the top rule, the title line, the header separator and the closing separator are all totalLen + 2 wide |
| StringTable.RowHoldsChunk | src/main/java/net/matrix/web/http/servlet/filter/LogRequestFilter.java:337-352 | physical line i of an entry carries chunk i of its value, padded, between bars |
| StringTable.EntryPlacement | src/main/java/net/matrix/web/http/servlet/filter/LogRequestFilter.java:324-353 | entries appear in map order: entry k's lines follow the three heading lines and the lines of the entries before it |
| StringTable.EntryLineWidths | src/main/java/net/matrix/web/http/servlet/filter/LogRequestFilter.java:333-352 | an empty or one-chunk value's line is totalLen + 2 wide; a wrapped value's lines are nameWidth + maxLength + 3 wide |
| StringTable.WrappedRowNarrowerThanBlock | src/main/java/net/matrix/web/http/servlet/filter/LogRequestFilter.java:301-305 | when a long title widens the value column, a wrapped row is narrower than the block (title "Parameters", maxLength 3, a=hello: 12 against 7) |
| ObjectTable.Describe | src/main/java/net/matrix/servlet/filter/RequestDumpFilter.java:367-391 | null is ("(n/a)", "(null)"); an object array is its class and `Arrays.toString`; a primitive array throws ClassCastException; any other object is its class and `toString()` |
| ObjectTable.DescribeAllSpec | src/main/java/net/matrix/servlet/filter/RequestDumpFilter.java:285-288 | the descriptions keep the keys and their order and describe each value; it fails exactly when some value cannot be described, and then with the first such exception |
| ObjectTable.LayoutWidths | src/main/java/net/matrix/servlet/filter/RequestDumpFilter.java:291-310 | the name width is the longest name, the type column holds every label, and nameWidth + classWidth + 1 == valueWidth = max(that sum, the title-seeded clamped text width) |
| ObjectTable.EmptyMapLines | src/main/java/net/matrix/servlet/filter/RequestDumpFilter.java:312-322 | an empty map gives three lines, each title length + 2 wide, the first and last the same rule |
| ObjectTable.TableLineCount | src/main/java/net/matrix/servlet/filter/RequestDumpFilter.java:311-364 | a non-empty map gives four frame lines plus, per entry, one name/type line and max(1, ceil(len / maxLength)) value lines |
| ObjectTable.FramingLines | src/main/java/net/matrix/servlet/filter/RequestDumpFilter.java:312-363 | a non-empty table ends with the full-width rule it starts with; the title line is padded only when the title fits |
| ObjectTable.LongTitleOverhangs | src/main/java/net/matrix/servlet/filter/RequestDumpFilter.java:393-397 | a negative padding count (as for the title line) prints nothing, so a long title's line overhangs the block (5 against 20) |
| ObjectTable.EntryLinesShape | src/main/java/net/matrix/servlet/filter/RequestDumpFilter.java:329-359 | an entry starts with its name/type line; an empty text gives valueWidth spaces then a closing bar with no leading bar; value line i is a bar, chunk i, padding and a bar, with no name indent |
| ObjectTable.EntryPlacement | src/main/java/net/matrix/servlet/filter/RequestDumpFilter.java:329-359 | entries appear in the order of the map, each after the lines of the entries before it |
| ObjectTable.EntryLineWidths | src/main/java/net/matrix/servlet/filter/RequestDumpFilter.java:329-359 | the name/type line and a one-chunk value line are valueWidth + 2 wide, an empty text's line valueWidth + 1, and wrapped lines maxLength + 2 |
| JavaLang.ArraysToString | src/main/java/net/matrix/servlet/filter/RequestDumpFilter.java:384-386 | the text of an object array is bracketed; an empty array gives "[]" |
| JavaLang.JavaDivTruncates | src/main/java/net/matrix/servlet/session/PagingInfo.java:133-135 | Java's `/` truncates toward zero: the remainder is smaller than the divisor and has the dividend's sign |
| JavaText.TrimIsBlankStripped | src/main/java/net/matrix/web/http/servlet/HttpServletMx.java:155 | `trim` returns the inner slice, with only characters up to U+0020 removed from either end |
| JavaText.TrimIdempotent | src/main/java/net/matrix/servlet/Servlets.java:132 | trimming a trimmed token changes nothing |
| JavaText.PiecesRoundTrip | src/main/java/net/matrix/web/http/servlet/HttpServletMx.java:153 | the pieces of a split, joined back with the delimiter, give the original text |
| JavaText.JoinRoundTrip | src/main/java/net/matrix/web/http/servlet/HttpServletMx.java:153 | splitting a join of delimiter-free pieces gives back exactly those pieces |
| JavaText.CommaTokensOfJoin | src/main/java/net/matrix/servlet/Servlets.java:130 | the comma tokens of a joined list are its non-empty items in order |
| JavaText.ParseInRange | src/main/java/net/matrix/servlet/session/Pages.java:116-120 | a number parses exactly when it is a signed decimal within the type's range |
| JavaText.ParseShowRoundTrip | src/main/java/net/matrix/servlet/session/Pages.java:116-120 | the decimal form of any integer parses back to that integer |
| ServletModel.Request.DateHeader | src/main/java/net/matrix/web/http/servlet/HttpServletMx.java:111 | a missing date header reads as -1 |
| ServletModel.Request.SetAttribute | src/main/java/net/matrix/servlet/session/Pages.java:94 | updates one attribute; the session and encoding stay |
| ConditionalRequests.ChangedSinceIsLaterSecond | src/main/java/net/matrix/web/http/servlet/HttpServletMx.java:111-114 | for a whole-second header date the 1000 ms slack means "modified in a later second" |
| ConditionalRequests.MxCheckIfModifiedSince | src/main/java/net/matrix/web/http/servlet/HttpServletMx.java:110-118 | true and nothing touched when the header is absent or lastModified >= ifModifiedSince + 1000; otherwise status 304 and false |
| ConditionalRequests.ServletsCheckIfModifiedSince | src/main/java/net/matrix/servlet/Servlets.java:90-97 | false with 304 exactly when the header is present and lastModified < ifModifiedSince + 1000 |
| ConditionalRequests.ListedEtagIsHeld | src/main/java/net/matrix/web/http/servlet/HttpServletMx.java:149-160 | an etag listed as a comma token is matched |
| ConditionalRequests.UnlistedEtagIsNotHeld | src/main/java/net/matrix/web/http/servlet/HttpServletMx.java:149-160 | an etag that no trimmed token equals, in a header other than "*", is not matched |
| ConditionalRequests.ScanTokens | src/main/java/net/matrix/servlet/Servlets.java:130-136 | the token loop finds a match exactly when some non-empty trimmed comma token equals the etag |
| ConditionalRequests.MxCheckIfNoneMatchEtag | src/main/java/net/matrix/web/http/servlet/HttpServletMx.java:144-169 | a match ("*" or a token) gives 304, false and no ETag header; otherwise ETag is set, the status kept, and true |
| ConditionalRequests.ServletsCheckIfNoneMatchEtag | src/main/java/net/matrix/servlet/Servlets.java:123-146 | a match gives 304 and the ETag header and false; otherwise true and the response untouched |
| RequestParameters.MxGetParameter | src/main/java/net/matrix/web/http/servlet/HttpServletMx.java:225-232 | the default for a missing parameter, otherwise the decoded first value |
| RequestParameters.GetHeaderOrParameter | src/main/java/net/matrix/web/http/servlet/HttpServletMx.java:481-491 | the decoded header if present, else the parameter lookup with its default |
| RequestParameters.DefaultOnlyWhenNothingFound | src/main/java/net/matrix/web/http/servlet/HttpServletMx.java:482-490 | the default comes back exactly when neither header nor parameter is there; a found value is always decoded |
| RequestParameters.GetParameter | src/main/java/net/matrix/servlet/session/HttpServlets.java:174-180 | "" for a missing parameter, otherwise its first value |
| RequestParameters.GetParameterIsUndecodedWithEmptyDefault | src/main/java/net/matrix/servlet/session/HttpServlets.java:174-180 | it agrees with the `HttpServletMx` lookup given default "" and no decoding |
| RequestParameters.Packed | src/main/java/net/matrix/servlet/session/HttpServlets.java:271-278 | a single value is stored alone, several as the array |
| RequestParameters.SelectedMeaning | src/main/java/net/matrix/servlet/session/HttpServlets.java:268-279 | a key is in the result exactly when prefix + key names a parameter with values, and it maps to those values packed |
| RequestParameters.EmptyPrefixSelectsAll | src/main/java/net/matrix/servlet/session/HttpServlets.java:263-265 | with an empty prefix every parameter with values is returned under its own name |
| RequestParameters.UnmatchedPrefixSelectsNothing | src/test/java/net/matrix/servlet/session/HttpServletsTest.java:25-26 | no name starting with the prefix gives an empty result |
| RequestParameters.GetParametersStartingWith | src/main/java/net/matrix/servlet/session/HttpServlets.java:262-282 | the loop builds exactly the selection, a null prefix read as "" |
| RequestParameters.GetMessage | src/main/java/net/matrix/servlet/session/HttpServlets.java:66-72 | "" with no message attribute; Ok with the builder's text exactly when the attribute is a StringBuilder; ClassCastException for an attribute of another type |
| RequestParameters.GetError | src/main/java/net/matrix/servlet/session/HttpServlets.java:98-104 | "" with no error attribute; Ok with the builder's text exactly when the attribute is a StringBuilder; ClassCastException for an attribute of another type |
| RequestParameters.Append | src/main/java/net/matrix/servlet/session/HttpServlets.java:50-57 | the key's accumulated text grows by the message ("null" for null); every other attribute is unchanged |
| RequestParameters.AddMessage | src/main/java/net/matrix/servlet/session/HttpServlets.java:50-57 | `getMessage` afterwards is the old text plus the message; `getError` is unchanged |
| RequestParameters.AddError | src/main/java/net/matrix/servlet/session/HttpServlets.java:82-89 | `getError` afterwards is the old text plus the message; `getMessage` is unchanged |
| Paging.TotalPagesIsCeiling | src/main/java/net/matrix/servlet/session/PagingInfo.java:133-135 | (total + pageSize - 1) / pageSize is ceil(total / pageSize) for total >= 0 and pageSize >= 1 |
| Paging.TotalPagesExamples | src/main/java/net/matrix/servlet/session/PagingInfo.java:133-135 | 10 items in pages of 3 make 4 pages; 9 make 3; none make 0 |
| Paging.PagingInfo.Default | src/main/java/net/matrix/servlet/session/PagingInfo.java:44-46 | key and url "" (not null), total 0, index 0, size 1, and therefore 0 pages |
| Paging.PagingInfo.constructor | src/main/java/net/matrix/servlet/session/PagingInfo.java:62-73 | a page size of 0 or less becomes 1, and the page count is consistent |
| Paging.PagingInfo.SetKey | src/main/java/net/matrix/servlet/session/PagingInfo.java:79-81 | changes only the key, which may be null |
| Paging.PagingInfo.SetUrl | src/main/java/net/matrix/servlet/session/PagingInfo.java:87-89 | changes only the url, which may be null |
| Paging.PagingInfo.SetPageIndex | src/main/java/net/matrix/servlet/session/PagingInfo.java:110-112 | changes only the page index |
| Paging.PagingInfo.SetTotal | src/main/java/net/matrix/servlet/session/PagingInfo.java:101-104 | sets the total and recomputes the page count; ArithmeticException when the page size is 0 |
| Paging.PagingInfo.SetPageSize | src/main/java/net/matrix/servlet/session/PagingInfo.java:124-127 | sets the size without clamping and recomputes; size 0 divides by zero |
| Paging.PagingInfo.ComputeTotalPage | src/main/java/net/matrix/servlet/session/PagingInfo.java:133-135 | makes the page count consistent with total and size, or throws for size 0 |
| PageRequests.ResolveText | src/main/java/net/matrix/servlet/session/Pages.java:86-108 | a non-empty parameter wins; then a non-empty String attribute; then the fallback; another attribute type gives ClassCastException |
| PageRequests.ResolveNumber | src/main/java/net/matrix/servlet/session/Pages.java:110-159 | a non-empty parameter is parsed (0 when not a number); else the boxed attribute; else the fallback; a wrong box gives ClassCastException |
| PageRequests.ResolveTextAttribute | src/main/java/net/matrix/servlet/session/Pages.java:86-108 | resolves key or url and writes the value back to the same attribute |
| PageRequests.ResolveNumberAttribute | src/main/java/net/matrix/servlet/session/Pages.java:110-140 | resolves total or index and writes the boxed value back |
| PageRequests.GetPageSize | src/main/java/net/matrix/servlet/session/Pages.java:142-159 | IllegalArgumentException for a default of 0 or less; otherwise resolves and writes the size back |
| PageRequests.PageInfos | src/main/java/net/matrix/servlet/session/Pages.java:76-84 | fails for a default size of 0 or less; a result always has a non-zero page size |
| PageRequests.ResolveAll | src/main/java/net/matrix/servlet/session/Pages.java:76-81 | resolves the five values in the source's order and leaves each written back |
| PageRequests.GetPageInfos | src/main/java/net/matrix/servlet/session/Pages.java:76-84 | a consistent fresh info holding the resolved values, or the exception of the first failing step |
| PageRequests.GetPageInfosDefault | src/main/java/net/matrix/servlet/session/Pages.java:63-65 | the same with a default page size of 1 |
| PageRequests.SetPageInfos | src/main/java/net/matrix/servlet/session/Pages.java:44-54 | writes the five fields as attributes in order; a null key removes `page_key`; a null or empty url is replaced by the servlet path |
| PageRequests.NullKeyIsRedrawn | src/main/java/net/matrix/servlet/session/Pages.java:86-96 | after a null key is written back, no key attribute is left, so the next lookup without a key parameter draws a fresh key |
| PageRequests.ResolutionIsStable | src/main/java/net/matrix/servlet/session/Pages.java:86-158 | resolving again against the written-back attributes gives the same values |
| PageRequests.SetThenGetRoundTrip | src/main/java/net/matrix/servlet/session/Pages.java:44-84 | without paging parameters, `getPageInfos` after `setPageInfos` gives back the info's values |
| PageRequests.UnusablePageSizeParameterFails | src/main/java/net/matrix/servlet/session/Pages.java:145-158 | a page size parameter of "0" or a non-number, read as 0 and passed on to `PagingInfo`, makes `getPageInfos` throw ArithmeticException |
| QueryStrings.BuildQueryString | src/main/java/net/matrix/web/http/HttpMx.java:38-56 | `key=encode(value)` pairs in order joined by `&`, no trailing `&`, "" for no entries, `key=` for null |
| QueryStrings.QueryStringSplitsBack | src/main/java/net/matrix/web/http/HttpMx.java:41-53 | splitting the query string on `&` gives back the encoded pairs |
| QueryStrings.QueryStringExample | src/test/java/net/matrix/web/http/HttpMxTest.java:17-24 | name=foo, age=1, xyz=null give "name=foo&age=1&xyz=" |
| QueryStrings.AppendEntry | src/main/java/net/matrix/web/http/HTTPs.java:36-37 | one entry appends `prefix key = value &` |
| QueryStrings.EncodeParameterStringWithPrefix | src/main/java/net/matrix/web/http/HTTPs.java:32-44 | `prefix+key=value` pairs in order joined by `&`, no trailing `&` |
| QueryStrings.BuildersAgree | src/test/java/net/matrix/web/http/HTTPsTest.java:32-33 | with an empty prefix and non-null values the two builders give the same text |
| QueryStrings.BuildersDifferOnNull | src/main/java/net/matrix/web/http/HttpMx.java:46-48 | a null value gives `key=` in one builder and `key=null` in the other |
| QueryStrings.BasicAuthorization | src/main/java/net/matrix/web/http/HttpMx.java:77-80 | the header starts with "Basic " |
| QueryStrings.BasicRoundTrip | src/main/java/net/matrix/web/http/HTTPs.java:55-58 | decoding the header's credentials and splitting at the first colon gives back user and password |
| HtmlPadding.SpacesAreBlocks | src/main/java/net/matrix/web/html/HtmlMx.java:49-54 | the padding is made only of whole `&nbsp;` blocks |
| HtmlPadding.PaddedShape | src/main/java/net/matrix/web/html/HtmlMx.java:44-55 | the text stays as the prefix, followed by exactly max(0, length - text length) blocks |
| HtmlPadding.PaddingTwiceIsOnce | src/main/java/net/matrix/web/html/HtmlMx.java:44-47 | padding already padded text changes nothing |
| HtmlPadding.ExpandToLength | src/main/java/net/matrix/web/html/HtmlMx.java:39-56 | the loop builds the padded text; null gives `length` blocks |
| HtmlPadding.FitToLength | src/main/java/net/matrix/web/html/HTMLs.java:33-48 | gives the same padded text, so it agrees with `expandToLength` on every input |
| HtmlPadding.PaddingExample | src/test/java/net/matrix/web/html/HtmlMxTest.java:14-17 | "abc" padded to 5 is "abc&nbsp;&nbsp;" |
| EncodingFilter.IgnoreFlagExamples | src/main/java/net/matrix/web/http/servlet/filter/SetCharacterEncodingFilter.java:67-68 | an absent flag, "yes" and "true" in any case mean ignore; anything else does not |
| EncodingFilter.EncodingAfter | src/main/java/net/matrix/web/http/servlet/filter/SetCharacterEncodingFilter.java:98-103 | the selected encoding is applied when it exists and ignore is set or the request has none; otherwise the request's is kept |
| EncodingFilter.EncodingAfterIsSelectedOrKept | src/main/java/net/matrix/web/http/servlet/filter/SetCharacterEncodingFilter.java:98-103 | the encoding after the filter is either the selected one or the request's own |
| EncodingFilter.SetCharacterEncodingFilter.constructor | src/main/java/net/matrix/web/http/servlet/filter/SetCharacterEncodingFilter.java:56 | no encoding, and ignore is true before `init` |
| EncodingFilter.SetCharacterEncodingFilter.Init | src/main/java/net/matrix/web/http/servlet/filter/SetCharacterEncodingFilter.java:65-69 | stores the encoding parameter and derives the ignore flag |
| EncodingFilter.SetCharacterEncodingFilter.Destroy | src/main/java/net/matrix/web/http/servlet/filter/SetCharacterEncodingFilter.java:75-77 | clears the encoding, so later requests keep their own |
| EncodingFilter.SetCharacterEncodingFilter.DoFilter | src/main/java/net/matrix/web/http/servlet/filter/SetCharacterEncodingFilter.java:95-107 | sets the request encoding as `EncodingAfter` says and calls the chain exactly once; when the container rejects the selected encoding, throws UnsupportedEncodingException with the encoding unchanged and the chain not called |
| EncodingFilter.RejectedOnlyWhenApplied | src/main/java/net/matrix/web/http/servlet/filter/SetCharacterEncodingFilter.java:98-103 | the filter can fail only where it would replace the encoding with an unsupported selected name |
| SessionTokens.Stored | src/main/java/net/matrix/web/http/servlet/TokenMx.java:61 | null for a missing attribute, its text for a String, ClassCastException otherwise |
| SessionTokens.MxCheckToken | src/main/java/net/matrix/web/http/servlet/TokenMx.java:73-86 | false without a session or parameter; true exactly when the parameter equals the stored String |
| SessionTokens.Valid | src/main/java/net/matrix/servlet/session/Tokens.java:60-67 | false for a blank parameter; true exactly when it equals the stored String |
| SessionTokens.GeneratedTokenChecks | src/test/java/net/matrix/web/http/servlet/TokenMxTest.java:42 | a freshly generated token checks out |
| SessionTokens.OtherTokenFails | src/main/java/net/matrix/web/http/servlet/TokenMx.java:73-86 | any other parameter fails against a generated token |
| SessionTokens.RemovedTokenFails | src/main/java/net/matrix/servlet/session/Tokens.java:77-79 | after removal no parameter checks out |
| SessionTokens.GenerateToken | src/main/java/net/matrix/web/http/servlet/TokenMx.java:37-43 | stores and returns the token, creating the session if needed |
| SessionTokens.MxGetToken | src/main/java/net/matrix/web/http/servlet/TokenMx.java:55-62 | null without a session, otherwise the stored attribute; never creates a session |
| SessionTokens.MxRemoveToken | src/main/java/net/matrix/web/http/servlet/TokenMx.java:96-103 | nothing without a session; otherwise removes only that key |
| SessionTokens.TokensGetToken | src/main/java/net/matrix/servlet/session/Tokens.java:47-49 | creates the session if absent and reads the attribute |
| SessionTokens.IsTokenValid | src/main/java/net/matrix/servlet/session/Tokens.java:60-67 | the validity check; the session is created only for a non-blank parameter |
| SessionTokens.TokensRemoveToken | src/main/java/net/matrix/servlet/session/Tokens.java:77-79 | creates the session if absent and removes the key |

## Left out

- Strings are sequences of characters, one per UTF-16 unit, so lengths count UTF-16 units as Java does. Surrogate pairs are not modelled.
- `getParametersStartingWith` returns a `TreeMap`. The result here is a Dafny map, so its sorted key order is not modelled.
- URL encoding and decoding, Base64 and `toString()` are parameters or data. Their own behaviour is not modelled.
- The UUID of a fresh token or page key is an input, because UUID generation is random.
- The logging filters' data gathering is not modelled: `doFilter`, `dumpRequest`, `dumpCookie`, `dumpPart`, `dumpResponse` and `dumpSession`. Neither are SLF4J logging, the ResourceBundle titles or the `init` parsing of `maxLength`. The renderer takes the ordered entries, the title and `maxLength` (at least 1) as inputs.
- The time-based header setters, the Content-Disposition setters and the typed parameter getters are not modelled. They depend on the clock or on code that is not part of this model.
- ConditionalRequests.ChangedSince uses unbounded integers. `ifModifiedSince + 1000` does not wrap around as a Java `long` would near `Long.MAX_VALUE`.
- Paging.TotalPages: `total` is a Java `long`, so `total + pageSize - 1` is `long` arithmetic. The model uses unbounded integers and does not wrap around for totals near `Long.MAX_VALUE`.
- Date headers are taken as already parsed to milliseconds. An unparsable date header, which makes the container throw, is not modelled.
- The charsets the container supports are an input set to ServletModel.Request.SetCharacterEncoding and EncodingFilter.SetCharacterEncodingFilter.DoFilter. The JVM's charset lookup, aliases and case-insensitive names are not modelled.
- EncodingFilter.SetCharacterEncodingFilter.DoFilter: the servlet rule that `setCharacterEncoding` has no effect once parameters or the body have been read is not modelled. The request here does not record whether it was read.
- Header names are matched exactly. The container's case-insensitive header lookup is not modelled.
- `trim`, digits, blankness and case folding cover only the ASCII range. Non-ASCII decimal digits accepted by `Integer.parseInt` and non-ASCII whitespace are not modelled.
- `Objects2.isNull` is not part of this model. It is taken to return its second argument when the first is null.
- A `StringBuilder` attribute is modelled by its text. Aliasing of the same builder under two keys, or held elsewhere, is not modelled.
- A null map key is not modelled: keys are strings.
- `expandToLength` and `fitToLength` with a null html give `StringUtils.repeat(SPACE, length)`, which is "" for a `length` of 0 or less. Nothing further about negative lengths is claimed.
- The `break` of `HttpServletMx.checkIfNoneMatchEtag` and the `!conditionSatisfied` loop of `Servlets.checkIfNoneMatchEtag` both stop at the first match. One method, ConditionalRequests.ScanTokens, models both loops.
- ETags are compared by exact string equality, as the code does. The weak comparison of section 2.3.2 of RFC 7232 is not modelled.
- PageRequests.GetPageInfos: when a getter throws, only the attributes written before the failure change in the source. The model states the written-back attributes only when every getter succeeds.
