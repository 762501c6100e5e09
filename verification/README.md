# Leak Detector website — a verified model of its logic

The leak-detector project website is a static React site. Almost all of it is
page text, but a few small pieces of it compute things:

- the page search dialog, which ranks the sixteen catalog entries against a
  query and drives a small keyboard state machine;
- three contact-form handlers, which check a submission and relay it to an
  e-mail provider;
- `createPageUrl`, the route table of the application and the navigation bar;
- the Documentation page's Google Drive links and bill-of-materials CSV export;
- the Parts List page's cost parsing, total and CSV export;
- the team member card's initials and photo fallback;
- the Testing & Results page's confusion-matrix metrics.

This project models those pieces in Dafny and proves what each of them does.
There is one module per source file, plus shared modules for text, decimals,
CSV and ranking:

- `Text`, `Wrappers`, `Decimal`: JavaScript string basics over ASCII (`toLowerCase`, `trim`, `\s`, `includes`, `join`), `Option`, decimal digits
- `SearchIndex`: the catalog in `src/search/searchindex.ts`
- `Ranking`: the stable descending sort that `Array.prototype.sort` performs (ECMA-262 requires the sort to be stable)
- `Search`, `SearchDialog`: `normalize`, `score`, the `results` memo, the dialog state and `useSearchHotkeys`
- `CatalogLetters`, `SearchExamples`: the queries "firmware", "data" and "BOM" run against the real catalog
- `ContactCommon`, `ContactNode`, `ContactVercel`, `ContactNext`: the shared form and e-mail shape, and the handlers in `api/contact.js`, `api/contact.tsx` and `src/pages/api/contact.tsx`
- `PageUrl`, `Routes`, `Layout`, `NavNames`, `NavRoutes`: `createPageUrl`, the routes of `src/App.tsx` and the navigation of `src/Layout.tsx`
- `Csv`, `Bom`, `Documentation`, `DocumentationSite`: CSV quoting and assembly with a reader that proves the round trip, the BOM rows, and the Drive URL builders with the page's document list
- `PartsList`, `PartsListSite`: cost parsing, quantity coercion, the total loop and the page's nine rows
- `TeamMemberCard`, `TestingResults`: `getInitials`, the `imgOk` flag, and the metrics

Modelling choices:

- Only state that the source changes in place is written imperatively:
  - the search dialog (`SearchDialog.Dialog`);
  - the navigation bar (`Layout.NavBar`);
  - the Node response object (`ContactNode.ServerResponse`);
  - the avatar (`TeamMemberCard.Avatar`);
  - the cost-total loop (`PartsList.Totals`);
  - the request-stream read (`ContactNode.ReadBody`).

  Everything else is functions and lemmas.
- Numbers are exact: costs and percentages are `real`, and a JavaScript 0/0 (NaN) is `None`.
- I/O is passed in as parameters:
  - the JSON decoder of the raw request body is a parameter `parse`;
  - the provider's answer is an abstract `Outcome` or `SendResult`;
  - environment variables are a configuration record.
- The ranking follows the code, not the prose description of the search:
  - `active` is reset only when the dialog opens, never when the query is edited;
  - ArrowDown with no results sets it to -1;
  - Enter on a missing result does nothing.

## Model

| member | source | states |
|---|---|---|
| `Text.ToLower` | src/components/ui/searchdialog.tsx:12 | lower-casing keeps the length and maps each character on its own, with no upper-case letter left |
| `Text.ToLowerIdempotent` | src/components/ui/searchdialog.tsx:12 | a lower-cased string has no capitals and lower-casing it again changes nothing |
| `Text.TrimIsSlice` | src/components/ui/searchdialog.tsx:12 | `trim` returns a contiguous slice of the input with only whitespace cut from either end |
| `Text.TrimEnds` | src/components/ui/searchdialog.tsx:12 | a non-empty trimmed string neither starts nor ends with whitespace |
| `Text.TrimEmpty` | src/components/ui/searchdialog.tsx:18 | the trimmed string is empty exactly when the input is all whitespace |
| `Text.ContainsIsSubstring` | src/components/ui/searchdialog.tsx:20-22 | the scanning `includes` holds exactly when the query occurs at some index |
| `Text.ContainsLowerSpec` | src/components/ui/searchdialog.tsx:20-22 | matching against the lower-cased text scan for scan equals matching the lower-cased string |
| `SearchIndex.Fields` | src/search/searchindex.ts:2-6 | an item's searchable fields are its title, its path and then its keywords, if it has any |
| `SearchIndex.CatalogPathsRooted` | src/search/searchindex.ts:8-25 | the catalog has 16 entries and every path starts with "/" |
| `SearchIndex.CatalogPathsDistinct` | src/search/searchindex.ts:9-24 | no two catalog entries share a path |
| `SearchIndex.FirstEightTitles` | src/search/searchindex.ts:9-16 | the first eight titles are Home to Cloud & Data in catalog order |
| `SearchIndex.KeywordlessEntries` | src/search/searchindex.ts:9-24 | exactly Home, Timeline, Future Work and Lessons Learned have no keywords |
| `Search.Normalize` | src/components/ui/searchdialog.tsx:11-13 | normalizing never lengthens the text |
| `Search.NormalizeSpec` | src/components/ui/searchdialog.tsx:11-13 | a normalized string has no capitals and no whitespace at either end |
| `Search.NormalizeBlank` | src/components/ui/searchdialog.tsx:18 | the normalized query is empty exactly when the query is all whitespace |
| `Search.NormalizedMatch` | src/components/ui/searchdialog.tsx:20-22 | a field contains the normalized query exactly when its lower-cased text does, for fields without outer whitespace |
| `Search.SomeKeywordSpec` | src/components/ui/searchdialog.tsx:21 | `keywords.some(...)` holds exactly when some keyword, normalized, contains the query |
| `Search.Score` | src/components/ui/searchdialog.tsx:16-24 | the score lies in 0..6 and is 0 for a blank query |
| `Search.ScorePositive` | src/components/ui/searchdialog.tsx:16-24 | the score is positive exactly when the query is not blank and the title, a keyword or the path contains it |
| `Search.TitleMatchNotOutranked` | src/components/ui/searchdialog.tsx:15-23 | an entry whose title matches scores at least 3 and never below an entry whose title does not match |
| `Search.NoKeywordBonus` | src/components/ui/searchdialog.tsx:21 | an entry without keywords scores 0, 1, 3 or 4, never with the +2 |
| `Search.Hits` | src/components/ui/searchdialog.tsx:47-49 | the scored list holds only catalog entries with their own positive scores |
| `Search.HitsComplete` | src/components/ui/searchdialog.tsx:47-49 | every catalog entry with a positive score is among the hits |
| `Search.Results` | src/components/ui/searchdialog.tsx:45-53 | the dialog lists at most 10 entries, each of them a catalog entry; `BlankQueryResults`, `ResultsOfQuery`, `ResultsRanked`, `ResultsKeepCatalogOrder` and `ResultsComplete` below state the order and completeness |
| `Search.ItemsOfHits` | src/components/ui/searchdialog.tsx:47-49 | the hits keep, score by score, the catalog's entries in catalog order |
| `Search.BlankQueryResults` | src/components/ui/searchdialog.tsx:46 | a blank query lists the first 8 catalog entries in catalog order |
| `Search.ResultsOfQuery` | src/components/ui/searchdialog.tsx:47-52 | a non-blank query lists the items of the first 10 hits after a stable descending sort |
| `Search.ResultsRanked` | src/components/ui/searchdialog.tsx:47-52 | at most 10 results, each a catalog entry with positive score, in non-increasing score order |
| `Search.ResultsKeepCatalogOrder` | src/components/ui/searchdialog.tsx:50 | the results of any one score appear as a prefix of the catalog's entries of that score, in catalog order |
| `Search.ResultsComplete` | src/components/ui/searchdialog.tsx:47-52 | a positively scored entry is left out only when there were more than 10 hits, and then it scores no higher than the tenth result |
| `Search.FewMatchesAllListed` | src/components/ui/searchdialog.tsx:47-52 | with at most 10 hits, every positively scored entry is listed |
| `Search.SingleResult` | src/components/ui/searchdialog.tsx:47-52 | when exactly one entry scores above 0, it is the only result |
| `Ranking.StableSortDesc` | src/components/ui/searchdialog.tsx:50 | the sorted list is in non-increasing score order and is a permutation of its input |
| `Ranking.SortStable` | src/components/ui/searchdialog.tsx:50 | entries of equal score keep their relative order through the sort |
| `Ranking.InsertPerm` | src/components/ui/searchdialog.tsx:50 | one insertion step adds exactly the inserted hit |
| `Ranking.InsertSorted` | src/components/ui/searchdialog.tsx:50 | one insertion step keeps the list sorted |
| `Ranking.Take` | src/components/ui/searchdialog.tsx:52 | `slice(0, n)` is the first `min(n, length)` elements |
| `Ranking.DroppedRanksBelow` | src/components/ui/searchdialog.tsx:50-52 | a sorted hit that is cut off the first `n` scores no higher than the `n`-th |
| `SearchExamples.FirmwareQuery` | src/search/searchindex.ts:14 | "firmware" lists exactly the Firmware page, with score 4 |
| `SearchExamples.DataQuery` | src/search/searchindex.ts:16 | "data" lists exactly Cloud & Data, with the maximal score 6 |
| `SearchExamples.BomQuery` | src/search/searchindex.ts:12 | "BOM" and "bom" list exactly Parts List, with score 2 from the keyword alone |
| `SearchDialog.NextDown` | src/components/ui/searchdialog.tsx:64 | ArrowDown moves to `min(active + 1, len - 1)`: one step down from any index before the last, staying on the last, and -1 with no results |
| `SearchDialog.NextUp` | src/components/ui/searchdialog.tsx:65 | ArrowUp moves to `max(active - 1, 0)`, never below 0 |
| `SearchDialog.Selected` | src/components/ui/searchdialog.tsx:68 | `results[active]` exists exactly when the index is in range, and is that element |
| `SearchDialog.LowerIsK` | src/components/ui/searchdialog.tsx:129 | `key.toLowerCase() === "k"` holds exactly for "k" and "K" |
| `SearchDialog.IsSearchHotkey` | src/components/ui/searchdialog.tsx:128-133 | the hotkey holds exactly when Ctrl or Meta is held with k or K, or "/" is pressed with neither modifier (the lower-casing is resolved by `SearchDialog.LowerIsK`) |
| `SearchDialog.Dialog.constructor` | src/components/ui/searchdialog.tsx:26-30 | a new dialog is closed, with an empty query and `active` 0 |
| `SearchDialog.Dialog.SetOpen` | src/components/ui/searchdialog.tsx:32-43 | opening clears the query, zeroes `active` and locks scrolling; closing unlocks it; nothing else changes |
| `SearchDialog.Dialog.EditQuery` | src/components/ui/searchdialog.tsx:86 | editing the query changes only the query, never `active` |
| `SearchDialog.Dialog.Go` | src/components/ui/searchdialog.tsx:55-60 | navigating closes the dialog, unlocks scrolling, moves to the item's path and scrolls to the top |
| `SearchDialog.Dialog.Hover` | src/components/ui/searchdialog.tsx:111 | hovering a result makes it active and changes nothing else |
| `SearchDialog.Dialog.Click` | src/components/ui/searchdialog.tsx:107 | clicking a result navigates to its path and closes the dialog |
| `SearchDialog.Dialog.KeyDown` | src/components/ui/searchdialog.tsx:62-70 | Escape closes without navigating; the arrows move `active` as `NextDown`/`NextUp`; Enter navigates only when `results[active]` exists; other keys change nothing |
| `ContactCommon.ContactSubject` | api/contact.js:50 | the outgoing subject is "[Contact] " followed by the submitted subject |
| `ContactCommon.JoinedText` | api/contact.tsx:28-34 | the newline-joined text is the Name/Email/Subject header, a blank line, then the message, with no newline after it |
| `ContactCommon.FindChar` | api/contact.tsx:17 | the scan finds the first occurrence of the character, or reports that there is none |
| `ContactCommon.EmailShape` | api/contact.tsx:17 | an accepted address has at least five characters and does not start with "@"; `EmailShapeMatchesPattern` below ties it to the regular expression |
| `ContactCommon.HasInnerDotSpec` | api/contact.tsx:17 | the domain scan from a position holds exactly when a "." occurs at or after it and before the last character |
| `ContactCommon.EmailShapeMatchesPattern` | api/contact.tsx:17 | the executable shape check accepts exactly the strings the regular expression `^[^\s@]+@[^\s@]+\.[^\s@]+$` matches |
| `ContactCommon.EmailShapeSound` | api/contact.tsx:17 | whatever the shape check accepts matches the regular expression |
| `ContactCommon.EmailShapeComplete` | api/contact.tsx:17 | whatever the regular expression matches passes the shape check |
| `ContactCommon.EmailShapeFacts` | api/contact.tsx:17 | an accepted address has no whitespace, exactly one "@" and a non-empty local part |
| `ContactCommon.EmailShapeAccepts` | api/contact.tsx:17 | "a@b.com" is accepted |
| `ContactCommon.EmailShapeNeedsDot` | api/contact.tsx:17 | "a@b" is rejected |
| `ContactCommon.EmailShapeDotNotFirst` | api/contact.tsx:17 | "a@.b" is rejected |
| `ContactCommon.EmailShapeDotNotLast` | api/contact.tsx:17 | "a@b." is rejected |
| `ContactNode.Sender` | api/contact.js:12-13 | the sender is `CONTACT_FROM_EMAIL` when set and non-empty, otherwise the default address |
| `ContactNode.Concat` | api/contact.js:29 | no chunks concatenate to no bytes |
| `ContactNode.ConcatAppend` | api/contact.js:28-29 | `Buffer.concat` of two runs of chunks one after the other is the concatenation of the two, so the bytes keep the order the chunks arrived in |
| `ContactNode.BodyForm` | api/contact.js:25-33 | a present `req.body` is used as is; an unparsable stream becomes the empty form |
| `ContactNode.ReadBody` | api/contact.js:24-31 | the chunk loop gathers the whole stream and yields exactly the form `BodyForm` describes, or reports that the stream failed exactly when no body was attached and the stream errored |
| `ContactNode.ServerResponse.constructor` | api/contact.js:2 | a fresh response has status 200, no content type and no body |
| `ContactNode.ServerResponse.SetJsonHeader` | api/contact.js:6 | sets the JSON content type and nothing else |
| `ContactNode.ServerResponse.End` | api/contact.js:7 | records the body and nothing else |
| `ContactNode.Relay` | api/contact.js:2-74 | a payload goes out only for a POST with key and recipient configured, a readable stream and all four fields truthy; `{ok:true}` is answered only when a payload went out, with status 200 |
| `ContactNode.Answer` | api/contact.js:59-73 | the provider's reply gives `{ok:true}` exactly when it was an acceptance, always with 200 and the JSON header; a thrown call gives 500 with the JSON header |
| `ContactNode.Handle` | api/contact.js:2-74 | the handler, run step by step on the response object, writes exactly the status, header and body `Relay` gives and posts exactly its payload, including the 500 of a failed stream read |
| `ContactNode.MethodGate` | api/contact.js:4-8 | any method but POST gets 405 "Method not allowed (use POST)" with nothing sent |
| `ContactNode.ConfigChecked` | api/contact.js:15-22 | a missing API key gives 500 before the recipient is checked; a missing recipient gives 500; both come before the body |
| `ContactNode.PostsExactlyWhenChecksPass` | api/contact.js:33-57 | the provider is called exactly when method, key, recipient, a readable body and all four fields are present; missing fields give 400 |
| `ContactNode.MalformedBodyRefused` | api/contact.js:30-37 | a body stream that fails to parse ends in the 400 missing-fields answer |
| `ContactNode.StreamFailureRefused` | api/contact.js:27-28 | a request stream that errors while being read lands in the `catch` (lines 68-73): 500, the JSON header, the error's message or "Unexpected error", and no provider call |
| `ContactNode.PayloadContents` | api/contact.js:40-57 | the request carries the bearer key, the sender, `[to]`, `reply_to` = email, the prefixed subject and the header-plus-message text ending in "\n" |
| `ContactNode.ProviderOutcomes` | api/contact.js:59-73 | a refusal gives its status (502 when absent) and never ok; acceptance gives 200 ok; a throw gives 500 with its message or "Unexpected error" |
| `ContactNode.OkOnlyWhenAccepted` | api/contact.js:59-67 | `{ok:true}` is answered exactly when a payload was sent and the provider accepted it |
| `ContactNode.BlankLookingFieldsPass` | api/contact.js:33-34 | whitespace-only fields count as present and are relayed |
| `ContactNode.TextIsJoinedTextWithNewline` | api/contact.js:51-55 | this handler's text is the other handlers' text plus a trailing newline |
| `ContactVercel.MethodGate` | api/contact.tsx:8 | any method but POST gets 405 "Method not allowed" with nothing sent |
| `ContactVercel.Handle` | api/contact.tsx:6-47 | a message is sent only for a POST whose four fields are truthy and whose address has the e-mail shape; `{ok:true}` with 200 exactly when it was sent and the send returned no error |
| `ContactVercel.FieldsBeforeShape` | api/contact.tsx:11-15 | an absent body, or any missing field, gives 400 "Missing required fields" before the e-mail shape is looked at |
| `ContactVercel.InvalidEmailExactly` | api/contact.tsx:17-18 | with all fields present, the answer is 400 "Invalid email" exactly when the address does not match the regular expression |
| `ContactVercel.SendsExactly` | api/contact.tsx:10-35 | a message is sent exactly for a POST whose fields are all present and whose address matches |
| `ContactVercel.MessageContents` | api/contact.tsx:23-35 | the message has the configured from and to, `replyTo` = email, the prefixed subject and the joined text without a trailing newline |
| `ContactVercel.ResultMapping` | api/contact.tsx:37-45 | a sent message answers 200 only when the send returned without an error, and 500 "Failed to send message" otherwise |
| `ContactVercel.OkOnlyWhenClean` | api/contact.tsx:37-42 | `{ok:true}` is answered exactly when a message was sent and the send reported no error |
| `ContactNext.MethodGate` | src/pages/api/contact.tsx:7 | any method but POST gets 405 "Method not allowed" with nothing sent |
| `ContactNext.Handle` | src/pages/api/contact.tsx:6-41 | a message is sent only for a POST whose four fields are truthy and whose address has the e-mail shape; `{ok:true}` with 200 exactly when it was sent and the send did not throw |
| `ContactNext.Gates` | src/pages/api/contact.tsx:10-17 | missing fields give 400 "Missing required fields"; otherwise 400 "Invalid email" exactly when the address does not match |
| `ContactNext.MessageContents` | src/pages/api/contact.tsx:22-34 | the message has the configured from and to, `reply_to` = email, the prefixed subject and the joined text |
| `ContactNext.ResultIgnored` | src/pages/api/contact.tsx:22-40 | once the message is sent the answer is 200 whatever the send returned, and 500 only when the send threw |
| `ContactNext.AgreesWithServerless` | src/pages/api/contact.tsx:6-41 | this handler sends the same message as `api/contact.tsx` for every input, and answers the same except when the provider returned an error |
| `PageUrl.SplitCamel` | src/utils/index.tsx:2 | inserting spaces never shortens the name |
| `PageUrl.SplitCamelInsertsAtBoundaries` | src/utils/index.tsx:2 | the global replace inserts one space before each upper-case letter that follows a lower-case one, and nowhere else |
| `PageUrl.Hyphenate` | src/utils/index.tsx:3 | the result has no whitespace, adds no capitals, and leaves text without whitespace as it is |
| `PageUrl.HyphenateAppend` | src/utils/index.tsx:3 | replacing whitespace runs distributes over a split that does not cut a run |
| `PageUrl.HyphenateRun` | src/utils/index.tsx:3 | a whole whitespace run becomes a single "-" |
| `PageUrl.HyphenateJoinsWords` | src/utils/index.tsx:3 | two words around a whitespace run are joined by one "-" |
| `PageUrl.Slug` | src/utils/index.tsx:2-3 | a slug has no whitespace and no upper-case letter |
| `PageUrl.CreatePageUrl` | src/utils/index.tsx:1-6 | the URL starts with "/", has no whitespace or capitals, and is "/" exactly when the slug is "home" or empty |
| `PageUrl.PlainNameIsItsOwnSlug` | src/utils/index.tsx:2-5 | a name with no capitals and no whitespace is its own slug, and its URL is "/" + name unless it is "home" |
| `PageUrl.PlainSlug` | src/utils/index.tsx:2-3 | a name with no whitespace and no lower-to-upper boundary has its lower-cased form as slug |
| `PageUrl.TwoWordSplit` | src/utils/index.tsx:2 | two capitalised words written together are split by exactly one space |
| `PageUrl.TwoWordSlug` | src/utils/index.tsx:2-3 | two capitalised words give the lower-cased words joined by "-" |
| `PageUrl.OneWordUrl` | src/utils/index.tsx:1-6 | a capitalised word other than Home links to "/" and the word lower-cased |
| `PageUrl.TwoWordUrl` | src/utils/index.tsx:1-6 | a two-word camel-case name links to "/" + first + "-" + second, lower-cased |
| `PageUrl.HomeIsRoot` | src/utils/index.tsx:4-5 | `createPageUrl("Home")` is "/" |
| `PageUrl.CapitalsExample` | src/utils/index.tsx:2 | a run of capitals is not split: "ABC" links to "/abc" |
| `NavNames.HomeName` | src/Layout.tsx:16 | a one-word name that lower-cases to "home" links to "/" |
| `NavNames.OneWordName` | src/Layout.tsx:21 | a one-word navigation name links to its lower-cased word |
| `NavNames.TwoWordName` | src/Layout.tsx:17 | a two-word navigation name links to its hyphenated lower-cased words |
| `NavRoutes.CamelExamples` | src/utils/index.tsx:2-3 | "ProjectBackground" links to "/project-background" and "TeamContact" to "/team-contact" |
| `NavRoutes.NavUrlAt` | src/Layout.tsx:15-32 | the item at position k links to the k-th page route of the table |
| `NavRoutes.NavUrlsArePageRoutes` | src/App.tsx:33-48 | every navigation item's `createPageUrl` path is the page route in the same position, as the keep-in-sync comment requires |
| `NavRoutes.NavLinksRender` | src/App.tsx:30-48 | no navigation link falls into a redirect: each renders a page |
| `NavRoutes.AtMostOneActive` | src/Layout.tsx:101 | on any path at most one navigation item is highlighted |
| `NavRoutes.ActiveOnPagePath` | src/Layout.tsx:158 | on a page route's path exactly the item in the same position is highlighted |
| `Routes.PagePaths` | src/App.tsx:30-48 | there are 16 page routes |
| `Routes.TableShape` | src/App.tsx:30-48 | the table has 17 routes: "/home" redirects to "/", every other one renders a page |
| `Routes.Lookup` | src/App.tsx:26-52 | matching finds the first route with exactly the path, or reports that none has it |
| `Routes.Resolve` | src/App.tsx:26-52 | an unlisted path gets the catch-all, and a listed one its own element |
| `Routes.Land` | src/App.tsx:30-51 | following the router's redirects: no redirect exactly when the path renders directly, and no page only after two redirects in a row; `AtMostOneRedirect` shows that never happens |
| `Routes.HomeRoutes` | src/App.tsx:30-31 | "/" renders Home and "/home" redirects to "/" |
| `Routes.TablePathsDistinct` | src/App.tsx:30-48 | no two listed routes share a path |
| `Routes.PagePathsDistinct` | src/App.tsx:30-48 | the 16 page paths are pairwise distinct |
| `Routes.ResolveListed` | src/App.tsx:30-48 | each listed path resolves to its own element |
| `Routes.PagePathRenders` | src/App.tsx:30-48 | each page path renders a page |
| `Routes.UnlistedRedirectsHome` | src/App.tsx:51 | any path not listed redirects to "/" |
| `Routes.RedirectsGoHome` | src/App.tsx:31 | every redirect goes to "/" |
| `Routes.AtMostOneRedirect` | src/App.tsx:31 | every path reaches a page after at most one redirect, and Home when there was one |
| `Routes.CatalogPathsArePageRoutes` | src/App.tsx:30-48 | each search catalog path is the page route in the same position, so search never lands on the catch-all |
| `Layout.Concat` | src/Layout.tsx:16 | a one-word name is the word itself |
| `Layout.Url` | src/Layout.tsx:16-31 | every item's link is `createPageUrl` of its page name: it starts with "/" and holds no whitespace and no capital |
| `Layout.IsActive` | src/Layout.tsx:101 | an item is highlighted only on a path equal to its link, so only on a path that starts with "/" |
| `Layout.BarItems` | src/Layout.tsx:99 | the bar shows at most the first six items, and exactly six when there are that many |
| `Layout.MoreItems` | src/Layout.tsx:124 | "More" shows all items after the sixth |
| `Layout.BarAndMorePartition` | src/Layout.tsx:99-124 | the bar and "More" together list every item exactly once, in order |
| `Layout.SiteSplit` | src/Layout.tsx:15-32 | the 16 items split into Home to Firmware in the bar and 10 items from Mobile App in "More" |
| `Layout.NavBar.constructor` | src/Layout.tsx:36-39 | the bar starts transparent, shown, at offset 0, with the menu closed |
| `Layout.NavBar.Scroll` | src/Layout.tsx:44-49 | after a scroll to y, `scrolled` is y > 20, `hidden` is y > last offset and y > 100, y is remembered, and nothing else changes |
| `Layout.NavBar.ToggleMenu` | src/Layout.tsx:145 | the menu button flips the mobile menu and nothing else |
| `Layout.NavBar.Navigate` | src/Layout.tsx:54 | a route change records the new path and closes the mobile menu; staying on the same path leaves it as it was |
| `Documentation.ServiceOf` | src/pages/Documentation.tsx:108-117 | an omitted Drive kind means a document |
| `Documentation.ExportedFormat` | src/pages/Documentation.tsx:119-150 | an export format is chosen exactly when the kind is not a generic Drive file |
| `Documentation.DriveViewUrl` | src/pages/Documentation.tsx:108-117 | the view link starts with the address of the service the kind selects, followed by the file id unchanged; `ViewUrlRoundTrip` reads both back |
| `Documentation.DriveExportUrl` | src/pages/Documentation.tsx:119-150 | the export link starts with the service's address (the download endpoint for a plain file), followed by the file id; a plain file's link is exactly the download endpoint and the id; `ExportUrlRoundTrip` reads service, id and format back |
| `Documentation.ViewUrlRoundTrip` | src/pages/Documentation.tsx:108-117 | the view URL can be read back into its service and file id |
| `Documentation.ViewUrlInjective` | src/pages/Documentation.tsx:108-117 | different ids or services never give the same view URL |
| `Documentation.ExportUrlRoundTrip` | src/pages/Documentation.tsx:119-150 | the export URL can be read back into its service, file id and exported format |
| `Documentation.DocumentExports` | src/pages/Documentation.tsx:128-133 | a document's download URL is the Docs export URL for its id and reads back with the chosen format |
| `Documentation.PresentationExports` | src/pages/Documentation.tsx:135-140 | a presentation's download URL is the Slides export URL for its id and reads back with the chosen format |
| `Documentation.SpreadsheetExports` | src/pages/Documentation.tsx:142-146 | a spreadsheet's download URL is the Sheets export URL for its id and reads back with the chosen format |
| `Documentation.FileExports` | src/pages/Documentation.tsx:148-149 | a generic file gets the plain download URL, and the requested format has no effect on it |
| `Documentation.ExportFormatChoice` | src/pages/Documentation.tsx:119-146 | each non-pdf format is chosen only by its own kind and request, and the defaults export pdf |
| `Documentation.FrameOf` | src/pages/Documentation.tsx:110-149 | a URL built from prefix, id and suffix gives back the id |
| `Documentation.ViewLink` | src/pages/Documentation.tsx:367-370 | an explicit view href wins; otherwise a Drive id gives a link starting with its service's address and the id; with neither there is no link |
| `Documentation.DownloadLink` | src/pages/Documentation.tsx:371-374 | an explicit download href wins; otherwise a Drive id gives a link starting with its export address and the id; with neither there is no link |
| `Documentation.LinkPrecedence` | src/pages/Documentation.tsx:367-374 | an explicit href wins; otherwise a Drive id gives the Drive URL; with neither there is no link |
| `Documentation.Rendered` | src/pages/Documentation.tsx:413 | a link is shown exactly when it is present and not empty |
| `Documentation.CardActions` | src/pages/Documentation.tsx:376-424 | only the bill of materials gets the CSV button; any other card shows "Open in Drive" exactly when it has a non-empty view href, or no view href and a Drive id, and the download button likewise, each with the card's own link |
| `DocumentationSite.OnlyBomCard` | src/pages/Documentation.tsx:376 | only the Bill of Materials card gets the CSV button |
| `DocumentationSite.EthicsReportCard` | src/pages/Documentation.tsx:199-209 | the Ethics Report offers only its direct download link |
| `DocumentationSite.SustainabilityReportCard` | src/pages/Documentation.tsx:234-243 | the Sustainability Report offers only the same direct download link as the Ethics Report |
| `DocumentationSite.SlidesCard` | src/pages/Documentation.tsx:268-279 | the final slides open as a presentation preview and download as pptx |
| `DocumentationSite.PosterCard` | src/pages/Documentation.tsx:257-267 | the poster opens as a Drive file and downloads through the generic download URL |
| `DocumentationSite.BomCsv` | src/pages/Documentation.tsx:152-157 | the page's CSV reads back as the header and ten rows of four fields |
| `Csv.DoubleQuotes` | src/pages/Documentation.tsx:155 | doubling quotes never shortens a field and leaves a field without quotes as it is |
| `Csv.DoubleQuotesAppend` | src/pages/Documentation.tsx:155 | doubling quotes works piece by piece |
| `Csv.QuoteInsideDoubled` | src/pages/Documentation.tsx:155 | a quote inside a field becomes two quotes |
| `Csv.Esc` | src/pages/Documentation.tsx:155 | an escaped field is wrapped in double quotes |
| `Csv.EscRoundTrip` | src/pages/Documentation.tsx:155 | reading an escaped field back gives the original field, as in section 2 rule 7 of RFC 4180 |
| `Csv.Line` | src/pages/Documentation.tsx:155-157 | a line of one or more cells starts and ends with a double quote, a one-cell line is that cell escaped, and no cells give an empty line; `ReadLine` reads it back |
| `Csv.ReadQuotedDoubled` | src/pages/Documentation.tsx:155 | reading a doubled-quote body up to its closing quote gives the original text |
| `Csv.Lines` | src/pages/Documentation.tsx:157 | there is one line per row |
| `Csv.Document` | src/pages/Documentation.tsx:156-157 | the CSV text starts with U+FEFF |
| `Csv.DocumentLayout` | src/pages/Documentation.tsx:156-157 | the text is U+FEFF, the header line, then the row lines, all joined by "\n" |
| `Csv.ReadLine` | src/pages/Documentation.tsx:157 | a line of escaped fields joined by "," reads back as its fields |
| `Csv.ReadLines` | src/pages/Documentation.tsx:157 | lines joined by "\n" read back as the rows |
| `Csv.DocumentRoundTrip` | src/pages/Documentation.tsx:152-157 | the whole CSV text reads back as the header followed by the rows |
| `Bom.QtyText` | src/pages/Documentation.tsx:154 | `String(qty)` leaves a text quantity as it is |
| `Bom.CountText` | src/pages/Documentation.tsx:154 | `String(qty)` writes a count as digits whose value is the count |
| `Bom.Row` | src/pages/Documentation.tsx:154 | each row has as many fields as the header |
| `Bom.Rows` | src/pages/Documentation.tsx:154 | there is one row per item, built from that item |
| `Bom.CsvText` | src/pages/PartsList.tsx:79-83 | the exported text starts with U+FEFF |
| `Bom.CsvRoundTrip` | src/pages/PartsList.tsx:68-83 | the exported CSV reads back as the header followed by each item's row |
| `Bom.CsvColumns` | src/pages/PartsList.tsx:68-83 | the exported CSV has one record per item plus the header, each with four fields |
| `Decimal.NatTextValue` | src/pages/PartsList.tsx:72 | a count written in decimal reads back as the count |
| `Decimal.NatTextInjective` | src/pages/PartsList.tsx:72 | different counts are written differently |
| `Decimal.FractionBounds` | src/pages/PartsList.tsx:45 | a ".digits" fraction lies in [0, 1) |
| `PartsList.FirstDigit` | src/pages/PartsList.tsx:45 | the scan stops at the first digit, if any |
| `PartsList.FirstDigitSpec` | src/pages/PartsList.tsx:45 | no digit comes before the first digit found |
| `PartsList.DigitRunSpec` | src/pages/PartsList.tsx:45 | the digit run is all digits and stops at a non-digit |
| `PartsList.NumberAt` | src/pages/PartsList.tsx:45-46 | the number read at a run of digits is at least the run's whole value and below the next whole number |
| `PartsList.ParseCost` | src/pages/PartsList.tsx:43-47 | a parsed cost is never negative; `ParseCostNone` and the lemmas below say when it is `null` and what it is |
| `PartsList.ParseCostNone` | src/pages/PartsList.tsx:46 | the cost is `null` exactly when the text has no digit |
| `PartsList.ParseSkip` | src/pages/PartsList.tsx:45 | text without digits before the number does not change the result |
| `PartsList.ParseWhole` | src/pages/PartsList.tsx:45-46 | digits not followed by ".digit" parse as their whole value |
| `PartsList.ParseDecimal` | src/pages/PartsList.tsx:45-46 | digits, ".", digits parse as whole value plus fraction |
| `PartsList.DollarWhole` | src/pages/PartsList.tsx:44-47 | "$" and digits parse as the whole number |
| `PartsList.DollarDecimal` | src/pages/PartsList.tsx:44-47 | "$", digits, "." and digits parse as the decimal number |
| `PartsList.FirstNumberOnly` | src/pages/PartsList.tsx:43 | only the first number counts when another character follows it |
| `PartsList.RangeExample` | src/pages/PartsList.tsx:43 | "$50-$75" parses as 50 |
| `PartsList.CentsExample` | src/pages/PartsList.tsx:43 | "$2.50" parses as 2.5 |
| `PartsList.WholeExample` | src/pages/PartsList.tsx:43 | "$15" parses as 15 |
| `PartsList.QtyToNumber` | src/pages/PartsList.tsx:49-52 | a numeric quantity is kept and any text quantity counts as 1 |
| `PartsList.Contribution` | src/pages/PartsList.tsx:58-60 | a row whose cost does not parse adds nothing, and no row adds a negative amount |
| `PartsList.Total` | src/pages/PartsList.tsx:55-63 | the total is never negative and is 0 when no cost parses; `TotalAppend` and `Totals` relate it to the loop |
| `PartsList.TotalAppend` | src/pages/PartsList.tsx:55-63 | the total of two lists is the sum of their totals |
| `PartsList.UnpricedRowIgnored` | src/pages/PartsList.tsx:60 | inserting a row without a parsable cost leaves the total unchanged |
| `PartsList.Totals` | src/pages/PartsList.tsx:55-63 | the loop returns the sum of cost times quantity over the priced rows, and the row count |
| `PartsList.TotalSnoc` | src/pages/PartsList.tsx:57-61 | one loop step adds that row's contribution |
| `PartsListSite.RowContribution` | src/pages/PartsList.tsx:14-24 | each of the nine rows contributes its price (15, 3.9, 6, 3, 2, 2, 6, 1, 5.5) |
| `PartsListSite.SiteTotal` | src/pages/PartsList.tsx:14-24 | the nine rows total exactly 44.40 |
| `PartsListSite.CsvQuantities` | src/pages/PartsList.tsx:72 | the CSV quantity column is "50g" and "1ft" for the two labelled rows and "1" for the others |
| `TeamMemberCard.FirstSpaceSpec` | src/components/shared/TeamMemberCard.tsx:14 | the first piece holds no whitespace |
| `TeamMemberCard.SpaceRunSpec` | src/components/shared/TeamMemberCard.tsx:14 | a separator is one whole whitespace run |
| `TeamMemberCard.SplitRuns` | src/components/shared/TeamMemberCard.tsx:14 | splitting on whitespace runs always gives at least one piece |
| `TeamMemberCard.NonEmpty` | src/components/shared/TeamMemberCard.tsx:15 | `filter(Boolean)` keeps only non-empty pieces |
| `TeamMemberCard.FirstTwo` | src/components/shared/TeamMemberCard.tsx:16 | `slice(0, 2)` keeps the first two pieces, or all of them when there are fewer |
| `TeamMemberCard.Initial` | src/components/shared/TeamMemberCard.tsx:17 | a word gives one letter and an empty piece none |
| `TeamMemberCard.GetInitials` | src/components/shared/TeamMemberCard.tsx:12-19 | the initials have at most two letters; `Initials` says which |
| `TeamMemberCard.Words` | src/components/shared/TeamMemberCard.tsx:14-15 | the words of a name are non-empty and hold no whitespace; `SplitWords` shows they are what the split and filter give |
| `TeamMemberCard.SplitWords` | src/components/shared/TeamMemberCard.tsx:14-15 | splitting on whitespace and dropping empty pieces gives exactly the words of the name |
| `TeamMemberCard.WordsNone` | src/components/shared/TeamMemberCard.tsx:14-15 | a name has no words exactly when it is all whitespace |
| `TeamMemberCard.WordsJoin` | src/components/shared/TeamMemberCard.tsx:14-15 | the words around a whitespace run are the words of each side |
| `TeamMemberCard.Initials` | src/components/shared/TeamMemberCard.tsx:12-19 | the initials are the upper-cased first letters of the first two words, so at most two letters |
| `TeamMemberCard.InitialsBlank` | src/components/shared/TeamMemberCard.tsx:14-18 | the initials are empty exactly when the name is all whitespace |
| `TeamMemberCard.InitialsLeadingSpace` | src/components/shared/TeamMemberCard.tsx:14-15 | leading whitespace does not change the initials |
| `TeamMemberCard.InitialsTrailingSpace` | src/components/shared/TeamMemberCard.tsx:14-15 | trailing whitespace does not change the initials |
| `TeamMemberCard.InitialsGap` | src/components/shared/TeamMemberCard.tsx:14 | the length of a gap between words does not change the initials |
| `TeamMemberCard.TwoWordInitials` | src/components/shared/TeamMemberCard.tsx:12-19 | two words give their two upper-cased first letters |
| `TeamMemberCard.FirstTwoOnly` | src/components/shared/TeamMemberCard.tsx:16 | words after the second do not change the initials |
| `TeamMemberCard.DustinConger` | src/components/shared/TeamMemberCard.tsx:12-19 | "Dustin Conger" gives "DC" |
| `TeamMemberCard.OwenWarrington` | src/components/shared/TeamMemberCard.tsx:12-19 | "owen warrington" gives "OW" |
| `TeamMemberCard.ThreeWords` | src/components/shared/TeamMemberCard.tsx:16 | "A B C" gives "AB" |
| `TeamMemberCard.Avatar.constructor` | src/components/shared/TeamMemberCard.tsx:23 | with a photo the flag starts unknown and the image shows; without one it starts false |
| `TeamMemberCard.Avatar.Shown` | src/components/shared/TeamMemberCard.tsx:29-41 | the card shows the photo when the flag allows it, otherwise the name's initials |
| `TeamMemberCard.Avatar.OnLoad` | src/components/shared/TeamMemberCard.tsx:34 | a loaded image sets the flag to true and keeps showing |
| `TeamMemberCard.Avatar.OnError` | src/components/shared/TeamMemberCard.tsx:35 | a failed image sets the flag to false and the card falls back to the initials |
| `TestingResults.Percent` | src/pages/TestingResults.tsx:94-96 | a percentage is defined exactly when its denominator is not 0 |
| `TestingResults.PercentBounds` | src/pages/TestingResults.tsx:94-96 | a part of a whole is between 0 and 100 percent |
| `TestingResults.PercentEnds` | src/pages/TestingResults.tsx:94-96 | a percentage is 100 exactly when the part is the whole, and 0 exactly when the part is empty |
| `TestingResults.FprDenominator` | src/pages/TestingResults.tsx:96 | `FP + TN \|\| 1` is at least 1 and at least FP |
| `TestingResults.Accuracy` | src/pages/TestingResults.tsx:94 | accuracy is defined exactly when there is at least one run, and lies in [0, 100] |
| `TestingResults.Recall` | src/pages/TestingResults.tsx:95 | recall is defined exactly when there is at least one leak run, and lies in [0, 100] |
| `TestingResults.FalsePositiveRate` | src/pages/TestingResults.tsx:96 | the false-positive rate is always defined and lies in [0, 100] |
| `TestingResults.MetricEnds` | src/pages/TestingResults.tsx:94-96 | full accuracy means no misclassified run, full recall no missed leak, and a zero false-positive rate no false alert |
| `TestingResults.Tally` | src/pages/TestingResults.tsx:82-92 | without leak scenarios there are no true positives and no false negatives; with only leak scenarios no false positives and no true negatives; with no alerts no positives at all |
| `TestingResults.TallyTotal` | src/pages/TestingResults.tsx:92 | every run lands in exactly one cell, so the total is the number of runs |
| `TestingResults.PageCountsFromScenarios` | src/pages/TestingResults.tsx:38-92 | the scenarios (5 idle runs, 5 drip runs with 4 detected, 3 half-blast and 5 full-blast runs) tally to TP 4, FN 1, FP 0 and TN 13, 18 runs in all |
| `TestingResults.PageMetrics` | src/pages/TestingResults.tsx:94-96 | accuracy is 17/18 × 100, recall 80 and the false-positive rate 0 |

## Left out

- Floating point: costs and percentages are exact reals. `toFixed(1)` and `toFixed(2)` rounding (src/pages/PartsList.tsx:65, src/pages/TestingResults.tsx:94-96) and IEEE rounding of `2.5 * 1` and the like are not modelled.
- Case mapping and whitespace are ASCII letters plus the ECMAScript whitespace set. Unicode case mapping and the `?.toUpperCase()` of non-ASCII first letters are not modelled.
- Network, SDK and environment are inputs:
  - `fetch`, the Resend SDK, `process.env` and `console.error` are not modelled;
  - `JSON.parse` of the request stream is the parameter `parse`, and UTF-8 decoding of the chunks is part of it;
  - `JSON.stringify` of the replies is an abstract `Reply` value;
  - the provider's JSON and its failure to parse are an abstract `Outcome`.
- The three handlers' `catch` blocks are reached, in the model, by a thrown provider call and, in api/contact.js, by a request stream that errors while it is read (`ContactNode.StreamFailureRefused`). The destructuring `body || {}` and `req.body ?? {}` cannot throw. Other exceptions, such as a failing `JSON.stringify` of the reply, are not modelled.
- `ContactCommon.Form`: the four fields are strings or absent. A JSON body whose fields hold other values is not modelled: `0` or `false` would be falsy and refused with 400, `true` or a number would be rendered into the text as its string, and an array address would pass the regular expression by coercion and go out as `replyTo` unchanged.
- `Layout.NavBar.Scroll` compares with the offset of the previous scroll event. The source's handler reads `lastScrollY` from the closure of the last render and is registered again whenever it changes (src/Layout.tsx:43-52), so two scroll events before a re-render both compare with the older offset. Render timing is not modelled.
- `TeamMemberCard.Initial` takes the first character as a whole code point. JavaScript's `n[0]` (src/components/shared/TeamMemberCard.tsx:17) takes the first UTF-16 code unit, which for a character outside the Basic Multilingual Plane is a lone surrogate.
- DOM effects are not modelled:
  - Blob, `URL.createObjectURL` and the anchor click of the CSV download;
  - `window.scrollTo` beyond setting the offset to 0;
  - `addEventListener`;
  - the focus `setTimeout`.

  The body scroll lock is a boolean.
- react-router is not modelled beyond exact string matching in table order, with redirects followed. Case-insensitive matching and trailing slashes are not modelled.
- The download button's `target`, `download` and label attributes (src/pages/Documentation.tsx:428-436) are not modelled.
- The repository list and page text of the Documentation page are not modelled.
- Data inconsistencies are recorded, not corrected:
  - the Parts List categories (src/pages/PartsList.tsx:27-41) do not all name BOM items;
  - the Documentation BOM (src/pages/Documentation.tsx:44-105) differs from the Parts List BOM;
  - the Sustainability Report reuses the Ethics Report's download link.
- `TeamContact.tsx`'s `handleSubmit` is not part of this model: it calls no contact endpoint and only resets local state behind a timer.
- The static content pages and UI primitives have no logic and are not modelled.
- Quantities that are numbers on the site are whole counts (`nat`), so `String(qty)` is proved only for whole numbers.
- Long product links in the two bills of materials are shortened to their sites. The CSV properties hold for any link text.
- `Decimal.Fraction` is defined as the digits' value over the matching power of ten. Only its bounds are proved, not its agreement with JavaScript's `Number` parsing of the digits.
- The search model follows the code where the prose description of the search differs:
  - `active` is not reset when the query is edited;
  - ArrowDown with no results gives -1, not a clamped 0.
