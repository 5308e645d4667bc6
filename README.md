# DocFetcher search queue and result documents, in Dafny

This project models the search/filter coordination core of DocFetcher.

- **The event set.** The search bar and the size, type and location panels add event kinds to one pending set. The search bar also overwrites the single query field. The worker takes the whole set at once and leaves it empty.
- **One worker pass.** A pass does up to four things, in order:
  - it runs the search when a search is pending, and on failure clears the results and reports the backend's message;
  - it rebuilds the parser (file type) filter when that filter is missing or a type change is pending;
  - it rebuilds the location filter when that filter is missing or a location change is pending;
  - when there are results, it filters them and publishes the survivors with the two header flags (some file index, some email index).
- **The result filter.** A document survives when:
  - its size in kilobytes lies within the inclusive bounds;
  - it is an email, or it passes the parser check;
  - it passes the location check.

  The filter keeps the survivors in their original order.
- **Result documents.** A result document is a read-only view over a stored index document. It is a file or an email, fixed when it is built. File-only accessors fail on emails, and email-only accessors fail on files. It computes a title, an author string, a size in whole kilobytes (rounded up), a parser name, a path and a parent path; the size, parser name, path and parent path are cached on first use.

Layout:

- `common.dfy` (module `Common`):
  - `Option` and `Result`;
  - Java's truncating `/` and `%`;
  - `Long.valueOf` as `ParseLong`, with its round trip through the decimal text of a number;
  - joining strings with a separator.
- `result_document.dfy` (module `ResultDocuments`): the class `ResultDocument`, with:
  - `const` fields for what is fixed at construction;
  - `var` fields for the four caches;
  - pure functions giving the values the caches hold;
  - memoising methods proved against those functions.
- `search_filter.dfy` (module `SearchFilter`):
  - the filter as a specification function `Filter`, with the loop `ApplyFilters` proved equal to it;
  - the parser snapshot, as the function `CheckedParserNames` and the loop `BuildParserFilter`;
  - the location snapshot;
  - the header-flag loop.
- `search_queue.dfy` (module `SearchQueues`):
  - `PassSpec`, one pass as a function from the worker state before the pass to the state after it and what the user is shown;
  - the lemmas about `PassSpec`;
  - the class `SearchQueue`, whose methods change the pending set, the query and the worker fields in place; `RunPass` and `ThreadLoop` are proved against `PassSpec`.

Collaborators whose code is outside this model are parameters of the model:

- the search backend is a function from query to outcome (`Collaborators.backend`);
- the type panel's parser states, the checked paths and folder count, the size bounds and the kinds of the indexes are values in `Collaborators`;
- `DocumentType.isEmailType`, `DocumentType.extractPath`, `Util.splitPathLast` and `Util.splitFilename` are the function-valued fields of `Externals`, given to each document when it is built.

The checked locations arrive as a list; the location rebuild compares the list's length with the folder count, not the size of the set built from it (`SearchQueue.java:209-212`).

## Model

| member | source | states |
|---|---|---|
| Common.JavaDiv | src/net/sourceforge/docfetcher/model/search/ResultDocument.java:119 | Java `long` division truncates toward zero: for a non-negative dividend `q * b` is the largest multiple of `b` not above it, for a negative one the smallest multiple not below it |
| Common.JavaRem | src/net/sourceforge/docfetcher/model/search/ResultDocument.java:118 | Java `%` is what is left after the truncating quotient; it lies strictly between -1024 and 1024 and takes the sign of the dividend |
| Common.KiloBytesIsCeiling | src/net/sourceforge/docfetcher/model/search/ResultDocument.java:117-119 | for a non-negative byte count, the kilobyte size is the least number of whole kilobytes that holds it: `(bytes + 1023) / 1024` |
| Common.KiloBytesCases | src/net/sourceforge/docfetcher/model/search/ResultDocument.java:118-119 | an exact multiple of 1024 converts to `bytes / 1024`; any other non-negative size converts to `bytes / 1024 + 1` |
| Common.ParseLong | src/net/sourceforge/docfetcher/model/search/ResultDocument.java:117 | `Long.valueOf`: the text parses exactly when, after an optional `+` or `-`, it is a non-empty run of decimal digits whose signed value lies in the `long` range; the value is then that signed value; otherwise it is a number-format failure (`None`) |
| Common.ParseSignedDecimal | src/net/sourceforge/docfetcher/model/search/ResultDocument.java:117 | "+" before a decimal keeps its value and "-" negates it, down to `Long.MIN_VALUE`; a decimal beyond the range does not parse, with or without a sign |
| Common.ParseRejectsMalformed | src/net/sourceforge/docfetcher/model/search/ResultDocument.java:117 | "", "-" and "+" do not parse, and neither does text with a non-digit after the optional sign |
| Common.ParseDecimal | src/net/sourceforge/docfetcher/model/search/ResultDocument.java:117 | round trip: parsing the decimal text of any size up to `Long.MAX_VALUE` gives that size back |
| Common.JoinLength | src/net/sourceforge/docfetcher/model/search/ResultDocument.java:172 | the joined string is as long as all parts together plus one separator between each two |
| Common.JoinEndsWithLast | src/net/sourceforge/docfetcher/model/search/ResultDocument.java:172 | the joined string ends with the last part, right after the other parts and their separators |
| Common.JoinSeparatesParts | src/net/sourceforge/docfetcher/model/search/ResultDocument.java:172 | right after each part but the last, the joined string holds the separator |
| Common.JoinContainsParts | src/net/sourceforge/docfetcher/model/search/ResultDocument.java:172 | every part occurs in the joined string, in order, at the offset given by the parts and separators before it |
| ResultDocuments.Get | src/net/sourceforge/docfetcher/model/search/ResultDocument.java:100-102 | a stored field yields its first value exactly when it holds at least one; otherwise it yields null (`None`) |
| ResultDocuments.ResultDocument.constructor | src/net/sourceforge/docfetcher/model/search/ResultDocument.java:59-85 | the uid is the stored UID field; `isEmail` is fixed from the uid; every cache starts empty and the size cache starts at -1 |
| ResultDocuments.ResultDocument.GetSizeInKB | src/net/sourceforge/docfetcher/model/search/ResultDocument.java:113-122 | returns the stored byte size rounded up to kilobytes, or a number-format failure when the size does not parse; it fills the cache only when the cache is negative, and otherwise leaves it as it was |
| ResultDocuments.ResultDocument.GetParserName | src/net/sourceforge/docfetcher/model/search/ResultDocument.java:126-131 | returns the stored parser name and leaves it cached |
| ResultDocuments.ResultDocument.GetPath | src/net/sourceforge/docfetcher/model/search/ResultDocument.java:154-158 | returns the path extracted from the uid and leaves it cached |
| ResultDocuments.ResultDocument.GetParentPath | src/net/sourceforge/docfetcher/model/search/ResultDocument.java:161-165 | returns the first component of splitting `getPath()` at its last separator and leaves it cached; the path is cached too when it was computed on the way |
| ResultDocuments.ResultDocument.Guard | src/net/sourceforge/docfetcher/model/search/ResultDocument.java:87-95 | a file-only accessor fails with the unsupported-operation error exactly on emails, and an email-only accessor fails exactly on files |
| ResultDocuments.ResultDocument.GetFilename | src/net/sourceforge/docfetcher/model/search/ResultDocument.java:134-137 | fails exactly on emails; on files gives the stored file name |
| ResultDocuments.ResultDocument.GetSender | src/net/sourceforge/docfetcher/model/search/ResultDocument.java:140-143 | fails exactly on files; on emails gives the stored sender |
| ResultDocuments.ResultDocument.GetLastModified | src/net/sourceforge/docfetcher/model/search/ResultDocument.java:178-182 | fails on emails; on files succeeds exactly when the stored time parses as a `long`, and then gives that value |
| ResultDocuments.ResultDocument.GetDate | src/net/sourceforge/docfetcher/model/search/ResultDocument.java:185-189 | fails on files; on emails succeeds exactly when the stored date parses as a `long`, and then gives that value |
| ResultDocuments.ResultDocument.FileResourcePath | src/net/sourceforge/docfetcher/model/search/ResultDocument.java:269-274 | fails exactly on emails; on files gives the path the file resource is created for |
| ResultDocuments.ResultDocument.TextSource | src/net/sourceforge/docfetcher/model/search/ResultDocument.java:211-224 | fails exactly on emails; on files gives the stored parser name and the path that text extraction is given |
| ResultDocuments.ResultDocument.PdfPagesSource | src/net/sourceforge/docfetcher/model/search/ResultDocument.java:234-256 | fails exactly on emails; on files gives the path whose PDF pages are read |
| ResultDocuments.ResultDocument.MailResourcePath | src/net/sourceforge/docfetcher/model/search/ResultDocument.java:285-289 | fails exactly on files; on emails gives the path the mail is loaded from |
| ResultDocuments.ResultDocument.GetTitle | src/net/sourceforge/docfetcher/model/search/ResultDocument.java:99-106 | the title field if present; else the subject field if present; else the base name of the file name. The last case fails on an email and fails when a file has no stored file name |
| ResultDocuments.ResultDocument.GetAuthors | src/net/sourceforge/docfetcher/model/search/ResultDocument.java:169-175 | with author values: `Join(", ", values)` (a single author as it is; the length is all values plus one ", " between each two); without them: the sender, or "" when there is none |
| ResultDocuments.ResultDocument.GetType | src/net/sourceforge/docfetcher/model/search/ResultDocument.java:147-151 | the stored type is present exactly when the field holds a value, and is then the field's first value |
| ResultDocuments.ResultDocument.WasParsedBy | src/net/sourceforge/docfetcher/model/search/ResultDocument.java:203-206 | fails exactly when no parser is stored; otherwise true exactly when the stored parser name is the given class name |
| ResultDocuments.ResultDocument.IsHtmlFile | src/net/sourceforge/docfetcher/model/search/ResultDocument.java:195-197 | fails exactly when no parser is stored; otherwise true exactly when the stored parser is `HtmlParser` |
| ResultDocuments.ResultDocument.IsPdfFile | src/net/sourceforge/docfetcher/model/search/ResultDocument.java:199-201 | fails exactly when no parser is stored; otherwise true exactly when the stored parser is `PdfParser` |
| ResultDocuments.KindsAreExclusive | src/net/sourceforge/docfetcher/model/search/ResultDocument.java:87-95 | a document is an email exactly when all five file-only accessors fail, and a file exactly when all three email-only accessors fail |
| ResultDocuments.GetSizeInKBTwice | src/net/sourceforge/docfetcher/model/search/ResultDocument.java:113-122 | the size getter is idempotent: two calls give the same answer, and a non-negative size stays cached |
| ResultDocuments.AuthorsListEachAuthor | src/net/sourceforge/docfetcher/model/search/ResultDocument.java:170-172 | every author value occurs in the author string, in order, after the values before it and their ", " separators |
| ResultDocuments.AuthorsSeparatedByComma | src/net/sourceforge/docfetcher/model/search/ResultDocument.java:170-172 | right after each author value but the last, the authors string holds ", " |
| ResultDocuments.SizeInKBOfDecimal | src/net/sourceforge/docfetcher/model/search/ResultDocument.java:113-122 | a size stored as the decimal text of `bytes` is readable, and its kilobyte size is `bytes` rounded up to whole kilobytes |
| SearchFilter.SelectAtPositions | src/net/sourceforge/docfetcher/gui/SearchQueue.java:223-251 | the kept documents are exactly those at the kept positions, one for one |
| SearchFilter.SelectedPositionsOrdered | src/net/sourceforge/docfetcher/gui/SearchQueue.java:226-250 | the kept positions increase strictly, and a position is kept exactly when its document passes |
| SearchFilter.SelectMembership | src/net/sourceforge/docfetcher/gui/SearchQueue.java:226-250 | an element is kept exactly when it occurs in the input and passes |
| SearchFilter.FilterIsStable | src/net/sourceforge/docfetcher/gui/SearchQueue.java:222-251 | the visible results are a subsequence of the results in their original order, and a result is among them exactly when it survives the three checks |
| SearchFilter.FilterMembership | src/net/sourceforge/docfetcher/gui/SearchQueue.java:226-250 | a document is visible exactly when it is one of the results and it is within the size bounds and passes the type and location checks |
| SearchFilter.EmailsBypassTypeFilter | src/net/sourceforge/docfetcher/gui/SearchQueue.java:234-242 | an email survives exactly when it passes the size and location checks, whatever the type filter holds, even with no type checked |
| SearchFilter.AllParsersCheckedShortcut | src/net/sourceforge/docfetcher/gui/SearchQueue.java:235-241 | with every parser checked, a file passes the type check even when its parser name is not in the checked set |
| SearchFilter.Keeps | src/net/sourceforge/docfetcher/gui/SearchQueue.java:227-250 | the checks on one document, calling the memoising getters in their order, keep the document exactly when it survives, and keep its caches consistent |
| SearchFilter.ApplyFilters | src/net/sourceforge/docfetcher/gui/SearchQueue.java:223-251 | the filter loop produces exactly the specification's `Filter` of the results |
| SearchFilter.BuildParserFilter | src/net/sourceforge/docfetcher/gui/SearchQueue.java:273-285 | the checked set holds exactly the names whose entry is checked, and `allParsersChecked` holds exactly when that set is as large as the map |
| SearchFilter.CheckedParserNamesStep | src/net/sourceforge/docfetcher/gui/SearchQueue.java:276-283 | each entry adds its name to the checked set exactly when it is checked |
| SearchFilter.CheckedParserNamesBound | src/net/sourceforge/docfetcher/gui/SearchQueue.java:284 | there are never more checked names than entries, and as many only when every entry is checked |
| SearchFilter.EveryEntryCheckedFillsSet | src/net/sourceforge/docfetcher/gui/SearchQueue.java:284 | with distinct parser names and every entry checked, the checked set is as large as the map |
| SearchFilter.AllParsersCheckedIffEveryEntry | src/net/sourceforge/docfetcher/gui/SearchQueue.java:273-285 | with distinct parser names, `allParsersChecked` is true exactly when every entry of the type panel is checked |
| SearchFilter.SharedNameDefeatsAllChecked | src/net/sourceforge/docfetcher/gui/SearchQueue.java:279-284 | two checked entries with the same simple class name leave `allParsersChecked` false although every entry is checked |
| SearchFilter.LocationSnapshot | src/net/sourceforge/docfetcher/gui/SearchQueue.java:207-212 | the checked locations are exactly the checked paths, and all locations count as checked exactly when the list is as long as the folder count |
| SearchFilter.SetOfPathsBound | src/net/sourceforge/docfetcher/gui/SearchQueue.java:211 | the set of checked locations is no larger than the list it is built from |
| SearchFilter.HeaderFlags | src/net/sourceforge/docfetcher/gui/SearchQueue.java:253-260 | files are found exactly when some index is not an email index, and emails exactly when some index is |
| SearchQueues.FilterRebuildRule | src/net/sourceforge/docfetcher/gui/SearchQueue.java:196-213 | the parser filter is rebuilt exactly when it was missing or a type change was pending, and kept otherwise; the same holds for the location filter and location changes; after a pass both filters are present |
| SearchQueues.FailedSearchPublishesNothing | src/net/sourceforge/docfetcher/gui/SearchQueue.java:179-220 | a failed search clears the results, reports the backend's message, publishes nothing, enables the search bar again and still rebuilds the filters that need it |
| SearchQueues.FilterOnlyPassKeepsResults | src/net/sourceforge/docfetcher/gui/SearchQueue.java:179-220 | a pass without a search keeps the results, reports no error, and publishes exactly when some results exist |
| SearchQueues.SearchPassReenablesSearchBar | src/net/sourceforge/docfetcher/gui/SearchQueue.java:179-270 | every pass that searched enables the search bar again, whether the search failed or not |
| SearchQueues.PublicationContents | src/net/sourceforge/docfetcher/gui/SearchQueue.java:219-270 | a pass publishes exactly when it has results; it publishes the results that survive the filters held after the pass, and header flags that depend on the indexes only |
| SearchQueues.SearchQueue.constructor | src/net/sourceforge/docfetcher/gui/SearchQueue.java:61-68 | nothing is pending, there is no query, no results and no filter snapshot |
| SearchQueues.SearchQueue.SubmitSearch | src/net/sourceforge/docfetcher/gui/SearchQueue.java:107-121 | the query is overwritten (last write wins), the search bar is disabled, and a search is added to the pending set |
| SearchQueues.SearchQueue.FilterChanged | src/net/sourceforge/docfetcher/gui/SearchQueue.java:123-160 | the event kind is added to the pending set; adding a kind that is already pending changes nothing |
| SearchQueues.SearchQueue.TryDrain | src/net/sourceforge/docfetcher/gui/SearchQueue.java:163-174 | returns exactly the set that was pending and leaves the pending set empty; when nothing is pending it returns nothing (the wait) |
| SearchQueues.SearchQueue.UpdateParserFilter | src/net/sourceforge/docfetcher/gui/SearchQueue.java:273-285 | the checked parsers become the names of the checked entries, and `allParsersChecked` holds exactly when that set is as large as the map |
| SearchQueues.SearchQueue.RunSearch | src/net/sourceforge/docfetcher/gui/SearchQueue.java:178-194 | with a pending search, the results become the backend's documents, or nothing with the error reported and the search bar enabled; without one the results stay |
| SearchQueues.SearchQueue.RefreshFilters | src/net/sourceforge/docfetcher/gui/SearchQueue.java:196-213 | each filter snapshot becomes what `ParserStep` or `LocationStep` gives for the old snapshot and the pending events |
| SearchQueues.SearchQueue.Publish | src/net/sourceforge/docfetcher/gui/SearchQueue.java:222-270 | publishes the filtered results and the header flags, enables the search bar, and keeps the documents' caches consistent |
| SearchQueues.SearchQueue.RunPass | src/net/sourceforge/docfetcher/gui/SearchQueue.java:176-270 | one pass takes the worker state and events to exactly what `PassSpec` gives; pending set and query are untouched; the search bar ends enabled after an error or a publish |
| SearchQueues.SearchQueue.ThreadLoop | src/net/sourceforge/docfetcher/gui/SearchQueue.java:163-270 | with nothing pending nothing changes; otherwise the pending events are taken, the set is left empty, and the pass is the one `PassSpec` gives for the events taken |
| SearchQueues.CoalescingScenario | src/net/sourceforge/docfetcher/gui/SearchQueue.java:107-174 | three searches and three filter changes before the worker wakes are taken as one set {search, size, type}, a second take finds nothing, and only the last query is kept |

## Left out

- The worker thread, its lock, its condition variable, interruption and the dispose listener (`SearchQueue.java:58-60`, `83-105`). Producers and the worker are methods called one at a time, and `TryDrain` returning nothing stands for the blocking wait.
- User-interface calls (`searchBar.setEnabled`, `Util.runSyncExec`, `AppUtil.showError`, `resultPanel.setResults`). Their effect is modelled as the `searchBarEnabled` field and the returned `PassReport`.
- The Lucene search (`IndexRegistry.search`). The backend is a function from query to documents or an error message.
- `HeaderMode.getInstance` is not part of this model. A publication carries the two flags it is built from.
- `getScore`: it uses floating point and `Math.round`.
- `getHighlightedText`, and the I/O in `getText`, `readPdfPages`, `getFileResource` and `getMailResource`. Each is modelled only through its guard and the values it hands on: the parser name and path for text, the path for PDF pages and resources.
- `DocumentType.isEmailType`, `DocumentType.extractPath`, `Util.splitPathLast` and `Util.splitFilename` are not part of this model. Documents take them as function values.
- `Util.join` is not part of this model. It is given the usual definition: the parts with one separator between each two.
- `Long.valueOf` accepts non-ASCII Unicode digits. `ParseLong` accepts ASCII digits only.
- SearchQueues.SearchQueue.RunPass: requires the document sizes to be readable whenever size bounds are set. The source throws a number-format exception out of the worker thread there; that ends the worker, which is not modelled.
- SearchQueues.SearchQueue.ThreadLoop: requires readable sizes, for the same reason as `RunPass`.
- SearchQueues.SearchQueue.Publish: requires readable sizes, for the same reason as `RunPass`.
- SearchFilter.PassesSize: with size bounds set, a document whose size does not parse fails the size check, so `Filter` drops it and keeps the rest. The source throws a number-format exception there, and the worker ends without publishing. For that reason `FilterIsStable`, `FilterMembership`, `PassSpec` and the lemmas about `PassSpec` require readable sizes, and the model states nothing about such inputs.
- SearchFilter.FilterIsStable: requires readable sizes wherever size bounds are set, for the reason given under `SearchFilter.PassesSize`.
- SearchFilter.FilterMembership: requires readable sizes wherever size bounds are set, for the reason given under `SearchFilter.PassesSize`.
- SearchQueues.FilterRebuildRule: requires readable sizes wherever size bounds are set, for the reason given under `SearchFilter.PassesSize`.
- SearchQueues.FilterOnlyPassKeepsResults: requires readable sizes wherever size bounds are set, for the reason given under `SearchFilter.PassesSize`.
- SearchQueues.SearchPassReenablesSearchBar: requires readable sizes wherever size bounds are set, for the reason given under `SearchFilter.PassesSize`.
- SearchQueues.PublicationContents: requires readable sizes wherever size bounds are set, for the reason given under `SearchFilter.PassesSize`.
- SearchFilter.ApplyFilters: requires readable sizes, for the same reason as `RunPass`.
- SearchFilter.Keeps: requires a readable size when bounds are set, for the same reason as `RunPass`.
- ResultDocuments.ResultDocument.constructor: requires a stored UID. The source then calls `DocumentType.isEmailType(null)`, whose behaviour is not part of this model.
- Common.KiloBytesIsCeiling: holds for non-negative sizes only. For a negative byte count the conversion is not a ceiling: -5 bytes, for example, convert to 1 KB.
- The Java `assert` statements in `getSizeInKB`, `getParserName` and `getType` are disabled by default. The model lets a missing value through as `None` or as a failure instead.
