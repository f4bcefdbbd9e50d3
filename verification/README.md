# Document dashboard pages: upload simulation, library filter, chat log

This project models the three pages of the document-management dashboard that hold logic. Everything else in the repository renders fixed data.

- **Upload page** (`app/upload/page.tsx`). Picked or dropped files become records with status uploading and progress 0. Each record gets its own 500 ms interval, which is cleared after 8000 ms. On every firing the interval runs the record's tick: the page maps over its `files` list and rewrites the records whose id matches. A record can be removed, its MIME type picks one of three icons, and the sidebar counts records by status and by AI category.
  - Module `UploadItems` holds the records and the pure operations on them.
  - Module `UploadPage` holds the page object `UploadController`. Its `files` list and its started intervals change step by step.
  - Each interval is a `Driver`: the id it ticks and the ticks it may still deliver, at most 8000 / 500 = 16. A tick is an event naming the driver that fires.
  - The random id, category and confidence are parameters. Ids are not assumed to be unique.
- **Library page** (`app/library/page.tsx`). These are pure functions over the document list:
  - the case-insensitive search and category filter;
  - the three confidence colour bands;
  - the sidebar's per-category and high-confidence counters.
- **Chat page** (`app/chat/page.tsx`). The object `Chat.ChatPage` holds the message log, the input box, the loading flag and the number of reply timeouts that are set and have not fired. Three things change it: a send, the delayed canned reply, and picking a suggested question. The pure functions over `ChatState` specify each change, and an invariant over reachable states is proved about them.

**The tick as written.** The model follows the code, and the code differs from the evident design of "10 per tick while uploading, 15 per tick while processing, completed is final":
- The first test in the tick is `progress < 100` for every status. So processing also advances by 10, and the `+15` branch can never run.
- Once a record reaches 100 in any status other than uploading, every later tick classifies it again with fresh random draws.
- Counting from a fresh record: ticks 1–10 are uploading (10 … 100), tick 11 switches to processing at 0, ticks 12–21 are processing (10 … 100), and tick 22 completes it.
- One interval delivers at most 16 ticks. A record whose id belongs to one interval therefore never completes: it is left processing at no more than 50.
- A record can complete only when a second interval was started for the same id, that is, after an id collision.

## Model

| member | source | states |
|---|---|---|
| UploadItems.NewItems | app/upload/page.tsx:68-78 | one record per input file, in order: the given id; name, size and type copied; progress 0; status uploading; no classification |
| UploadItems.TickItem | app/upload/page.tsx:90-122 | id and file metadata never change; no tick produces error; progress never grows by 15 (that branch is dead); the classification fields stay set exactly when completed, with one of the six categories and a confidence in [80, 99]; from any phase reachable from a fresh record, a tick advances the phase by exactly one step until completion |
| UploadItems.BelowHundredAddsTen | app/upload/page.tsx:91-92 | below 100, a tick adds exactly 10 and changes nothing else, whatever the status |
| UploadItems.UploadedStartsProcessing | app/upload/page.tsx:93-98 | at 100 or more, an uploading record becomes processing with progress 0 |
| UploadItems.FullRecordIsReclassified | app/upload/page.tsx:101-121 | at 100 or more, any non-uploading record becomes completed at 100, with the drawn category and confidence (80 + offset); this happens again on every later tick |
| UploadItems.TickList | app/upload/page.tsx:88-126 | same length and order; records with another id are unchanged; each record with the id is ticked with its own draw |
| UploadItems.TicksFromFresh | app/upload/page.tsx:91-98 | after n ticks a fresh record is in the phase reached after min(n, 22) steps, always in a reachable phase, with the same id and metadata |
| UploadItems.BudgetEndsBeforeCompletion | app/upload/page.tsx:129-135 | within the budget of 8000 ms / 500 ms = 16 ticks a fresh record is uploading at 10·n for n ≤ 10 and otherwise processing at 10·(n − 11); after all 16 it is processing at 50, never completed or in error |
| UploadItems.RemoveById | app/upload/page.tsx:138-140 | a record is kept iff it was present and has a different id, and every copy of a kept record stays (same multiplicity); the result is an order-preserving subsequence; nothing changes when no record has the id |
| UploadItems.IconFor | app/upload/page.tsx:142-146 | image icon iff the type starts with "image/" (`StartsWith`, the prefix relation), even if it mentions pdf; PDF icon iff not an image and it contains "pdf"; generic otherwise |
| UploadItems.CountStatus | app/upload/page.tsx:314-318 | the "processed" counter counts records with a given status, at most all of them |
| UploadItems.InProgressCount | app/upload/page.tsx:320-324 | the "In progress" counter counts uploading or processing records, at most all of them |
| UploadItems.CategoryCount | app/upload/page.tsx:349-353 | one category badge counts records carrying that category, at most all of them |
| UploadItems.CountersPartition | app/upload/page.tsx:309-324 | completed, in-progress and error records add up to the number of records |
| UploadItems.NewItemsAreInProgress | app/upload/page.tsx:68-78 | appending the new records raises "In progress" by the number of files and leaves "processed" unchanged |
| UploadItems.CategoryBadgesSumToProcessed | app/upload/page.tsx:340-356 | when records carry a classification exactly when completed, the six category badges add up to the processed counter |
| UploadPage.AddItemsKeepsInv | app/upload/page.tsx:68-78 | appending fresh records keeps the page invariant |
| UploadPage.StartDriverKeepsInv | app/upload/page.tsx:81-83 | starting one more full-budget interval keeps the page invariant |
| UploadPage.CountsAfterFire | app/upload/page.tsx:129-131 | a firing uses up one pending tick of its own id and none of any other id; the intervals started per id are unchanged |
| UploadPage.FireKeepsInv | app/upload/page.tsx:86-131 | a tick from an interval with budget left keeps the page invariant: reachable phases, classification only when completed, and ticks taken plus ticks pending at most 16 per interval started for the id |
| UploadPage.SoleDriverNeverCompletes | app/upload/page.tsx:129-135 | a record whose id has at most one started interval is uploading, or processing at no more than 50 |
| UploadPage.CompletionNeedsRepeatedId | app/upload/page.tsx:70 | a completed record's id had at least two intervals started for it |
| UploadPage.CountersOnPage | app/upload/page.tsx:309-356 | on the page no record is in error, processed plus in progress equals the number of records, and the category badges add up to the processed count |
| UploadPage.UploadController.constructor | app/upload/page.tsx:40 | the page starts with no records and no intervals, satisfying the invariant |
| UploadPage.UploadController.ProcessFiles | app/upload/page.tsx:68-84 | appends the new records after the old ones, and its loop starts one 16-tick interval per new record, in order; the invariant is kept |
| UploadPage.UploadController.Tick | app/upload/page.tsx:86-131 | the list becomes the tick of its id applied to it; the firing interval loses one tick and no other interval changes; the invariant is kept |
| UploadPage.UploadController.RemoveFile | app/upload/page.tsx:138-140 | the list loses exactly the records with the id; intervals are untouched (removal does not cancel them); the invariant is kept |
| Text.Includes | app/upload/page.tsx:144 | `includes` holds iff the pattern occurs at some index |
| Text.ToLower | app/library/page.tsx:136-137 | same length; upper-case ASCII letters are mapped 32 code points down, all other characters kept; no upper-case ASCII letter remains |
| Text.Trim | app/chat/page.tsx:56 | the trimmed text is empty iff every character is white space or a line terminator |
| Text.TrimIsPiece | app/chat/page.tsx:56 | the trimmed text occurs in the original |
| Text.TrimEnds | app/chat/page.tsx:56 | the trimmed text, when not empty, neither starts nor ends with white space |
| Library.FilterDocuments | app/library/page.tsx:134-140 | a document is listed iff it is in the list, its lower-cased name or some lower-cased tag contains the lower-cased term (`MatchesSearch`), and the category is "All" or its own (`MatchesCategory`); a listed document appears as often as in the list; the listing keeps the list's order |
| Library.EmptySearchShowsAll | app/library/page.tsx:134-139 | an empty search with "All" lists every document, in order |
| Library.CategoryNarrowsAll | app/library/page.tsx:134-140 | the listing for any category is an order-preserving part of the listing for "All" with the same search |
| Library.ConfidenceColor | app/library/page.tsx:158-162 | emerald iff confidence ≥ 90, amber iff 80 ≤ confidence < 90, red iff confidence < 80, so every confidence gets exactly one band |
| Library.ConfidenceClasses | app/library/page.tsx:158-162 | the emerald classes iff confidence ≥ 90, the amber classes iff 80 ≤ confidence < 90, the red classes iff confidence < 80 (`BandClasses` of the band) |
| Library.BandsPartition | app/library/page.tsx:158-162 | counting per band counts every document exactly once |
| Library.CountInCategory | app/library/page.tsx:217 | counts documents of one category, at most all of them |
| Library.EmptySearchListingSize | app/library/page.tsx:134-140 | with an empty search, the listing for "All" has every document and the listing for any other category has as many as the category holds |
| Library.SidebarCount | app/library/page.tsx:215-217 | each category badge equals the number of documents the page lists when that category is selected and the search is empty |
| Library.HighConfidenceCount | app/library/page.tsx:237 | counts documents with confidence 90 or more, at most all of them |
| Library.HighConfidenceIsEmerald | app/library/page.tsx:236-238 | the "High confidence" counter equals the number of documents in the emerald band |
| Library.MockHighConfidence | app/library/page.tsx:236-238 | on the page's six documents the "High confidence" counter shows 4 |
| Library.MockAllBadge | app/library/page.tsx:215-217 | on the page's six documents the "All" button shows 6 |
| Library.MockCategoryBadges | app/library/page.tsx:124-132 | on the page's six documents each of the six named categories holds exactly one document |
| Chat.SendMessage | app/chat/page.tsx:55-68 | nothing changes iff the input is blank after trimming or a reply is pending; otherwise exactly one user message with the untrimmed input is appended, the input is cleared, loading is set and one reply timeout is scheduled |
| Chat.Respond | app/chat/page.tsx:70-99 | exactly one canned assistant reply (text and sources of one of the two responses) is appended after the old log; loading is cleared; the input is untouched; the fired timeout is gone |
| Chat.SetInput | app/chat/page.tsx:102-104 | only the input text changes |
| Chat.SuggestedQuestionSends | app/chat/page.tsx:24-31 | every suggested question, put in the input box while no reply is awaited, passes the send guard, and sending appends it as typed as the user's message |
| Chat.InitialStateInv | app/chat/page.tsx:34-44 | the initial state (greeting only, empty input, not loading) satisfies the invariant |
| Chat.AtMostOnePending | app/chat/page.tsx:56-67 | in any state satisfying the invariant at most one reply is pending, and a send while it is pending changes nothing |
| Chat.SendKeepsInv | app/chat/page.tsx:55-68 | a send keeps the invariant: greeting first, then alternating non-blank user messages and canned replies; loading iff the last message is the user's; exactly one timeout while loading |
| Chat.RespondKeepsInv | app/chat/page.tsx:70-99 | a reply firing keeps the same invariant |
| Chat.RunKeepsInv | app/chat/page.tsx:34-104 | along any sequence of events the invariant holds and the old log is a prefix of the new one: messages are only appended |
| Chat.ReachableStates | app/chat/page.tsx:34-98 | every reachable state starts with the greeting and has at most one reply pending |
| Chat.ChatPage.constructor | app/chat/page.tsx:34-44 | the page starts in the initial state |
| Chat.ChatPage.HandleSendMessage | app/chat/page.tsx:55-100 | the page's new state is the send of the old state; the invariant is kept |
| Chat.ChatPage.ReplyTimeout | app/chat/page.tsx:70-99 | with a timeout scheduled, the new state is the reply of the old state; the invariant is kept |
| Chat.ChatPage.HandleSuggestedQuestion | app/chat/page.tsx:102-104 | only the input box changes, to the chosen question; the invariant is kept |

## Left out

- Time and timers: a tick or a reply is an event, not a clock. The 16-tick budget is an upper bound. At 8000 ms the interval's sixteenth firing and the clearing timeout are due together, so in practice an interval may deliver only 15 ticks.
- Randomness: ids (`Math.random` base-36 ids on the upload page, `Date.now()` ids on the chat page), the category and confidence draws, and the reply choice are parameters. Each record with a matching id draws its own category and confidence.
- UploadItems.IconFor returns which icon is shown, not the icon element or its CSS classes.
- `formatFileSize` on both pages, and the "Total size" sums that feed it: floating-point logarithms and `toFixed`.
- `formatDate` and `formatTime`, and message timestamps: locale-dependent date formatting.
- Text.ToLower: only the ASCII letters are lower-cased. JavaScript's `toLowerCase` maps all of Unicode.
- Chat messages hold which text they carry: typed text, the greeting or canned reply 0 or 1. `Chat.ContentText` gives the characters shown. The `isTyping` flag is never set by the page and is omitted.
- A reply event with no timeout set cannot happen. `Chat.Run` skips it.
- Handlers are assumed to see the latest state, as React renders between discrete input events. Typing into the chat input box has the same effect as `handleSuggestedQuestion` and is covered by `Chat.SetInput`.
- The library page's `searchTerm` and `selectedCategory` are parameters of the filter. Its view-mode and sort state are never used to compute anything.
- Drag-over highlighting, `useCallback`, refs, scrolling, markup, icons and CSS.
- The analytics page and the dashboard home page only render fixed arrays.
- JavaScript numbers are modelled as integers: sizes as `nat`, progress and confidence as `int`.
