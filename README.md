# United Seeds client: engagement state in Dafny

This project models the state-keeping core of the United Seeds web client
(`app.js`): the per-entity caches, the profile-photo loader, the like and
retweet toggles, comment and remote-post pagination, and the pure helpers
those parts depend on. It models the functions' behaviour, not the DOM. Every
network answer (`fetch`, the synchronous `config.env` request, the photo
endpoint) becomes a parameter: either `Failed` or `Ok(value)`. The parsed
JSON is the `Json` datatype. Its numbers are integers, and object members
keep the order the server sent them in.

Modules follow the parts of the client:

- `Common`, `Json`, `Text`: option and fetch results, JSON values with
  JavaScript truthiness, `||`, `??` and property lookup, and the string
  built-ins the client uses (`trim`, `toLowerCase`, `split`, `lastIndexOf`,
  `String(n)`).
- `Identity`: `canUseBackendId`, `normalizeUserId`, `generateId`.
- `Config`: the `BACKEND_URL=` line read at start-up.
- `Markup`: `escapeHtml`, `escapeAttribute`, `buildLikesLabel`.
- `Files`: `getFileExtension`, `resolveVideoMimeType`, `sanitizeFileName`.
- `Categories`: the category tables and `translateCategoryToBG` /
  `translateSubcategoryToBG`.
- `ProfilePicture`: `extractProfilePictureUrl` and `normalizeUploadTicket`.
- `PostPayload`: `safeCount`, `buildPostStats` and `buildPostUpdatePayload`.
- `CommentsResponse`: the result shaping of `fetchComments` and
  `fetchCommentCountOnly`.
- `CommentPager`: the `{ currentPage, totalPages, totalComments }` object as a
  class, together with the guards of its prev and next buttons.
- `EngagementCache`: the class `PostCaches`, holding the eight post and
  comment maps. It comes with functions on a `CacheTables` snapshot that
  specify each of its methods.
- `PhotoLoader`: the class `PhotoCache`, holding `profilePhotoCache` and
  `profilePhotoPending`. In-flight requests are numbered tickets. The module
  also has the avatar hydration loop and the per-image `AvatarImage` class.
- `EngagementToggle`: the like and retweet handlers and the hydration of their
  buttons.
- `CommentSessions`: opening a post's comments, changing the sort order,
  prev/next, and the reloads after a comment is added or deleted.
- `RemotePosts`: the class `RemotePager` for the posts page's remote pagination.
- `LocalStore`: the class `LocalStore`, holding the locally kept `posts` and
  `skills` arrays. It covers `filterByCategory`, `syncLocalPostEdit`,
  `syncLocalPostDelete` and `onTip`.

Each state-changing method has the same shape:

- Its `ensures` ties the new state to a function of the old state. Examples:
  `Tables() == ClearPost(old(Tables()), postId)` and
  `(Tables(), outcome) == Ensure(old(Tables()), userId)`.
- Lemmas about those functions state what the client promises.

## Model

| member | source | states |
|---|---|---|
| Text.Trim | app.js:107 | the result is no longer than its input and neither starts nor ends with white space |
| Text.ToLower | app.js:1369 | every ASCII capital becomes its small letter and every other character is kept |
| Text.LastIndexOf | app.js:1367 | the last position of the character, and -1 exactly when it does not occur |
| Text.Split | app.js:10 | at least one piece, and no piece holds the separator |
| Text.SplitJoin | app.js:10 | joining the pieces with the separator gives back the text |
| Json.Truthy | app.js:107 | a truthy value is neither `undefined` nor `null` |
| Json.OrElse | app.js:3086 | `a \|\| b`: `a` when it is truthy, otherwise `b` |
| Json.Coalesce | app.js:808 | `a ?? b`: `a` unless it is `undefined` or `null`, otherwise `b` |
| Json.PropertyKey | app.js:112 | `String(v)`: a non-negative number gives decimal digits; an empty array gives `''` |
| Json.TruthyIndex | app.js:3104-3112 | the position in a `a \|\| b \|\| …` chain whose value is taken: every earlier candidate is falsy, and it is truthy or the last |
| Json.DefinedIndex | app.js:807-808 | the position in a `a ?? b ?? …` chain whose value is taken: every earlier candidate is nullish, and it is defined or the last |
| Json.OrChainSnoc | app.js:3104-3112 | one more `\|\| y` at the end of a chain is `OrElse` of the chain and `y` |
| Json.CoalesceChainSnoc | app.js:2925-2928 | one more `?? y` at the end of a chain is `Coalesce` of the chain and `y` |
| Identity.CanUseBackendId | app.js:106-108 | only a truthy id can be server-backed |
| Identity.NormalizeUserId | app.js:110-113 | `undefined`/`null` become `''`; a string is kept as it is; a number becomes its decimal text |
| Identity.ServerBackedNumber | app.js:106-108 | a numeric id is server-backed exactly when it is positive (0 is falsy, a negative one starts with `-`) |
| Identity.FalsyIdRejected | app.js:106-108 | `undefined`, `null`, `false`, `0` and `''` are never server-backed |
| Identity.NonDigitRejected | app.js:106-108 | one non-space, non-digit character anywhere in an id makes it not server-backed |
| Identity.GeneratedIdRejected | app.js:83-85 | ids made by `generateId` (`prefix_random_time`) are never server-backed |
| Identity.DigitsAccepted | app.js:106-108 | a non-empty run of ASCII digits is server-backed, also with white space around it |
| Config.ValueAsWritten | app.js:13 | the value read from a `BACKEND_URL=` line never holds `=` |
| Config.FirstUrlLine | app.js:11-15 | the line used is the first one that starts with `BACKEND_URL=`, and no earlier line does |
| Config.LoadBackendUrl | app.js:4-19 | the loop yields exactly the address `BackendUrl` specifies: the default unless a `200` answer has a `BACKEND_URL=` line |
| Config.BackendUrl | app.js:4-19 | without a readable `200` answer the built-in address stays; the address in use is the default or holds no `=` |
| Config.ValueCutAtEquals | app.js:12-13 | as written, a configured value `a=b` yields just `a`, trimmed |
| Config.CorrectedRoundTrip | app.js:10-16 | with the whole value after the prefix kept, a written address is read back unchanged, `=` included |
| Config.CorrectedAgreesWithoutEquals | app.js:13 | the corrected reading equals the written one for every value without `=` |
| Markup.EscapeHtml | app.js:2845-2847 | only empty text escapes to empty text; a leading plain character is kept |
| Markup.EscapeAttribute | app.js:2849-2852 | the output is never shorter than the input, and empty only for empty input |
| Markup.LoneSpecialEscaped | app.js:2845-2847 | a lone `&`, `<`, `>` or `"` after plain text becomes its entity, and the plain text is kept |
| Markup.EscapeHtmlPlain | app.js:2845-2847 | text without those four characters is returned unchanged |
| Markup.PlainPrefixKept | app.js:2845-2847 | a plain prefix passes through unchanged whatever follows it |
| Markup.SpecialRunBecomesUndefined | app.js:2845-2847 | a run of two or more special characters becomes the literal text `undefined` |
| Markup.EscapeHtmlInert | app.js:2845-2847 | the output, even as written, never holds a raw `<`, `>` or `"` |
| Markup.EscapeHtmlLosesRuns | app.js:2845-2847 | `a<<b` escapes to `aundefinedb`, which does not decode back to `a<<b`; the per-character escape does |
| Markup.EscapeHtmlCharsRoundTrip | app.js:2845-2847 | the per-character escape decodes back to its input for every string |
| Markup.EscapeAttributeRoundTrip | app.js:2849-2852 | decoding what `escapeAttribute` produced gives back its input |
| Markup.EscapeAttributeInert | app.js:2849-2852 | the output holds no raw `<`, `>`, `"` or `'` |
| Markup.LikesNoun | app.js:94 | the singular noun is chosen exactly for a count of one |
| Markup.BuildLikesLabel | app.js:92-96 | the label starts with the badge markup and ends with the noun that agrees with the count |
| Files.GetFileExtension | app.js:1366-1370 | no `.` in the name gives `''`; otherwise the result is the lower-cased text after the last `.`, and it holds no `.` |
| Files.ExtensionAfterLastDot | app.js:1366-1370 | `stem.ext` yields `ext` in lower case for every stem when `ext` holds no `.` |
| Files.ResolveVideoMimeType | app.js:1372-1389 | a known extension gives exactly its table entry; otherwise the fallback, or `application/octet-stream` without one; never empty |
| Files.TableTypesAreVideo | app.js:1374-1387 | every type in the table starts with `video/` |
| Files.UpperCaseExtensionResolved | app.js:1372-1389 | `Clip.MOV` resolves to `video/quicktime` whatever the browser reported |
| Files.NoExtensionFallsBack | app.js:1372-1389 | a name without `.` resolves to the fallback type, or the generic type without one |
| Files.ReplaceUnsafeRuns | app.js:3151 | the result holds only `\w`, `.` and `-`, is no longer than the input, and is empty only for empty input |
| Files.SafeNameUnchanged | app.js:3151 | a name made only of safe characters is left as it is |
| Files.ReplaceUnsafeRunsIdempotent | app.js:3151 | replacing twice is replacing once |
| Files.UnsafeRunReplaced | app.js:3151 | a safe prefix is kept, a whole run of unsafe characters after it becomes one `_`, and the rest is replaced on its own |
| Files.ContentTypeExtension | app.js:3155 | the generated extension is never empty and holds no `/` |
| Files.SanitizeFileName | app.js:3147-3157 | a non-blank name gives the trimmed name with each unsafe run replaced, which is safe and no longer than the trimmed name; otherwise `profile-<now>.<ext>` |
| Files.CleanNameKept | app.js:3147-3157 | a safe name keeps its exact spelling; only surrounding white space goes |
| Files.SpacesCollapse | app.js:3147-3157 | `a  b` becomes `a_b`: a run of unsafe characters is one `_` |
| Files.GeneratedNameUsesSubtype | app.js:3155-3156 | without a name, a `type/subtype` content type gives `profile-<now>.subtype` |
| Files.BlankNameGenerated | app.js:3147-3157 | a blank name counts as none; without a content type the extension is `bin` |
| Categories.KeyOfLabel | app.js:1060 | the key returned belongs to the first label that matches, and `None` means that no label matches |
| Categories.TranslateCategory | app.js:1053-1065 | `''` for an empty input; a named key shows its name; a label shows the name of its key, or itself when that key has none; anything else is returned unchanged |
| Categories.TranslateSubcategory | app.js:1067-1090 | `''` when either part is empty; a category key selects its own table; otherwise a label (in any case) selects its key's table; the subcategory's name there, or the subcategory unchanged; neither key nor label leaves it unchanged |
| Categories.TranslateCategoryToBG | app.js:1053-1065 | `''` for an empty input, and the Bulgarian name of a named key |
| Categories.TranslateSubcategoryToBG | app.js:1067-1090 | `''` when either part is empty; for a category key, the name in its table or the subcategory unchanged |
| Categories.KeyOfOwnLabel | app.js:1060 | with labels distinct after lower-casing, looking up a label finds the key it is paired with |
| Categories.SameLowerSameKey | app.js:1075-1077 | the case-insensitive lookup gives the same answer for any two texts that lower-case alike |
| Categories.CategoryLabelsDistinct | app.js:920-936 | the fifteen English labels differ even after lower-casing |
| Categories.LabelIsNotKey | app.js:920-1050 | no English label is itself a key of the name table or of the subcategory tables |
| Categories.KeyIsNamed | app.js:920-1050 | every listed category has a Bulgarian name and a subcategory table |
| Categories.LabelLikeKey | app.js:1053-1065 | for any tables with distinct labels that are not keys, a label translates exactly like its key |
| Categories.SubcategoryLabelLikeKey | app.js:1067-1090 | the same for subcategories, with the label in any letter case |
| Categories.LabelTranslatesLikeKey | app.js:1053-1065 | for the application's tables, every English label shows its category's Bulgarian name |
| Categories.SubcategoryUnderLabel | app.js:1067-1090 | for the application's tables, a label selects its category's subcategory names |
| Categories.CapitalisedLabelTranslated | app.js:1067-1090 | `FINANCE` / `Taxes` is shown as `Данъци` |
| ProfilePicture.FirstCandidate | app.js:2944-2960 | the key used is the first candidate key holding a non-blank string; every earlier one is missing or blank |
| ProfilePicture.ExtractProfilePictureUrl | app.js:2933-2967 | the result is trimmed; `''` for a falsy payload or depth above four; a string payload gives its trimmed text; numbers and booleans give `''` |
| ProfilePicture.FirstInItems | app.js:2936-2942 | the array loop's result is trimmed |
| ProfilePicture.FirstInValues | app.js:2961-2964 | the member-value loop's result is trimmed |
| ProfilePicture.FirstEntryWins | app.js:2936-2942 | an array yields what its first entry that yields anything yields, and `''` when none does |
| ProfilePicture.FirstValueWins | app.js:2961-2964 | an object without a usable candidate key yields its first member value that yields anything |
| ProfilePicture.FullUrlPreferred | app.js:2944-2960 | a non-blank `pictureFullUrl` wins over every other member |
| ProfilePicture.CandidateOrder | app.js:2944-2960 | a candidate key is used exactly when all earlier candidates are missing or blank |
| ProfilePicture.SingleEntry | app.js:2936-2942 | a one-entry array yields what its entry yields one level deeper |
| ProfilePicture.NestedStringFound | app.js:2934 | a string wrapped in arrays is found exactly when it sits no deeper than level four |
| ProfilePicture.DepthBound | app.js:2934 | four wrapping arrays still reach the string; five do not |
| ProfilePicture.NormalizeUploadTicket | app.js:3104-3112 | a falsy or non-object ticket gives `{}`; otherwise each field is the first truthy candidate of its own chain: `uploadUrl \|\| signedUrl \|\| url`, `method \|\| httpMethod \|\| 'PUT'`, `headers \|\| uploadHeaders \|\| {}`, `pictureFullUrl \|\| fullUrl \|\| originalUrl`, and for the picture URL that chain followed by `pictureUrl`, `photoUrl`, `publicUrl`, `downloadUrl`; method and headers are therefore always set |
| ProfilePicture.PictureChain | app.js:3108-3109 | the picture URL is the full-size URL chain continued by `pictureUrl`, `photoUrl`, `publicUrl`, `downloadUrl` |
| ProfilePicture.TicketMethod | app.js:3107 | a named method is kept; with neither name present the method is `PUT` |
| PostPayload.SafeCount | app.js:866-869 | numbers are kept; `undefined`, `null` and `false` are 0; `true` is 1; a string gives a count that is never negative |
| PostPayload.CountSurvivesText | app.js:844-850 | a count written into a `data-*` attribute as text reads back as the same count |
| PostPayload.ArrayLength | app.js:812 | a length is given exactly for an array |
| PostPayload.BuildPostStats | app.js:806-828 | the id is `String(base.id ?? entry.id ?? '')` where `base` is `entry.post \|\| entry \|\| {}`; for each counter an override wins, then the entry's own count, then (likes and comments) the length of its array, then the cached count of the id, then 0 |
| PostPayload.CachedCountsShown | app.js:806-828 | a post without counts of its own shows the three cached counts of its id |
| PostPayload.ArraysOutrankCaches | app.js:806-828 | the lengths of the post's `likes` and `comments` arrays win over the caches |
| PostPayload.BuildPostUpdatePayload | app.js:2921-2932 | a `null` base or overrides gives no payload (reading a member of `null` throws); otherwise the id is the base's own, `userId` is `base.userId ?? safeUserId`, category, subcategory and video URL are the base's when truthy and `''` otherwise, the text is `overrides.postText ?? base.postText ?? base.text ?? ''`, the author name is `facebookName \|\| userName \|\| authName \|\| ''`, and `createdAt` is the base's when truthy, else the current time |
| CommentsResponse.CeilDiv | app.js:1570 | `Math.ceil(n / d)`: the least `q` with `n <= q * d` |
| CommentsResponse.NormalizeComments | app.js:1562-1584 | `null` fails; a bare array gives its length and `ceil(len/size)` pages; an envelope gives its `comments` array (or none), `total \|\| 0`, and `totalPages` when non-zero, else `ceil(total/size)` for a positive total, else 1 page |
| CommentsResponse.EnvelopePages | app.js:1575-1577 | without `totalPages`, an envelope gets just enough pages for a positive total and one page otherwise |
| CommentsResponse.TwentyThreeComments | app.js:1575-1577 | a total of 23 at five per page gives five pages |
| CommentsResponse.EmptyArrayZeroPages | app.js:1569-1572 | a bare empty array gives zero pages, not one |
| CommentsResponse.CommentCountOnly | app.js:1954-1963 | `null` fails; an array gives its length; a numeric `total` gives that total; otherwise the length of a `comments` array; otherwise 0 |
| CommentsResponse.CountOnlyAgreesWithPage | app.js:1958-1962 | the count request and the page request agree on a bare array and on a non-zero numeric total |
| CommentsResponse.CountOnlyUsesListedComments | app.js:1958-1962 | an envelope with comments but no total is counted 1 by the count request and 0 by the page request |
| CommentPager.PagerControls | app.js:1646-1667 | the row is drawn exactly for more than one page; prev is disabled on page 1 and below, next on the last page and beyond |
| CommentPager.PrevPage | app.js:1679-1680 | prev moves back one page, and only from above page 1 |
| CommentPager.NextPage | app.js:1698-1699 | next moves on one page, and only from below the last page |
| CommentPager.GuardsMatchButtons | app.js:1665-1667 | prev is enabled exactly when its handler moves, and likewise next |
| CommentPager.StepsStayInRange | app.js:1678-1713 | a page between 1 and the last stays there after prev or next |
| CommentPager.NextWalksToLast | app.js:1697-1713 | repeated next clicks walk page by page and stop at the last page |
| CommentPager.PageState.constructor | app.js:1535 | a new state is `{ 1, 1, 0 }` |
| CommentPager.PageState.Prev | app.js:1678-1680 | the handler moves exactly when the page is above 1; the totals stay |
| CommentPager.PageState.Next | app.js:1697-1699 | the handler moves exactly when the page is below the last; the totals stay |
| CommentPager.PageState.Settle | app.js:1550-1551 | the totals become the answer's; the page number is not clamped |
| CommentSessions.PageOf | app.js:1562-1566 | a failed request fails; otherwise the body is shaped at five per page |
| CommentSessions.Loaded | app.js:1550-1551 | a reload keeps the page number; a page replaces both totals; a failure keeps them |
| CommentSessions.SortFromSelect | app.js:473 | the order is ascending exactly when the select's value is `asc` |
| CommentSessions.OnExpand | app.js:1524-1560 | opening reloads the stored page, page 1 the first time; the answer's totals, or the old state on failure |
| CommentSessions.OnSortChange | app.js:466-493 | a sort change reloads page 1; the answer's totals, or the old ones on failure |
| CommentSessions.OnPrev | app.js:1678-1694 | the page becomes `PrevPage`; the totals change only when a reload happened and answered |
| CommentSessions.OnNext | app.js:1697-1713 | the page becomes `NextPage`; the totals change only when a reload happened and answered |
| CommentSessions.OnCommentAdded | app.js:2271-2285 | a new comment reloads page 1; the answer's totals, or the old ones on failure |
| CommentSessions.OnCommentDeleted | app.js:2381-2386 | a deletion reloads the current page; the answer's totals, or the old state on failure |
| CommentSessions.SortChangeRestarts | app.js:473-487 | a sort change lands on page 1; the totals are the answer's, or the old ones when the reload fails |
| CommentSessions.ExpandKeepsPage | app.js:1534-1549 | reopening keeps the stored page; the first opening is page 1 |
| CommentSessions.PrevThenNext | app.js:1678-1713 | prev then next returns to the same page when the number of pages did not change |
| CommentSessions.StepsInRange | app.js:1678-1713 | the handlers keep the page within range while the answers keep the number of pages |
| CommentSessions.FailedReloadStillSteps | app.js:1679-1692 | a failed prev reload still moves the page number back |
| CommentSessions.DeletedLastPageNotClamped | app.js:2381-2386 | deleting the last comment of the last page leaves "page 3 of 2": prev enabled, next disabled and inert |
| CommentSessions.AddedShowsFirstPage | app.js:2271-2274 | a new comment always reloads page 1; a deletion reloads the current page |
| CommentSessions.HydrateCount | app.js:871-884 | no count is shown for a non-backed id; a cached count is shown without a request; a shown count is cached and a failure changes nothing |
| CommentSessions.HydratedCountReused | app.js:871-884 | once fetched, the count is shown again without a request, whatever that request would answer |
| CommentSessions.LoadPage | app.js:1549-1553 | the totals are the answer's and the count cache learns the total; a failure changes neither |
| CommentSessions.StateFor | app.js:1534-1536 | the stored state object is reused, or a fresh `{ 1, 1, 0 }` is stored |
| CommentSessions.SortFor | app.js:1537-1539 | the stored order is used, or `desc` is stored |
| CommentSessions.ExpandComments | app.js:1524-1560 | requests the stored page in the stored order; the state and the count cache settle as `OnExpand` says; no other state object changes |
| CommentSessions.ChangeSortOrder | app.js:466-493 | stores the new order, requests page 1 in it, and settles as `OnSortChange` says |
| CommentSessions.CommentsPrev | app.js:1678-1694 | a request is made exactly when the page is above 1; state and count cache settle as `OnPrev` says |
| CommentSessions.CommentsNext | app.js:1697-1713 | a request is made exactly when the page is below the last; state and count cache settle as `OnNext` says |
| CommentSessions.AfterCommentAdded | app.js:2271-2285 | the stored or created state is reset to page 1 and reloaded in the stored order |
| CommentSessions.AfterCommentDeleted | app.js:2381-2386 | the current page is reloaded; a missing state is a fresh default that is not stored; the count cache is not told |
| CommentSessions.HydratePostCommentCount | app.js:871-884 | the method ends in exactly the state and with exactly the shown count that `HydrateCount` specifies |
| EngagementCache.StoreEngagement | app.js:1762-1774 | only the clicked kind's entry for the id is replaced, every other map is kept, and the cache invariant holds |
| EngagementCache.RememberOwner | app.js:2872-2875 | an owner is stored only for a non-empty post id and a truthy owner; otherwise nothing changes |
| EngagementCache.CachePost | app.js:2896-2899 | a post with an id is stored under `String(id)`; anything else is ignored |
| EngagementCache.OwnerOf | app.js:2877-2884 | a reported owner is truthy; an empty post id has none |
| EngagementCache.PostCaches.GetPostOwnerId | app.js:2877-2884 | a reported owner is truthy; an empty id has none; a mounted card's owner wins, then the remembered owner |
| EngagementCache.EnsurePost | app.js:2905-2911 | a cached post is returned without a request; a failure changes nothing; a fetched post is cached and its owner remembered |
| EngagementCache.WithText | app.js:3184-3185 | `postText` and `text` are set and every other member is kept |
| EngagementCache.UpdateText | app.js:3178-3187 | only an already cached post changes: both text members become the new text, the rest stays |
| EngagementCache.ClearPost | app.js:3193-3201 | the cache invariant is kept |
| EngagementCache.ResetLikes | app.js:140-147 | the cache invariant is kept |
| EngagementCache.RecordCount | app.js:854 | a count is recorded for a non-empty post id and nothing else changes |
| EngagementCache.ClearPostForgetsOnlyThePost | app.js:3193-3201 | the post leaves seven maps; comment likes stay; every other key keeps its entry |
| EngagementCache.ClearedOwnerUnknown | app.js:3193-3201 | after a clear only a mounted card can name the post's owner |
| EngagementCache.ResetKeepsSessionState | app.js:140-147 | five maps are emptied; post data, pagination and sort order are kept |
| EngagementCache.ResetOwnerFromPostData | app.js:140-147 | after a reset an owner is known only through the cached post's `userId` |
| EngagementCache.RememberedOwnerReported | app.js:2872-2884 | a remembered owner is what `getPostOwnerId` reports when no card says otherwise |
| EngagementCache.EnsuredPostCached | app.js:2905-2911 | a post fetched under its own id is returned next time without a request |
| EngagementCache.ForeignIdRefetched | app.js:2896-2911 | a post whose id differs from the requested one lands elsewhere, so the requested one is fetched again |
| EngagementCache.EnsuredOwnerKnown | app.js:2905-2911 | the fetched post's truthy `userId` becomes its owner |
| EngagementCache.PostCaches.constructor | app.js:126-131 | all eight maps start empty |
| EngagementCache.PostCaches.RememberPostOwner | app.js:2872-2875 | the new maps are `RememberOwner` of the old |
| EngagementCache.PostCaches.CachePostData | app.js:2896-2899 | the new maps are `CachePost` of the old |
| EngagementCache.PostCaches.EnsurePostData | app.js:2905-2911 | the new maps and the result are `EnsurePost` of the old maps |
| EngagementCache.PostCaches.UpdatePostText | app.js:3178-3187 | the new maps are `UpdateText` of the old |
| EngagementCache.PostCaches.ClearPostCaches | app.js:3193-3201 | the new maps are `ClearPost` of the old |
| EngagementCache.PostCaches.ResetLikeCaches | app.js:140-147 | the new maps are `ResetLikes` of the old; the photo cache is emptied, its pending requests and ticket counter stay, and exactly the cached `blob:` addresses are handed back for revoking |
| EngagementCache.PostCaches.RecordCommentCount | app.js:854 | the new maps are `RecordCount` of the old |
| EngagementCache.PostCaches.SetEngagement | app.js:1765 | only the clicked kind's entry for the id is replaced |
| EngagementToggle.ChooseAction | app.js:1816-1834 | a request needs a server-backed id and a signed-in user, and a delete needs the cached flag |
| EngagementToggle.RequestIffGatesPass | app.js:1816-1834 | a request is sent exactly when every gate passes, and it is a delete exactly when the cached flag is set |
| EngagementToggle.AfterToggle | app.js:1827-1834 | a click keeps the cache invariant |
| EngagementToggle.StoreKeepsKeysBacked | app.js:1762-1774 | storing under a server-backed id keeps every engagement key server-backed |
| EngagementToggle.ClickKeepsKeysBacked | app.js:1819-1822 | a click never caches engagement under an id that is not server-backed |
| EngagementToggle.GatesSendNothing | app.js:1816-1826 | a click on a non-backed id or without a signed-in user sends nothing and changes no cache |
| EngagementToggle.FailureLeavesCache | app.js:1827-1838 | when the request is turned down, or it succeeds and the re-fetch fails, or a retweet request is answered 401, the cache is unchanged and the next click sends the same request |
| EngagementToggle.ExpiredSessionResets | app.js:58-75 | a like request answered 401 empties the engagement caches; the next click asks for a sign-in, and after signing in every click sends a create |
| EngagementToggle.SuccessStoresRefetch | app.js:1762-1767 | a successful click stores exactly the re-fetched state under the clicked id, and nothing else changes |
| EngagementToggle.RefetchAsWritten | app.js:1872-1884 | as written, the like re-fetch always fails and the retweet re-fetch returns the server's answer |
| EngagementToggle.LikeClicksAlwaysCreate | app.js:1872-1884 | as written, every click on a like not cached as liked sends a create, however often it is clicked |
| EngagementToggle.OneClickFlips | app.js:1827-1834 | with a working re-fetch, one click sends what the flag calls for and flips the cached flag |
| EngagementToggle.ClicksAlternate | app.js:1816-1842 | with a working re-fetch, clicks alternate between create and delete, starting from the cached flag |
| EngagementToggle.OnToggleClick | app.js:1816-1842 | the action is `ChooseAction` of the gates and the cache; the caches become `AfterToggle`; a like request answered 401 signs out and empties the photo cache, any other outcome leaves the photo cache alone; a request re-enables the button (likewise app.js:1844-1870 and app.js:2050-2082) |
| EngagementToggle.Hydrate | app.js:1730-1744 | a non-backed id shows the cached state or `{0, false}` and changes nothing; a failure changes nothing; a fetched state is cached and shown; no other map changes |
| EngagementToggle.HydratedDecidesClick | app.js:1738-1740 | after hydration the next click deletes exactly when the server said the viewer is already in |
| EngagementToggle.HydrateKeepsKeysBacked | app.js:1733-1736 | hydration never caches under an id that is not server-backed |
| EngagementToggle.HydrateButton | app.js:1730-1744 | the new maps and the shown state are `Hydrate` of the old maps |
| PhotoLoader.Ensure | app.js:2969-2992 | a request starts exactly for a non-empty id with no cached outcome and none in flight; it gets a new ticket; otherwise nothing changes |
| PhotoLoader.PhotoUrlOf | app.js:2980-2987 | the cached outcome is never the empty address; a failure is cached as no photo |
| PhotoLoader.Complete | app.js:2981-2989 | on settling, the outcome is cached and the pending entry removed; other users are untouched |
| PhotoLoader.Invalidate | app.js:2994-3001 | the entry goes, pending requests stay, and exactly a `blob:` address is handed back for revoking |
| PhotoLoader.CachedOutcomeNoRequest | app.js:2971 | a cached outcome, `null` included, is returned without a request |
| PhotoLoader.SecondCallJoins | app.js:2972-2991 | a second call while a request is in flight joins it with the same ticket |
| PhotoLoader.SettledThenCached | app.js:2969-2992 | after the request settles, the next call gets the cached outcome |
| PhotoLoader.InvalidatedRefetched | app.js:2994-3001 | after invalidation the next call starts a new request |
| PhotoLoader.FailureCachedAsNoPhoto | app.js:2985-2987 | a failed request is cached as no photo and not retried |
| PhotoLoader.UploadedPhotoUrl | app.js:3086 | the address is `pictureFullUrl \|\| pictureUrl` when that is a string, and none when it is falsy |
| PhotoLoader.AvatarImage.Settle | app.js:3019-3030 | the image shows the photo, else the fallback, else keeps its source; the loading flag is cleared |
| PhotoLoader.PhotoCache.constructor | app.js:132-133 | both maps start empty |
| PhotoLoader.PhotoCache.EnsureProfilePhoto | app.js:2969-2992 | the new tables and the outcome are `Ensure` of the old tables |
| PhotoLoader.PhotoCache.CompleteProfilePhoto | app.js:2973-2989 | the new tables are `Complete` of the old |
| PhotoLoader.PhotoCache.InvalidateProfilePhoto | app.js:2994-3001 | the new tables and the address to revoke are `Invalidate` of the old tables |
| PhotoLoader.PhotoCache.ClearProfilePhotoCache | app.js:3003-3005 | the cache is emptied, pending requests stay, and exactly the cached `blob:` addresses are revoked |
| PhotoLoader.PhotoCache.PhotoUploaded | app.js:3086-3091 | the address `UploadedPhotoUrl` reads from the ticket is cached; without one the entry is invalidated |
| PhotoLoader.PhotoCache.HydrateAvatar | app.js:3010-3030 | one image is left `Hydrated`; the photo cache is unchanged; only that image's user may gain a pending request |
| PhotoLoader.PhotoCache.HydrateUserAvatars | app.js:3007-3031 | every image is left `Hydrated`; the photo cache is unchanged; new requests belong to the images' users; existing requests keep their tickets |
| RemotePosts.ShapeRemotePosts | app.js:2547-2558 | `null` fails; a bare array is one page of its length; an envelope gives its `posts` array (or none), its numeric `total` (or else the number of posts), at least one page and just enough pages for a positive total |
| RemotePosts.PostsPagination | app.js:2702-2725 | hidden exactly without a category or posts; otherwise the page and totals are shown, prev disabled on page 1 and below, next on the last page and beyond, both with one page |
| RemotePosts.Fetched | app.js:2543-2566 | no category gives no request and a hidden row; otherwise the current page is requested; a shaped answer replaces both totals and shows `PostsPagination` of them; a failure keeps the totals and hides the row |
| RemotePosts.ArrowsMatchHandlers | app.js:2717-2743 | within the totals, each arrow is enabled exactly when its handler would move |
| RemotePosts.StrandedPastLastPage | app.js:2702-2724 | a total that shrinks under the page shown leaves "page 2 of 1" with both arrows disabled |
| RemotePosts.ArrayAnswerOnePage | app.js:2550-2553 | a bare array is always one page, so both arrows are disabled |
| RemotePosts.TwelvePostsThreePages | app.js:2554-2557 | twelve posts in all give three pages |
| RemotePosts.RemotePager.constructor | app.js:2517-2522 | no category, page 1, no posts, one page |
| RemotePosts.RemotePager.FetchAndRender | app.js:2543-2566 | the new state, the request and the row are `Fetched` of the old state |
| RemotePosts.RemotePager.SelectCategory | app.js:1119-1121 | the category is chosen at page 1 and fetched |
| RemotePosts.RemotePager.ShowServices | app.js:2494-2501 | the pager is reset and hidden |
| RemotePosts.RemotePager.PrevClick | app.js:2727-2734 | a fetch happens exactly from above page 1, one page back; otherwise nothing changes |
| RemotePosts.RemotePager.NextClick | app.js:2736-2743 | a fetch happens exactly from below the last page, one page on; otherwise nothing changes |
| LocalStore.IndexOfPost | app.js:3204 | the first post whose id reads as the given id, or -1 when none does |
| LocalStore.EditPost | app.js:3203-3210 | only the first matching post changes, and it gets both text fields |
| LocalStore.DeletePost | app.js:3212-3218 | exactly the first matching post is removed, order kept; without a match nothing changes |
| LocalStore.DeleteRemovesFirstOnly | app.js:3212-3218 | with two posts of the id, the second stays and is what the next lookup finds |
| LocalStore.NumericIdMatchesText | app.js:3204 | a numeric id and its decimal text name the same post |
| LocalStore.Partition | app.js:2455-2458 | every post lands in one of the two groups; the first holds only the category's posts, the second only the others |
| LocalStore.CategoryFirst | app.js:2459 | no post is lost, and no post of the category comes after one of another category |
| LocalStore.PartitionIsStable | app.js:2455-2458 | the fold builds exactly the matching posts and the others, each in the original order |
| LocalStore.SplitIsPermutation | app.js:2455-2458 | the two groups together hold exactly the original posts |
| LocalStore.CategoryFirstIsStablePartition | app.js:2455-2459 | the category's posts come first; the order within each group is kept; no post is lost or added |
| LocalStore.IndexOfSkill | app.js:2833 | the first skill whose id is strictly equal, or -1 |
| LocalStore.LocalStore.FindPostIndex | app.js:3204 | the search loop finds `IndexOfPost` |
| LocalStore.LocalStore.SyncLocalPostEdit | app.js:3203-3210 | the posts become `EditPost` of the old; skills stay |
| LocalStore.LocalStore.SyncLocalPostDelete | app.js:3212-3218 | the posts become `DeletePost` of the old; skills stay |
| LocalStore.LocalStore.OnTip | app.js:2830-2843 | signed out, a non-positive amount or an unknown skill changes nothing; otherwise the tip is appended to the first skill with the id |

## Left out

- Network, storage and clock: every `fetch`, the synchronous `config.env` request, `localStorage` saves, `Date.now`, `Math.random` and `URL.revokeObjectURL` are parameters or results. `saveToStorage` after an edit, a delete or a tip is not modelled.
- DOM rendering: templates, toasts, modals, the spinner and the `data-*` fan-out of `updatePostStatsDisplay` are not modelled. Only the state those functions read or write is.
- Concurrency: asynchronous steps are sequential. Completing a photo request is a separate call, and stale or interleaved answers are not modelled.
- `getSafeUserId` is the `viewer` parameter. The code returns a random id when none is stored, so the toggle's `NoViewer` outcome only happens when nobody is signed in, which the earlier gate already catches.
- `onRetweetButtonClick` reopens the viewer's profile after a retweet. That reload is navigation and is not modelled.
- OAuth sign-in, profile editing, post creation and video upload are not part of this model.
- Prototype keys: an object lookup such as `map[ext]` or `CATEGORY_LABELS_BG[key]` with a key like `constructor` finds an inherited member in JavaScript. The maps here hold only their own entries.
- `Object.values` order: members are visited in the order the server sent them. JavaScript visits integer-like keys first.
- Numbers are integers. Fractional, `NaN` and infinite values are not represented.
- `Text.ToLower`: only ASCII letters are lower-cased. `toLowerCase` also folds other alphabets.
- `PostPayload.SafeCount`: a string with a sign, a decimal point, an exponent or a hex prefix is read as 0, although `Number` would read it as a number.
- `CommentsResponse.NormalizeComments`: a truthy `total` or `totalPages` that is not a number (a numeric string, say) is read as 0. The code keeps it as it is.
- `CommentsResponse.NormalizeComments`: a truthy `comments` member that is not an array (an object, say) is read as no comments; `data.comments || []` keeps it and hands it to the renderer, which is not part of this model.
- `Files.SanitizeFileName`: a name that is not a string is `None`. Its `trim` and `replace` are not modelled on other types.
- `LocalStore.LocalStore.OnTip`: the amount is an integer, so `Number('')`, `NaN` and fractional tips are not represented. The thank-you alert is left out.
- `Markup.BuildLikesLabel`: the contract states the badge markup and the noun that agrees with the count, but not the digits in between.
- `PhotoLoader.PhotoCache.HydrateUserAvatars`: the contract says new requests come from the images' users. It does not name the image that started each one.
- `EngagementToggle.BackedKeys`: that engagement is cached only under server-backed ids is kept by the handlers (`ClickKeepsKeysBacked`, `HydrateKeepsKeysBacked`). It is not part of the `PostCaches` invariant.
- `EngagementToggle.OnToggleClick`: the three handlers are one method over `Kind`, and the toast texts are left out. A sign-out is the `signedOut` result; `authState`, its saved copy, the header and the sign-in modal that `authenticatedFetch` also updates are not modelled.
- `EngagementToggle.Hydrate`: a 401 answer to the hydration's state request is not modelled. As written, the like state request rejects before it sends anything, and the retweet requests use plain `fetch`. With the corrected re-fetch, `hasUserLikedPost` could be answered 401 and sign the viewer out; the model treats that as a failure.
- `EngagementToggle.FailureLeavesCache`: the same holds for the re-fetch after a click. A 401 to the corrected like re-fetch would reset the caches; the model treats it as a failed re-fetch.
- `EngagementCache.EnsurePost`: `fetchSinglePost` goes through `authenticatedFetch`, so a 401 there also signs out and empties the engagement caches. The model treats it as a failed request.
- `CommentSessions.HydrateCount`: `fetchCommentCountOnly` goes through `authenticatedFetch` as well; a 401 there is likewise treated as a failure.
- `Json.Find`: a lookup takes the first member with the key. `JSON.parse` keeps the last of duplicate keys, so every `Get` on a body with a repeated key may read a different member than the client does.
- `PostPayload.SafeCount`: an array is read as 0. `Number` reads a one-element array as its element (`Number([7])` is 7) and an empty array as 0.
- `PhotoLoader.UploadedPhotoUrl`: a truthy `pictureFullUrl` or `pictureUrl` that is not a string (a number, say) counts as no address here; the code would cache it as it is.

## Findings

| source | as written | input that shows it | evidently intended | confidence | as-written member | corrected member |
|---|---|---|---|---|---|---|
| app.js:2845-2847 | the pattern `/[&<>"]+/g` hands a whole run of special characters to a replacer that only knows single characters | `escapeHtml("a<<b")` gives `aundefinedb` | each special character replaced by its own entity | high, not executed | Markup.EscapeHtmlLosesRuns | Markup.EscapeHtmlCharsRoundTrip |
| app.js:1872-1884 | `fetchPostLikeState` / `fetchCommentLikeState` call `fetchPostLikesCount` / `fetchCommentLikesCount`, which are not defined (the functions at app.js:1918 and app.js:1927 are `fetchPostLikeCount` / `fetchCommentLikeCount`) | any like click on a server-backed post: the re-fetch rejects, the cache never learns `liked`, and every click sends another like | the re-fetch stores `{count, liked}`, so clicks alternate between like and unlike | high, not executed | EngagementToggle.LikeClicksAlwaysCreate | EngagementToggle.ClicksAlternate |
| app.js:10-16 | `line.split('=')[1]` keeps only the text between the first and the second `=` | `BACKEND_URL=https://h/api?k=v` gives `https://h/api?k` | the whole value after `BACKEND_URL=` | medium, not executed | Config.ValueCutAtEquals | Config.CorrectedRoundTrip |
