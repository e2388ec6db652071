# MoviePilot: transfer history and subscription endpoint rules

This project models two parts of MoviePilot, a media-library automation service.

- **Transfer history** (`transfer_history.dfy`). `TransferHistoryOper` keeps the table of
  file transfers. It inserts rows and stamps each one with the current time. Its
  "forced" insert replaces the row for the same source path. It builds the success and
  failure rows from the file, the parsed metadata, the media and the transfer outcome.
  The table is a class holding the rows in storage order. Ids are assigned on insert
  and rise. The current time is a parameter.
- **Subscription endpoints** (`subscribe.dfy`). These are the decision rules of the
  subscription API, taken out of the web framework:
  - how an update adjusts the missing-episode count and flags a total edited by hand;
  - the allowed states R, P and S;
  - the reset;
  - the `tmdb:`, `douban:` and `bangumi:` media-id prefixes for lookup and deletion;
  - the Overseerr/Jellyseerr webhook, which turns an approved request into one
    subscription task per requested season;
  - the `min_sub` filter of the popular list;
  - following and unfollowing a subscription sharer.

  Database lookups are function parameters. Background tasks are returned as a list.
- `wrappers.dfy` holds `Option` and the truthiness of optional strings and integers.
  `text.dfy` holds `str.isdigit()`, `int()` and `str(n)` on ASCII digits, and
  `str.split(", ")` with its inverse `", ".join`.

`add_force` returns the first row with its source path. That is the row it just added
only when no other row with that path survives (`TransferHistory.AddForceReturnsAdded`).

## Model

| member | source | states |
|---|---|---|
| TransferHistory.TransferHistoryOper.constructor | app/db/transferhistory_oper.py:11-14 | the table starts empty, the first id is 1, the id invariant holds |
| TransferHistory.TransferHistoryOper.Get | app/db/transferhistory_oper.py:16-21 | a found row is in the table and has the id; no row is found only when no row has it |
| TransferHistory.TransferHistoryOper.GetByTitle | app/db/transferhistory_oper.py:23-28 | exactly the rows with that title |
| TransferHistory.TransferHistoryOper.GetBySrc | app/db/transferhistory_oper.py:30-36 | a found row has the source path, and the storage when one is given, and no earlier row in storage order matches; nothing is found only when no row matches |
| TransferHistory.TransferHistoryOper.GetByDest | app/db/transferhistory_oper.py:38-43 | a found row has the destination path and no earlier row in storage order has it; nothing is found only when no row has it |
| TransferHistory.TransferHistoryOper.ListByHash | app/db/transferhistory_oper.py:45-50 | exactly the rows of that download hash |
| TransferHistory.TransferHistoryOper.Create | app/db/transferhistory_oper.py:59 | one row holding exactly the given columns is appended under the next id, and the id invariant holds |
| TransferHistory.TransferHistoryOper.Add | app/db/transferhistory_oper.py:52-59 | one row is appended under the next id, with the caller's columns and the date replaced by the current time |
| TransferHistory.Stamped | app/db/transferhistory_oper.py:56-58 | the stored date is the current time and every other column is the caller's |
| TransferHistory.TransferHistoryOper.Delete | app/db/transferhistory_oper.py:90-94 | the table loses the row with the id and keeps the id invariant; afterwards no row has that id |
| TransferHistory.DeleteRemovesAtMostOne | app/db/transferhistory_oper.py:90-94 | deleting removes exactly the one row with the id, keeping order, or nothing when the id is absent |
| TransferHistory.DeleteKeepsOthers | app/db/transferhistory_oper.py:90-94 | after deleting, a row remains iff it was there and has another id |
| TransferHistory.DeleteKeepsIdsAscending | app/db/transferhistory_oper.py:90-94 | deleting preserves ascending ids |
| TransferHistory.TransferHistoryOper.Truncate | app/db/transferhistory_oper.py:96-100 | the table is empty and no id is found |
| TransferHistory.ForceInserted | app/db/transferhistory_oper.py:102-114 | with a non-empty source path, the first row with that path is removed whatever its storage; then the stamped row is appended under the next id |
| TransferHistory.TransferHistoryOper.AddForce | app/db/transferhistory_oper.py:102-114 | the new table is the forced insert of the old one, and the result is the first row with the source path, which always exists |
| TransferHistory.AddForceReturnsAdded | app/db/transferhistory_oper.py:102-114 | the returned row is the new row iff at most one row had the path before (none when the path is empty or missing) |
| TransferHistory.FirstOfAppended | app/db/transferhistory_oper.py:114 | a matching row appended with a fresh id is found first iff no earlier row matches |
| TransferHistory.AddForceTwice | app/db/transferhistory_oper.py:102-114 | two forced inserts for the same new path leave every earlier row and only the second insert's row with that path |
| TransferHistory.TransferHistoryOper.UpdateDownloadHash | app/db/transferhistory_oper.py:116-120 | only the download hash of the row with that id changes |
| TransferHistory.WithDownloadHash | app/db/transferhistory_oper.py:116-120 | same length and ids; the row with the id gets the hash; every other row and every other column is unchanged |
| TransferHistory.SuccessFields | app/db/transferhistory_oper.py:128-151 | status 1 and no error message; source columns and mode from the file and the caller; destination columns from the target item, all null without one; type, category, title, year, TMDB, IMDb, TVDB and Douban ids and image from the media; seasons and episodes from the parsed metadata; downloader, hash and file list as given; no episode group |
| TransferHistory.TransferHistoryOper.AddSuccess | app/db/transferhistory_oper.py:122-151 | the table is the forced insert of the success row |
| TransferHistory.FailFields | app/db/transferhistory_oper.py:158-199 | status 0; source columns, mode, seasons, episodes, downloader and hash always set. With media and transfer info: the error is the transfer message or "unknown error"; title and year fall back to the parsed ones; destination columns come from the target item (all null without one); type, category, ids, image and episode group come from the media; the file list is the transfer's. Without them: the error is "media not recognised"; title and year are the parsed ones; destination, type, category, ids, image, episode group and files are null |
| TransferHistory.TransferHistoryOper.AddFail | app/db/transferhistory_oper.py:153-200 | the table is the forced insert of the failure row, and the result is the first row with the source path |
| TransferHistory.FindFirst | app/db/transferhistory_oper.py:30-36 | nothing is found iff no row matches; a found row matches and no earlier row does |
| TransferHistory.SelectAllMembers | app/db/transferhistory_oper.py:23-28 | a listing holds exactly the matching rows |
| SubscribeEndpoints.UpdatedSubscribe | app/api/endpoints/subscribe.py:105-119 | a zero or missing count keeps the stored count; a growing total adds its growth to the stored count, and fails when that count is null; otherwise the given count is stored; a changed total sets the manual flag; every other field is the incoming one |
| SubscribeEndpoints.UpdateKeepsObtainedEpisodes | app/api/endpoints/subscribe.py:108-113 | when the total grows, total minus missing (the episodes already obtained) is unchanged |
| SubscribeEndpoints.UpdateSubscribe | app/api/endpoints/subscribe.py:99-125 | a missing subscription gives "not found"; a null stored count in the growth branch raises; otherwise success and the stored record is the update above |
| SubscribeEndpoints.UpdateSubscribeStatus | app/api/endpoints/subscribe.py:136-145 | "not found" is checked before "invalid state"; it succeeds iff the subscription exists and the state is R, P or S; success changes the state only; failure changes nothing |
| SubscribeEndpoints.StatusStaysValid | app/api/endpoints/subscribe.py:139-145 | a subscription in a valid state stays in a valid state after any status request |
| SubscribeEndpoints.ResetSubscribe | app/api/endpoints/subscribe.py:217-232 | note emptied, missing count set to the total, state R, all else unchanged; "not found" without a subscription |
| SubscribeEndpoints.ResetIdempotent | app/api/endpoints/subscribe.py:217-232 | resetting twice equals resetting once |
| SubscribeEndpoints.ParseMediaId | app/api/endpoints/subscribe.py:165-185 | `tmdb:` and `bangumi:` need a digit suffix and yield its value; `douban:` needs a non-empty suffix; other ids are kept raw; malformed exactly when a recognised prefix has a bad suffix |
| SubscribeEndpoints.MediaIdRoundTrip | app/api/endpoints/subscribe.py:165-185 | every well-formed key is parsed back from its media id |
| SubscribeEndpoints.SubscribeByMediaId | app/api/endpoints/subscribe.py:165-196 | malformed ids find nothing; TMDB ids are looked up with the season; other ids fall back to the title (season overridden when given) only when the primary lookup finds nothing and a title is given |
| SubscribeEndpoints.TmdbIgnoresTitle | app/api/endpoints/subscribe.py:166-170 | for a `tmdb:` id the result does not depend on the title |
| SubscribeEndpoints.DeleteByMediaId | app/api/endpoints/subscribe.py:294-319 | success iff the id is not malformed; a TMDB id deletes every subscription with that id and season; a Douban or raw id deletes exactly the subscription its lookup finds, or none |
| SubscribeEndpoints.DeleteTreatsBangumiAsMediaId | app/api/endpoints/subscribe.py:294-312 | deletion has no `bangumi:` branch, so such an id is looked up as a raw media id |
| SubscribeEndpoints.DigitTokens | app/api/endpoints/subscribe.py:361 | all tokens read as numbers when every token is digits, none when no token is |
| SubscribeEndpoints.DigitTokensMembers | app/api/endpoints/subscribe.py:361 | a number is among the seasons iff some all-digit token reads as it |
| SubscribeEndpoints.DigitTokensAppend | app/api/endpoints/subscribe.py:361 | tokens are read one by one: the seasons of a concatenation are the seasons of each part, in order |
| SubscribeEndpoints.ParseSeasonsRoundTrip | app/api/endpoints/subscribe.py:361 | a season list written as "1, 2, 3" is read back as the same list |
| SubscribeEndpoints.RequestedSeasonsAt | app/api/endpoints/subscribe.py:359-362 | the seasons are those of the first extra named "Requested Seasons", whatever follows it |
| SubscribeEndpoints.NoRequestedSeasons | app/api/endpoints/subscribe.py:358-362 | without such an extra there are no seasons |
| SubscribeEndpoints.SeerrSubscribe | app/api/endpoints/subscribe.py:328-372 | a bad token raises 400 before anything else; an empty body raises 500; an unsupported type or a missing TMDB id or subject answers failure; nothing is scheduled unless all checks pass; a movie schedules one task with season 0; a series schedules one task per season of the first "Requested Seasons" extra, in order |
| SubscribeEndpoints.Popular | app/api/endpoints/subscribe.py:411-418 | the kept entries all meet `min_sub` and are no more than the input; without `min_sub` everything is kept |
| SubscribeEndpoints.PopularMembers | app/api/endpoints/subscribe.py:414-418 | an entry is kept iff it is in the input and meets `min_sub` |
| SubscribeEndpoints.PopularCounts | app/api/endpoints/subscribe.py:414-418 | duplicates are kept: an entry meeting `min_sub` occurs as often as in the input, any other never |
| SubscribeEndpoints.PopularAppend | app/api/endpoints/subscribe.py:414-418 | each entry is judged alone and order is kept: filtering a concatenation concatenates the filtered parts |
| SubscribeEndpoints.PopularSubscribes | app/api/endpoints/subscribe.py:409-418 | the loop keeps exactly the entries of the filter above, in order |
| SubscribeEndpoints.Followed | app/api/endpoints/subscribe.py:530-534 | a given sharer is in the list afterwards; the old list is an unchanged prefix and at most the sharer is appended; an already-followed or missing sharer leaves the list as it was; a list without duplicates stays without duplicates |
| SubscribeEndpoints.Unfollowed | app/api/endpoints/subscribe.py:544-548 | a present sharer's first occurrence is removed and the rest keep their order; it is then absent from a duplicate-free list; everyone else stays; nothing changes when the sharer is absent |
| SubscribeEndpoints.IndexOf | app/api/endpoints/subscribe.py:546 | the position of the first occurrence: it holds the element and no earlier position does |
| SubscribeEndpoints.RemoveFirst | app/api/endpoints/subscribe.py:546 | `list.remove` drops the first occurrence and keeps the rest in order; the length drops by one and the multiset loses one copy |
| SubscribeEndpoints.FollowIdempotent | app/api/endpoints/subscribe.py:530-534 | following twice equals following once |
| SubscribeEndpoints.UnfollowUndoesFollow | app/api/endpoints/subscribe.py:530-548 | unfollowing a sharer just followed restores the list |
| SubscribeEndpoints.FollowedSubscribers.Follow | app/api/endpoints/subscribe.py:524-535 | the stored list becomes the followed list; the answer is success |
| SubscribeEndpoints.FollowedSubscribers.Unfollow | app/api/endpoints/subscribe.py:538-549 | the stored list becomes the unfollowed list; the answer is success |
| Text.DecimalRoundTrip | app/api/endpoints/subscribe.py:168-170 | reading back a spelled-out number gives the number |
| Text.SplitJoin | app/api/endpoints/subscribe.py:361 | joining the pieces of a split with ", " gives the text back |
| Text.JoinSplit | app/api/endpoints/subscribe.py:361 | splitting comma-free pieces joined with ", " gives the pieces back |
| Text.SplitPiecesHaveNoSeparator | app/api/endpoints/subscribe.py:361 | no piece of a split contains ", " |

## Left out

- The database layer is left out. This covers SQLAlchemy sessions, `DbOper`, and the
  `TransferHistory` and `Subscribe` ORM classes, which are not part of this model. Their
  lookups are modelled as "first matching row in storage order" and "all matching rows".
  `get_by_src` filters by storage only when a storage is given. Deleting a missing id
  does nothing.
- `statistic` and `list_by_date` are left out. They are SQL queries over dates and
  grouping whose bodies are not part of this model.
- `get_by` and `get_by_type_tmdbid` are left out. They filter on a conjunction of
  columns through ORM queries whose bodies are not part of this model.
- The clock is left out. `time.strftime(...)` becomes the parameter `now`, so the date
  format is not modelled.
- `add_success` and `add_fail` take a `FileItem`, and its `dict()` snapshot is the item
  itself. `MediaInfo.get_poster_image()` is a field. `MediaType.value` is a string.
- Storing an update assigns every key of the given dictionary, `None` values included.
  This is the assumed behaviour of `Subscribe.update`, which is not part of this model.
  `SubscribeEndpoints.UpdatedSubscribe` and `SubscribeEndpoints.ResetSubscribe` depend on
  it. If the ORM skipped `None` values, a null incoming field or a null total reset would
  keep the stored value instead.
- The web layer is left out: FastAPI routing, `verify_token`, `Depends`, and
  `async`/`await` on the request body. `HTTPException` becomes `Raised(status, detail)`.
  A response whose message is `None` carries the message "".
- Events are left out: `eventmanager.send_event`, which every update, reset and
  deletion emits.
- `Scheduler` is left out, and so are the `BackgroundTasks` the webhook enqueues. These
  tasks are returned as a list and never run.
- `start_subscribe_add` and `SubscribeChain` are left out.
- `SubscribeHelper` is left out. Its statistics become the input list of the popular
  filter, and building a `MediaInfo` from each kept entry is not modelled.
- `SystemConfigOper` is left out. The followed list is the field of
  `FollowedSubscribers`, and reading and writing it back are not modelled.
- `MetaInfo(title)` is left out. A title lookup carries the raw title, plus a season
  override when a season is given.
- The other subscription endpoints are left out: create, list, refresh, check, search,
  history, share, fork, files, user, detail and delete by id.
- `app/modules/indexer/parser/yema.py` is left out entirely.
- SubscribeEndpoints.ParseMediaId: only ASCII `0`–`9` count as digits in a `tmdb:` or
  `bangumi:` id (app/api/endpoints/subscribe.py:168-170, 180-182 and 297-299). The source
  reads an id made of non-ASCII decimal digits (fullwidth `１`, Arabic-Indic `١`) with
  `int()` as its value; the model treats that id as malformed. An id with a digit that
  `isdigit()` accepts but that is not decimal (`²`) makes `int()` raise `ValueError` in
  the source; that crash is not modelled.
- SubscribeEndpoints.DigitTokens: only ASCII digits count. The source reads a token of
  non-ASCII decimal digits (fullwidth `１`, Arabic-Indic `١`) with `int()` as its value;
  the model drops that token. A digit that is not decimal (`²`) makes `int()` raise
  `ValueError`; that crash is not modelled.
- SubscribeEndpoints.Popular: an entry's subscriber count is an integer. A missing count
  compared with `min_sub` raises `TypeError` in the source, and that crash is not modelled.
- TransferHistory.SuccessFields: the media type is a string. A media without a type
  makes `mediainfo.type.value` raise `AttributeError` in the source. That crash, in both
  the success and the failure builders, is not modelled.
- SubscribeEndpoints.UpdateSubscribe: a `TypeError` from adding to a null stored
  missing count is modelled as `Raised(500, "TypeError")`. The real framework's error
  response is not modelled.
- SubscribeEndpoints.SeerrSubscribe: does not model a non-JSON body or a null
  `media`/`request` object. The same goes for a "Requested Seasons" extra without a
  value, which makes the source raise. A truthy body that is not an object (`[1]`)
  makes `req_json.get` raise at app/api/endpoints/subscribe.py:339, and an explicit
  `"extra": null` makes the loop at app/api/endpoints/subscribe.py:359 raise
  `TypeError`; neither crash is modelled. An extra's value is a string. A TMDB id that
  is not an integer is not modelled.
- SubscribeEndpoints.SubscribeByMediaId: returns `None` where the source returns an
  empty `Subscribe()`.
- Integer widths are not modelled. Python integers are unbounded, like Dafny's.
