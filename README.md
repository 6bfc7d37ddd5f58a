# School website data layer and router, in Dafny

This project models the client-side core of a school website: the data
service `DatabaseService` (`services/database.ts`) and the root component
(`App.tsx`). The model proves properties about it.

- **Ids.** The data service tells a record's real id from a temporary one with
  `isRealId`. Every record save (each `saveX` taking a record, and each item
  of `saveMenu`) updates a row when the id is real and inserts one otherwise.
  `saveConfig` takes no id: it updates the first listed row, or inserts one
  when there is none. The two batch order saves only ever update.
- **Caching.** A few values are cached in `localStorage` as `{data, timestamp}`
  envelopes:
  - the school config
  - the home posts
  - the staff list
  - the menu

  Their accessors return the cached value if there is one, and otherwise the
  fetched value.
- **Field mapping.** A record is translated to and from a row that holds one
  field per column the service writes or reads, with defaults filled in on
  read. Saving a record and then listing its table gives the record back,
  under the id it was saved to, when a real id names an existing row; posts
  and config are the exceptions.
- **Visits.** A per-day guard key in `localStorage` keeps a browser from
  incrementing the visit counters again once that day's increment has
  resolved. It does not stop two visits whose increments overlap, and an
  increment whose guard write is refused can repeat. Visitor statistics
  fold the counters into a record with neutral defaults.
- **Routing.** The component routes on the `page`/`id` query parameters.
  `navigate` refuses the admin pages without a user. Routing a URL does not:
  it sets whatever page the query names, and only the render decision then
  shows the login view in place of an admin page.
- **Bootstrap merge.** A data refresh is merged into the held state: config and
  posts are never lost, and blocks, introductions and menu are filtered and
  sorted.

Layout, one module per file:

| file | module | contents |
|---|---|---|
| `wrappers.dfy` | `Wrappers` | `Option`, `Result` |
| `ids.dfy` | `Ids` | `IsRealId` and what it accepts |
| `entities.dfy` | `Entities` | the records the service and the component exchange |
| `field_mapping.dfy` | `FieldMapping` | row datatypes, the row/record mappings, the defaults |
| `storage.dfy` | `Storage` | `localStorage` and `sessionStorage` as classes over maps; the cache envelope |
| `remote.dfy` | `Remote` | a database table as a class over a map; update, insert, upsert dispatch, order updates |
| `database.dfy` | `Database` | every get / save / delete accessor of the service |
| `visits.dfy` | `Visits` | `trackVisit`, `getVisitorStats` |
| `ordering.dfy` | `Ordering` | `filter` and the stable `sort` by order |
| `router.dfy` | `Router` | the URLs `navigate` builds and the query reading of `handleUrlRouting` |
| `app.dfy` | `App` | the component state as a class; hydration, routing, navigation, login, logout, refresh |

Mutable state is modelled as classes whose methods state their new state:
- the two browser stores;
- each remote table;
- the visit counter procedure;
- the component's React state.

Everything nondeterministic or external is a parameter:
- `Date.now()` (`now`);
- today's ISO date (`today`);
- `crypto.randomUUID()` (`freshUuid`);
- the id the database issues on insert (`newId`);
- whether the database took a write (`written`, one flag per write of a batch;
  the service never reads a write's `{error}`, so a refused write leaves the
  table as it was and the service goes on as if it had succeeded);
- `parseInt` (a function to `Option<int>`, `None` standing for NaN);
- the verdict of a storage write or `pushState` (`accepted`, `sessionAccepted`, `pushOk`);
- the `{data, error}` response of each query.

## Model

| member | source | states |
|---|---|---|
| Ids.RealIdCharacterization | services/database.ts:48-52 | an id is real exactly when it is non-empty, longer than 20 characters and contains no `_` |
| Ids.TemporaryIdIsNotReal | services/database.ts:50-51 | every client-made `<kind>_<digits>` id is temporary |
| Ids.UuidIsReal | services/database.ts:50-51 | every 36-character hyphenated UUID is real |
| Ids.ShortIdIsNotReal | services/database.ts:49-51 | the empty id and any id of 20 characters or fewer is temporary |
| Storage.CacheRoundTrip | services/database.ts:54-66 | `getCache(k)` after a successful `setCache(k, v)` yields `v` |
| Storage.CacheMissFailsSoft | services/database.ts:60-66 | an absent, raw or unparsable entry reads as no cached value |
| Storage.CacheKeysIndependent | services/database.ts:54-66 | writing or removing one key changes what no other key reads as |
| Storage.LocalStorage.SetCache | services/database.ts:54-58 | an accepted write stores the envelope `{data, now}`; a refused write leaves the store unchanged |
| Storage.LocalStorage.GetCache | services/database.ts:60-66 | yields the envelope's data, nothing otherwise, and changes nothing |
| Storage.LocalStorage.GetItem | services/database.ts:76 | the truthiness of `getItem(key)`: present and not empty |
| Storage.LocalStorage.SetItem | services/database.ts:77 | an accepted write stores the raw text; a refused one changes nothing |
| Storage.LocalStorage.RemoveItem | services/database.ts:154 | the key is gone and every other entry is unchanged |
| Storage.SessionStorage.GetItem | services/database.ts:71 | the stored string if any, and no change |
| Storage.SessionStorage.SetItem | services/database.ts:72 | an accepted write stores the value; a refused one changes nothing |
| Remote.ListedRead | services/database.ts:185-188 | a listing of the whole table maps to exactly the records made from the table's rows: every row once read, nothing else |
| Remote.Patched | services/database.ts:152 | `update(...).eq('id', id)` keeps the key set, changes only the matching row, and is no change when no row matches |
| Remote.Upserted | services/database.ts:152-153 | a real id updates that row and keeps the keys; a temporary id inserts one row under the issued id; no other row changes |
| Remote.SecondSaveUpdates | services/database.ts:152-153 | a record inserted under a temporary id and saved again under its issued real id updates that same row |
| Remote.SavedRowListed | services/database.ts:185-194 | after an upsert, a listing of the table holds the saved row under the id it was saved under: the real id, or the issued one; a real id must name an existing row |
| Remote.LastOrderForSpec | services/database.ts:229-231 | the last order for an id exists exactly when some update names it, and is that of an update no later one overrides |
| Remote.KeptAll | services/database.ts:229-231 | when every update of a batch is taken, the applied updates are the whole batch |
| Remote.KeptNone | services/database.ts:229-231 | when every update of a batch is refused, none is applied |
| Remote.ReorderedEffect | services/database.ts:229-231 | a sequence of order updates keeps the table's ids, leaves unlisted rows alone and gives each listed row the order of its last update |
| Remote.Table.Insert | services/database.ts:153 | the row is added under the issued id and nothing else changes |
| Remote.Table.Update | services/database.ts:152 | the table becomes `Patched` by the update |
| Remote.Table.Delete | services/database.ts:159 | `delete().eq('id', id)` removes exactly that id |
| Remote.Table.Upsert | services/database.ts:73 | `upsert` on conflict of the key: the row under the key is set, others unchanged |
| FieldMapping.ConfigFromRow | services/database.ts:98-108 | a read config always carries footer links |
| FieldMapping.ConfigToRow | services/database.ts:118-128 | mapping a config to its row and the row back gives the config, null footer links reading as the default links |
| FieldMapping.PostFromListing | services/database.ts:143 | a listed post keeps its id and gets empty tags, attachments and block ids; content, author and the two flags are absent |
| FieldMapping.PostToRow | services/database.ts:151 | the saved row carries every field of the post; reading it back as a listing gives the post minus the fields the listing does not select |
| FieldMapping.StaffToRow | services/database.ts:166-174 | mapping a staff member to its row and the row back gives the staff member, under the id it is read with, an empty party date being written and read back as null |
| FieldMapping.DocumentToRow | services/database.ts:187-191 | mapping a document to its row and the row back gives the document, under the id it is read with |
| FieldMapping.AlbumToRow | services/database.ts:201-205 | mapping a album to its row and the row back gives the album, under the id it is read with |
| FieldMapping.ColorOrDefault | services/database.ts:216 | a read colour is the stored one when non-empty, `#1e3a8a` otherwise, and never empty |
| FieldMapping.BlockFromRow | services/database.ts:215-217 | both read colours are non-empty; the id and the order come from the row |
| FieldMapping.BlockToRow | services/database.ts:216-221 | mapping a block to its row and back gives the block with its colours defaulted |
| FieldMapping.WithBlockOrder | services/database.ts:230 | the order update changes `order_index` and nothing else |
| FieldMapping.MenuToRow | services/database.ts:237-246 | mapping a menu item to its row and the row back gives the menu item, under the id it is read with |
| FieldMapping.PostCategoryToRow | services/database.ts:265-269 | mapping a post category to its row and the row back gives the post category, under the id it is read with |
| FieldMapping.DocCategoryFromRow | services/database.ts:279 | a null order reads as 0 |
| FieldMapping.DocCategoryToRow | services/database.ts:279-283 | mapping a document category to its row and the row back gives the document category, under the id it is read with |
| FieldMapping.WithDocCategoryOrder | services/database.ts:293 | the order update changes `order_index` and nothing else |
| FieldMapping.VideoToRow | services/database.ts:298-302 | mapping a video to its row and the row back gives the video, under the id it is read with |
| FieldMapping.IntroductionToRow | services/database.ts:312-316 | mapping a introduction to its row and the row back gives the introduction, under the id it is read with |
| FieldMapping.ImageToRow | services/database.ts:326-331 | mapping a image to its row and the row back gives the image, under the id it is read with |
| FieldMapping.UserFromRow | services/database.ts:342-348 | the e-mail is the username at the school domain |
| FieldMapping.UserToRow | services/database.ts:347-352 | mapping a user to its row and back gives the user with the e-mail derived from the user name |
| Database.SaveRecord | services/database.ts:152-153 | a taken save is the upsert dispatch on `isRealId`; a refused one leaves the table unchanged |
| Database.DeleteRecord | services/database.ts:197 | a taken delete removes exactly that id; a refused one leaves the table unchanged |
| Database.ApplyOrderUpdates | services/database.ts:229-231 | the order loop applies, in list order, exactly the updates the store took |
| Database.GetConfig | services/database.ts:93-115 | the cached config when present, else the mapped row, else the default; a successful fetch refreshes the cache |
| Database.SaveConfig | services/database.ts:117-136 | updates the first existing config row, else inserts one, when the store takes the write; caches the config as given either way |
| Database.SaveConfigThenGet | services/database.ts:93-136 | the next `getConfig` returns the config just saved, from the cache, whether or not the row write was taken |
| Database.PostsFetchResult | services/database.ts:141-145 | an error response throws; otherwise one post per row, each with its id and empty tags, attachments and block ids |
| Database.GetPosts | services/database.ts:138-148 | the cached posts when present, else the fetch result; a fetch without error overwrites the cache, even with an empty list |
| Database.SavePost | services/database.ts:150-155 | upsert dispatch on the post's id when taken, no change when refused; the home-posts key is removed either way |
| Database.SavePostThenGet | services/database.ts:138-155 | the next `getPosts` does not serve the cache the save dropped: it returns the fetch result |
| Database.DeletePost | services/database.ts:157-160 | the row is removed when the delete is taken; the home-posts key is removed either way |
| Database.GetStaff | services/database.ts:162-171 | the cached staff when present, else the fetch result; the fetch always overwrites the cache |
| Database.SavedStaffReadsBack | services/database.ts:162-178 | a saved staff member is in the next listing, under the id it was saved under, an empty party date read back as absent; a real id must name an existing row |
| Database.SaveStaffThenGet | services/database.ts:162-178 | after a taken save, the next `getStaff` skips the dropped cache and returns a list holding the saved member; a real id must name an existing row |
| Database.SaveStaff | services/database.ts:173-178 | upsert dispatch when taken; the staff key is removed either way |
| Database.DeleteStaff | services/database.ts:180-183 | the row is removed when taken; the staff key is removed either way |
| Database.SavedDocumentReadsBack | services/database.ts:185-194 | a saved record is in the next listing of its table, under the id it was saved under; a real id must name an existing row |
| Database.SaveDocument | services/database.ts:190-194 | upsert dispatch on the document's id when the store takes the write; a refused one leaves the table unchanged |
| Database.DeleteDocument | services/database.ts:197 | the row is removed when the delete is taken; a refused one changes nothing |
| Database.SavedAlbumReadsBack | services/database.ts:199-208 | a saved record is in the next listing of its table, under the id it was saved under; a real id must name an existing row |
| Database.SaveAlbum | services/database.ts:204-208 | upsert dispatch on the album's id when the store takes the write; a refused one leaves the table unchanged |
| Database.DeleteAlbum | services/database.ts:211 | the row is removed when the delete is taken; a refused one changes nothing |
| Database.GetBlocks | services/database.ts:213-218 | one block per row in listing order, every colour non-empty |
| Database.SavedBlockReadsBack | services/database.ts:213-224 | a saved record is in the next listing of its table, under the id it was saved under, its colours defaulted; a real id must name an existing row |
| Database.SaveBlock | services/database.ts:220-224 | upsert dispatch on the block's id when the store takes the write; a refused one leaves the table unchanged |
| Database.DeleteBlock | services/database.ts:227 | the row is removed when the delete is taken; a refused one changes nothing |
| Database.SaveBlocksOrder | services/database.ts:229-231 | the loop applies, in list order, the `(id, order)` update of every block whose write the store took |
| Database.BlocksOrderEffect | services/database.ts:229-231 | after the order save every block row keeps its id and fields, and each one with a taken update has the order of its last taken update |
| Database.GetMenu | services/database.ts:233-242 | the cached menu when present, else the fetch result; the fetch always overwrites the cache |
| Database.MenuStep | services/database.ts:246-253 | one item's save is the upsert dispatch on its id when taken, no change when refused |
| Database.InsertedIdsCount | services/database.ts:248-253 | with distinct issued ids, one new id per temporary item whose insert was taken |
| Database.MenuSavedKeys | services/database.ts:245-254 | after the menu save the table's ids are the old ones plus the ids issued for the temporary items whose insert was taken |
| Database.MenuSavedCount | services/database.ts:245-254 | the table grows by exactly the number of taken temporary items and loses no row |
| Database.MenuSavedUntouched | services/database.ts:244-256 | a row that no taken item names by its real id keeps its contents |
| Database.MenuSavedInserted | services/database.ts:244-256 | the row issued for a taken temporary item holds that item, unless a later taken item names that id |
| Database.MenuSavedUpdated | services/database.ts:244-256 | the row named by a taken real-id item holds that item, unless a later taken item names the same id |
| Database.SaveMenu | services/database.ts:244-256 | the loop saves every item in order, each taken or refused, then the menu key is removed |
| Database.SaveMenuThenGet | services/database.ts:233-256 | the next `getMenu` skips the dropped cache and returns the fetch result |
| Database.DeleteMenu | services/database.ts:258-261 | the row is removed when taken; the menu key is removed either way |
| Database.SavedPostCategoryReadsBack | services/database.ts:263-272 | a saved record is in the next listing of its table, under the id it was saved under; a real id must name an existing row |
| Database.SavePostCategory | services/database.ts:268-272 | upsert dispatch on the category's id when the store takes the write; a refused one leaves the table unchanged |
| Database.DeletePostCategory | services/database.ts:275 | the row is removed when the delete is taken; a refused one changes nothing |
| Database.GetDocCategories | services/database.ts:277-280 | one category per row in listing order, a null order reading as 0 |
| Database.SavedDocCategoryReadsBack | services/database.ts:277-286 | a saved record is in the next listing of its table, under the id it was saved under; a real id must name an existing row |
| Database.SaveDocCategory | services/database.ts:282-286 | upsert dispatch on the category's id when the store takes the write; a refused one leaves the table unchanged |
| Database.DeleteDocCategory | services/database.ts:289 | the row is removed when the delete is taken; a refused one changes nothing |
| Database.SaveDocCategoriesOrder | services/database.ts:292-294 | the loop applies, in list order, the `(id, order)` update of every category whose write the store took |
| Database.DocCategoriesOrderEffect | services/database.ts:292-294 | each category row with a taken update ends with the order of its last taken update; other rows and all ids unchanged |
| Database.SavedVideoReadsBack | services/database.ts:296-305 | a saved record is in the next listing of its table, under the id it was saved under; a real id must name an existing row |
| Database.SaveVideo | services/database.ts:301-305 | upsert dispatch on the video's id when the store takes the write; a refused one leaves the table unchanged |
| Database.DeleteVideo | services/database.ts:308 | the row is removed when the delete is taken; a refused one changes nothing |
| Database.SavedIntroductionReadsBack | services/database.ts:310-319 | a saved record is in the next listing of its table, under the id it was saved under; a real id must name an existing row |
| Database.SaveIntroduction | services/database.ts:315-319 | upsert dispatch on the introduction's id when the store takes the write; a refused one leaves the table unchanged |
| Database.DeleteIntroduction | services/database.ts:322 | the row is removed when the delete is taken; a refused one changes nothing |
| Database.SavedImageReadsBack | services/database.ts:324-334 | a saved record is in the next listing of its table, under the id it was saved under; a real id must name an existing row |
| Database.SaveImage | services/database.ts:330-334 | upsert dispatch on the image's id when the store takes the write; a refused one leaves the table unchanged |
| Database.DeleteImage | services/database.ts:337 | the row is removed when the delete is taken; a refused one changes nothing |
| Database.GetUsers | services/database.ts:340-349 | one user per row, each e-mail derived from the username |
| Database.SavedUserReadsBack | services/database.ts:340-355 | a saved record is in the next listing of its table, under the id it was saved under, its e-mail derived from the user name; a real id must name an existing row |
| Database.SaveUser | services/database.ts:351-355 | upsert dispatch on the user's id when the store takes the write; a refused one leaves the table unchanged |
| Database.DeleteUser | services/database.ts:357 | the row is removed when the delete is taken; a refused one changes nothing |
| Visits.VisitKey | services/database.ts:74-75 | the guard key for a date: the key `Visits.TrackVisit` tests and leaves pending |
| Visits.SessionIdKept | services/database.ts:71-72 | once a session id is stored, a later visit reuses it and ignores its fresh UUID |
| Visits.VisitCounter.Increment | services/database.ts:77 | one more call of the increment procedure |
| Visits.TrackVisit | services/database.ts:69-80 | the session id is reused or stored, the presence row upserted when the store takes it; the increment is issued only when today's guard is absent, with the guard left pending; a failed session write stops everything and nothing is thrown |
| Visits.SettleIncrement | services/database.ts:77 | the guard is written once the increment has resolved, whatever it returned |
| Visits.SameDayVisits | services/database.ts:74-77 | two visits on one day, the first's increment settled in between, increment at most once and leave the guard set |
| Visits.OverlappingVisits | services/database.ts:76-77 | two visits before the first increment resolves both increment |
| Visits.RepeatVisitKeepsSession | services/database.ts:69-73 | two visits in one tab keep one session id and one presence row, refreshed by the second |
| Visits.AbsentCounterReadsZero | services/database.ts:88-89 | a counter no row carries reads as 0 |
| Visits.LastCounterRowWins | services/database.ts:88-89 | a counter reads as the parsed value of the last row with its key, NaN reading as 0 |
| Visits.GetVisitorStats | services/database.ts:82-91 | total, today and month come from the counter rows, defaulting to 0; online is the count, 0 or null reading as 1; a failure yields `{0, 0, 0, 1}` |
| Ordering.FilterContents | App.tsx:244 | `filter` keeps exactly the passing elements, with their multiplicities |
| Ordering.SortByKeySortsAndPermutes | App.tsx:244-247 | the sort by order yields an ascending permutation of its input |
| Ordering.SortByKeyStable | App.tsx:244-247 | the sort is stable: elements with equal order keep their relative order |
| Ordering.SortByKeyOfSorted | App.tsx:244-247 | sorting a list already in order changes nothing |
| Router.QueryGet | App.tsx:170-171 | `get(name)` finds a value exactly when some pair has the name, and the value is that of the first such pair |
| Router.RouteOf | App.tsx:167-182 | a missing or empty page, or a failure, routes home; a present non-empty page is the routed page; an id is taken exactly when it comes with such a page and is non-empty |
| Router.NavigationRoundTrip | App.tsx:167-182 | the URL `navigate` pushes for any other page routes back to that page and id |
| Router.HomeAndLoginUrlsRouteHome | App.tsx:281 | the URLs `navigate` pushes for `home` and for `login` carry no query and route to home |
| Router.PageUrlRoutes | App.tsx:173-175 | `/?page=<p>` routes to `p` |
| Router.LoginPageUrlRoutesLogin | App.tsx:265-277 | the URL of the admin guard and of logout routes to the login page |
| Router.DashboardUrlRoutesDashboard | App.tsx:262 | the URL pushed on login routes to the dashboard |
| App.ServiceCacheNeverHydrates | App.tsx:63-86 | nothing the service writes under its own cache keys changes what the component hydrates |
| App.ServicePostsCacheUnseen | App.tsx:65 | the home posts the service caches are not hydrated on the next load |
| App.ViewOf | App.tsx:285-303 | the loader shows exactly while loading with nothing held; login and unauthenticated admin pages render the login view; the admin layout only with a user |
| App.MergedPosts | App.tsx:235-237 | posts are replaced only by a non-empty list, so a held list is never cleared |
| App.ShownBlocksSpec | App.tsx:244 | the committed blocks are exactly the visible ones, ascending by order, ties in fetched order |
| App.ShownIntroductionsSpec | App.tsx:247 | the committed introductions are exactly the visible ones, ascending by order, ties in fetched order |
| App.SortedMenuSpec | App.tsx:245 | the committed menu holds every fetched item, ascending by order, ties in fetched order |
| App.ShownIdempotent | App.tsx:244-247 | post-processing the committed lists again gives the same lists |
| App.AppState.constructor | App.tsx:58-90 | the first state: home page, hydrated posts and config, loading, everything else empty |
| App.AppState.SafePushState | App.tsx:92-98 | an accepted URL is appended to the history; a refusal is swallowed and changes nothing |
| App.AppState.HandleUrlRouting | App.tsx:167-182 | the page is the one `RouteOf` gives; the id is set only when `RouteOf` yields one, otherwise the held id stays |
| App.AppState.Navigate | App.tsx:272-283 | an admin path without a user lands on login with the id untouched; otherwise page and id are set and the built URL pushed; `navigate` never reaches an admin page without a user |
| App.AppState.HandleLoginSuccess | App.tsx:259-263 | the user is set, the page is the dashboard, its URL pushed |
| App.AppState.HandleLogout | App.tsx:265-270 | the user is cleared, the page is login, its URL pushed |
| App.AppState.CommitCritical | App.tsx:232-237 | config and posts are merged by `MergedConfig` and `MergedPosts` |
| App.AppState.CommitPlainLists | App.tsx:239-248 | documents, document categories, images, albums, videos, staff and post categories are committed as fetched |
| App.AppState.CommitOrderedLists | App.tsx:244-247 | blocks, menu and introductions are committed post-processed |
| App.AppState.Commit | App.tsx:232-248 | the `try` branch: every result of the round committed, config and posts merged |
| App.AppState.Settle | App.tsx:203-253 | on success the round is committed; on a rejection the data error is raised and the fallback config used only when none is held |
| App.AppState.RefreshData | App.tsx:199-257 | on success every field is committed as merged; on a rejection only data error and fallback config; config is always held afterwards, a held post list never cleared, loading cleared only when the loader was requested |
| App.AdminViewNeedsUser | App.tsx:302-303 | an admin page without a user renders the login view (or the loader) |
| App.NoLoaderAfterRefresh | App.tsx:199-257 | after any finished refresh, whatever its outcome, the component's state does not render the loader |
| App.Mount | App.tsx:100-136 | after the mount effect the page and id are the routed ones; with hydrated data the loader is never requested and `loading` stays true, otherwise it ends false; the loader is not shown |
| App.NavigateThenReload | App.tsx:136 | after a navigation, a reload mounts a fresh component whose first routing lands on the same page and id |
| App.NavigateThenPopState | App.tsx:137 | a `popstate` back to the URL a navigation pushed re-routes the same component to that page and id |

## Left out

- `services/gemini.ts` is not part of this model: it is a single call into a hosted AI service.
- Rendering is not modelled; only the top-level render decision is. This covers:
  - the JSX and CSS;
  - `document.title` and the favicon;
  - `window.scrollTo`;
  - the admin panels gated by `UserRole.ADMIN`, whose values live in `types.ts`, which is not part of this model.
- The news-detail effect is not modelled. It calls `DatabaseService.getPostById`, which `services/database.ts` does not define.
- The authentication session is not modelled: the initial `getSession`, the `onAuthStateChange` subscription, and `signOut`. `HandleLogout` is the state after `signOut` has returned.
- Concurrency is collapsed into sequential calls:
  - `Promise.all` is one input that is either every result or a rejection.
  - The background fetch that a cached read starts is applied before the accessor returns.
  - The 60-second heartbeat is not modelled.
  - The increment continuation is the separate `SettleIncrement` step.
- Query building is treated as given: `select`, `eq`, `order`, `limit` (including the home-posts limit of 20), server-side filtering by status and the ten-minute presence filter. A response is the rows it returns.
- JSON serialisation is modelled structurally. A cache envelope is a constructor, and unparsable text is `Corrupt`.
  - An envelope whose data is a different kind of value than the accessor expects reads as absent. In the source it would be returned untyped.
  - A raw non-empty string under a hydration key hydrates as nothing. In the source it would hydrate as `undefined`.
- `Database.PostsFetchResult`, `Database.GetPosts` and `FieldMapping.PostFromListing` keep only the `Post` fields. The spread of the listed row also carries the columns `created_at` and `views` (and the snake_case spellings of the two flags) into the record. Those extra fields are not modelled.
- `Router.RouteOf` does not model `URLSearchParams` percent-decoding or `+` as space. The round trips are stated for pages and ids free of `& = ? # % +`.
- `Router.HomeAndLoginUrlsRouteHome`: `navigate('login')` pushes `/admin`, and that URL routes back to home, not to the login page. The source does this, so it is stated and proved rather than corrected.
- Posts and config have no read-back lemma through the table. The home-posts listing is filtered by status and limited by the server, which the model leaves out, and `getConfig` reads a single row.
- `Database.SavedBlockReadsBack`, `Remote.Upserted`, `Database.SaveConfig`, `Database.SavePost`: an optional field is an `Option`, and `None` is written as null. In the source an `undefined` field is dropped when the request body is serialised. On a real-id update it therefore keeps the column's stored value, where the model overwrites it with null. The fields are a block's `htmlContent`, `targetPage` and colours; the config's `faviconUrl` and `footerLinks`; and a post's `content`, `author`, `isFeatured` and `showOnHome`. So a block saved with no colour reads back with the default colour in the model, but with its previously stored colour in the source.
- A save with a real id whose row has been deleted updates nothing (`Remote.Patched`), so the record does not come back in the next listing. The read-back lemmas therefore require a real id to name an existing row.
- `Database.SaveConfig`: the id listing it updates by comes from a `select('id')` on the same table, but the model takes it as a free response like every other. It is not tied to the table's rows, so an update under a listed id that names no row is a no-op.
- Ids are strings. The `undefined` id that `isRealId` accepts is the empty string, and every call site passes a record's id.
- Lengths are counted in characters. The UTF-16 code units of `String.length` coincide with characters for the ids involved (UUIDs and ASCII temporary ids).
- Behaviour the model does not add, because the source does not have it:
  - there is no retry or backoff wrapper;
  - a successful fetch overwrites the cache even with an empty list;
  - `getStaff` and `getMenu` cache `[]` on an error response;
  - the visit guard is written whatever the increment returned;
  - a write the store refuses is neither reported nor retried, and the caches are dropped or written as if it had succeeded.
