/**
 * The data service (`DatabaseService`): one get / save / delete family per
 * entity over the remote tables, with a cache-or-fetch policy over
 * `localStorage` for the config, the home posts, the staff list and the menu.
 *
 * A cached read returns the cached value at once and lets the fetch it
 * started update the cache in the background; in this model that background
 * write is applied before the method returns. `now` stands for `Date.now()`,
 * `accepted` for whether `localStorage` took the write, `newId` for the id
 * the database issues on insert, and `written` for whether the database took
 * a write: the service never reads a write's `{error}`, so a refused write
 * changes no row and the service carries on as if it had succeeded.
 */
module Database {
  import opened Wrappers
  import opened Ids
  import opened Entities
  import opened FieldMapping
  import opened Storage
  import opened Remote

  // The data service's cache keys.
  const ConfigKey: string := "school_config_v1"
  const MenuKey: string := "menu_items_v1"
  const PostsHomeKey: string := "posts_home_v1"
  const StaffKey: string := "staff_list_v1"
  /** Declared by the service but read or written by none of its accessors. */
  const DocCatsKey: string := "doc_categories_v1"

  // ---------------------------------------------------------------- typed cache views

  function CachedConfig(items: map<string, Entry>): Option<SchoolConfig> {
    match CacheLookup(items, ConfigKey)
    case Some(ConfigData(c)) => Some(c)
    case _ => None
  }

  function CachedPosts(items: map<string, Entry>): Option<seq<Post>> {
    match CacheLookup(items, PostsHomeKey)
    case Some(PostList(ps)) => Some(ps)
    case _ => None
  }

  function CachedStaff(items: map<string, Entry>): Option<seq<StaffMember>> {
    match CacheLookup(items, StaffKey)
    case Some(StaffList(s)) => Some(s)
    case _ => None
  }

  function CachedMenu(items: map<string, Entry>): Option<seq<MenuItem>> {
    match CacheLookup(items, MenuKey)
    case Some(MenuList(m)) => Some(m)
    case _ => None
  }

  // ---------------------------------------------------------------- upsert dispatch

  /** The body every `saveX` shares: update by id when the id is real, insert otherwise. */
  method SaveRecord<R>(table: Table<R>, id: string, row: R, newId: string, written: bool)
    requires newId !in table.rows
    modifies table
    ensures table.rows == if written then Upserted(old(table.rows), id, row, newId) else old(table.rows)
  {
    if written {
      if IsRealId(id) {
        table.Update(id, _ => row);
      } else {
        table.Insert(row, newId);
      }
    }
  }

  /** The body every `deleteX` shares: `delete().eq('id', id)`. */
  method DeleteRecord<R>(table: Table<R>, id: string, written: bool)
    modifies table
    ensures table.rows == if written then old(table.rows) - {id} else old(table.rows)
  {
    if written {
      table.Delete(id);
    }
  }

  /** The `(id, order)` updates a batch order save issues: one per element, in list order. */
  function OrderUpdates<T>(xs: seq<T>, pair: T -> (string, int)): seq<(string, int)> {
    seq(|xs|, i requires 0 <= i < |xs| => pair(xs[i]))
  }

  /**
   * The loop of the batch order saves: one `update({order_index}).eq('id', id)`
   * per update, awaited in turn; `written[i]` is whether the store took the
   * `i`-th, a refused one changing nothing.
   */
  method ApplyOrderUpdates<R>(table: Table<R>, updates: seq<(string, int)>, setOrder: (R, int) -> R, written: seq<bool>)
    requires |written| == |updates|
    modifies table
    ensures table.rows == Reordered(old(table.rows), Kept(updates, written), setOrder)
  {
    var i := 0;
    assert updates[0..] == updates && written[0..] == written;
    while i < |updates|
      invariant 0 <= i <= |updates|
      invariant Reordered(table.rows, Kept(updates[i..], written[i..]), setOrder)
             == Reordered(old(table.rows), Kept(updates, written), setOrder)
    {
      var u := updates[i];
      ghost var before := table.rows;
      assert updates[i..][1..] == updates[i + 1..] && written[i..][1..] == written[i + 1..];
      assert updates[i..][0] == u && written[i..][0] == written[i];
      if written[i] {
        table.Update(u.0, r => setOrder(r, u.1));
        assert Kept(updates[i..], written[i..]) == [u] + Kept(updates[i + 1..], written[i + 1..]);
        assert ([u] + Kept(updates[i + 1..], written[i + 1..]))[1..] == Kept(updates[i + 1..], written[i + 1..]);
      } else {
        assert Kept(updates[i..], written[i..]) == Kept(updates[i + 1..], written[i + 1..]);
      }
      i := i + 1;
    }
  }

  // ---------------------------------------------------------------- config

  /** What the config fetch yields: the mapped row on success, else `cached || DEFAULT_CONFIG`. */
  function ConfigFetchResult(cached: Option<SchoolConfig>, resp: Response<ConfigRow>): SchoolConfig {
    if resp.data.Some? && !resp.error then ConfigFromRow(resp.data.value) else cached.GetOr(DefaultConfig)
  }

  /** `getConfig`: the cached config if any, else the fetch result; a successful fetch refreshes the cache. */
  method GetConfig(store: LocalStorage, resp: Response<ConfigRow>, now: int, accepted: bool) returns (c: SchoolConfig)
    modifies store
    ensures c == CachedConfig(old(store.items)).GetOr(ConfigFetchResult(None, resp))
    ensures store.items
         == if resp.data.Some? && !resp.error && accepted
            then old(store.items)[ConfigKey := Envelope(ConfigData(ConfigFromRow(resp.data.value)), now)]
            else old(store.items)
  {
    var hit := store.GetCache(ConfigKey);
    var cached: Option<SchoolConfig> := if hit.Some? && hit.value.ConfigData? then Some(hit.value.config) else None;
    var fetched: SchoolConfig;
    if resp.data.Some? && !resp.error {
      var config := ConfigFromRow(resp.data.value);
      store.SetCache(ConfigKey, ConfigData(config), now, accepted);
      fetched := config;
    } else {
      fetched := cached.GetOr(DefaultConfig);
    }
    c := cached.GetOr(fetched);
  }

  /**
   * `saveConfig`: update the first existing config row if the id query found
   * one, else insert; then cache the config as given.
   */
  method SaveConfig(store: LocalStorage, table: Table<ConfigRow>, config: SchoolConfig,
                    currentIds: Option<seq<string>>, newId: string, written: bool, now: int, accepted: bool)
    requires newId !in table.rows
    modifies store, table
    ensures table.rows
         == if !written then old(table.rows)
            else if currentIds.Some? && |currentIds.value| > 0
            then Patched(old(table.rows), currentIds.value[0], _ => ConfigToRow(config))
            else old(table.rows)[newId := ConfigToRow(config)]
    ensures store.items
         == if accepted then old(store.items)[ConfigKey := Envelope(ConfigData(config), now)] else old(store.items)
  {
    var dbConfig := ConfigToRow(config);
    if written {
      if currentIds.Some? && |currentIds.value| > 0 {
        table.Update(currentIds.value[0], _ => dbConfig);
      } else {
        table.Insert(dbConfig, newId);
      }
    }
    store.SetCache(ConfigKey, ConfigData(config), now, accepted);
  }

  /**
   * After `saveConfig`, the next `getConfig` serves the config as given from
   * the cache, whether or not the database took the write.
   */
  method SaveConfigThenGet(store: LocalStorage, table: Table<ConfigRow>, config: SchoolConfig,
                           currentIds: Option<seq<string>>, newId: string, written: bool,
                           resp: Response<ConfigRow>, now: int, later: int)
    returns (c: SchoolConfig)
    requires newId !in table.rows
    modifies store, table
    ensures c == config
  {
    SaveConfig(store, table, config, currentIds, newId, written, now, true);
    c := GetConfig(store, resp, later, true);
  }

  // ---------------------------------------------------------------- posts

  /** The fetched home posts: the listing mapped, or a thrown error. */
  function PostsFetchResult(resp: Response<seq<Listed<PostRow>>>): (r: Result<seq<Post>>)
    ensures resp.error <==> r.Err?
    ensures r.Ok? ==> |r.value| == |ListedRows(resp)|
    ensures r.Ok? ==> forall i :: 0 <= i < |r.value| ==>
      r.value[i].id == ListedRows(resp)[i].id &&
      r.value[i].tags == [] && r.value[i].attachments == [] && r.value[i].blockIds == []
  {
    if resp.error then Err
    else
      var posts := MapListed(ListedRows(resp), PostFromListing);
      assert forall i :: 0 <= i < |posts| ==> posts[i] == PostFromListing(ListedRows(resp)[i].id, ListedRows(resp)[i].row);
      Ok(posts)
  }

  /**
   * `getPosts`: the cached posts if any (a failing background fetch is then
   * not seen by the caller), else the fetch result, whose error propagates.
   * A successful fetch overwrites the cache, even with an empty list.
   */
  method GetPosts(store: LocalStorage, resp: Response<seq<Listed<PostRow>>>, now: int, accepted: bool)
    returns (r: Result<seq<Post>>)
    modifies store
    ensures CachedPosts(old(store.items)).Some? ==> r == Ok(CachedPosts(old(store.items)).value)
    ensures CachedPosts(old(store.items)).None? ==> r == PostsFetchResult(resp)
    ensures store.items
         == if !resp.error && accepted
            then old(store.items)[PostsHomeKey := Envelope(PostList(PostsFetchResult(resp).value), now)]
            else old(store.items)
  {
    var hit := store.GetCache(PostsHomeKey);
    var fetched := PostsFetchResult(resp);
    if fetched.Ok? {
      store.SetCache(PostsHomeKey, PostList(fetched.value), now, accepted);
    }
    if hit.Some? && hit.value.PostList? {
      r := Ok(hit.value.posts);
    } else {
      r := fetched;
    }
  }

  /** `savePost`: upsert by id provenance, then drop the home-posts cache. */
  method SavePost(store: LocalStorage, table: Table<PostRow>, post: Post, newId: string, written: bool)
    requires newId !in table.rows
    modifies store, table
    ensures table.rows == if written then Upserted(old(table.rows), post.id, PostToRow(post), newId) else old(table.rows)
    ensures store.items == old(store.items) - {PostsHomeKey}
  {
    SaveRecord(table, post.id, PostToRow(post), newId, written);
    store.RemoveItem(PostsHomeKey);
  }

  /** After `savePost`, the next `getPosts` serves the fresh fetch, not the cache the save dropped. */
  method SavePostThenGet(store: LocalStorage, table: Table<PostRow>, post: Post, newId: string, written: bool,
                         resp: Response<seq<Listed<PostRow>>>, now: int, accepted: bool)
    returns (r: Result<seq<Post>>)
    requires newId !in table.rows
    modifies store, table
    ensures r == PostsFetchResult(resp)
  {
    SavePost(store, table, post, newId, written);
    r := GetPosts(store, resp, now, accepted);
  }

  /** `deletePost`: drop the home-posts cache, then delete the row. */
  method DeletePost(store: LocalStorage, table: Table<PostRow>, id: string, written: bool)
    modifies store, table
    ensures table.rows == if written then old(table.rows) - {id} else old(table.rows)
    ensures store.items == old(store.items) - {PostsHomeKey}
  {
    store.RemoveItem(PostsHomeKey);
    DeleteRecord(table, id, written);
  }

  // ---------------------------------------------------------------- staff

  /** The fetched staff list: `(data || []).map(...)`; an error response yields the empty list. */
  function StaffFetchResult(resp: Response<seq<Listed<StaffRow>>>): seq<StaffMember> {
    MapListed(ListedRows(resp), StaffFromRow)
  }

  /** The staff member as a listing reads it back after `saveStaff`: under the id saved under, an empty party date as null. */
  function StaffAsSaved(staff: StaffMember, newId: string): StaffMember {
    staff.(id := SaveTarget(staff.id, newId), partyDate := if staff.partyDate == Some("") then None else staff.partyDate)
  }

  /** A saved staff member is in the next listing of the table. */
  lemma SavedStaffReadsBack(rows: map<string, StaffRow>, staff: StaffMember, newId: string,
                            resp: Response<seq<Listed<StaffRow>>>)
    requires newId !in rows && (IsRealId(staff.id) ==> staff.id in rows)
    requires resp.data.Some? && ListsTable(resp.data.value, Upserted(rows, staff.id, StaffToRow(staff), newId))
    ensures StaffAsSaved(staff, newId) in StaffFetchResult(resp)
  {
    SavedRowListed(rows, staff.id, StaffToRow(staff), newId, resp.data.value, StaffFromRow);
  }

  /** `getStaff`: the cached list if any, else the fetch result; the fetch always rewrites the cache. */
  method GetStaff(store: LocalStorage, resp: Response<seq<Listed<StaffRow>>>, now: int, accepted: bool)
    returns (staff: seq<StaffMember>)
    modifies store
    ensures staff == CachedStaff(old(store.items)).GetOr(StaffFetchResult(resp))
    ensures store.items
         == if accepted then old(store.items)[StaffKey := Envelope(StaffList(StaffFetchResult(resp)), now)]
            else old(store.items)
  {
    var hit := store.GetCache(StaffKey);
    var fetched := StaffFetchResult(resp);
    store.SetCache(StaffKey, StaffList(fetched), now, accepted);
    staff := if hit.Some? && hit.value.StaffList? then hit.value.staff else fetched;
  }

  method SaveStaff(store: LocalStorage, table: Table<StaffRow>, staff: StaffMember, newId: string, written: bool)
    requires newId !in table.rows
    modifies store, table
    ensures table.rows == if written then Upserted(old(table.rows), staff.id, StaffToRow(staff), newId) else old(table.rows)
    ensures store.items == old(store.items) - {StaffKey}
  {
    SaveRecord(table, staff.id, StaffToRow(staff), newId, written);
    store.RemoveItem(StaffKey);
  }

  /**
   * After a `saveStaff` the database took, the next `getStaff` serves the
   * fresh listing rather than the dropped cache, and it holds the saved member.
   */
  method SaveStaffThenGet(store: LocalStorage, table: Table<StaffRow>, staff: StaffMember, newId: string,
                          resp: Response<seq<Listed<StaffRow>>>, now: int, accepted: bool)
    returns (list: seq<StaffMember>)
    requires newId !in table.rows && (IsRealId(staff.id) ==> staff.id in table.rows)
    requires resp.data.Some? && ListsTable(resp.data.value, Upserted(table.rows, staff.id, StaffToRow(staff), newId))
    modifies store, table
    ensures list == StaffFetchResult(resp)
    ensures StaffAsSaved(staff, newId) in list
  {
    SavedStaffReadsBack(table.rows, staff, newId, resp);
    SaveStaff(store, table, staff, newId, true);
    list := GetStaff(store, resp, now, accepted);
  }

  method DeleteStaff(store: LocalStorage, table: Table<StaffRow>, id: string, written: bool)
    modifies store, table
    ensures table.rows == if written then old(table.rows) - {id} else old(table.rows)
    ensures store.items == old(store.items) - {StaffKey}
  {
    store.RemoveItem(StaffKey);
    DeleteRecord(table, id, written);
  }

  // ---------------------------------------------------------------- documents

  function GetDocuments(resp: Response<seq<Listed<DocumentRow>>>): seq<SchoolDocument> {
    MapListed(ListedRows(resp), DocumentFromRow)
  }

  /** A saved document is in the next listing of the table, under the id it was saved under. */
  lemma SavedDocumentReadsBack(rows: map<string, DocumentRow>, doc: SchoolDocument, newId: string,
                               resp: Response<seq<Listed<DocumentRow>>>)
    requires newId !in rows && (IsRealId(doc.id) ==> doc.id in rows)
    requires resp.data.Some? && ListsTable(resp.data.value, Upserted(rows, doc.id, DocumentToRow(doc), newId))
    ensures doc.(id := SaveTarget(doc.id, newId)) in GetDocuments(resp)
  {
    SavedRowListed(rows, doc.id, DocumentToRow(doc), newId, resp.data.value, DocumentFromRow);
  }

  method SaveDocument(table: Table<DocumentRow>, doc: SchoolDocument, newId: string, written: bool)
    requires newId !in table.rows
    modifies table
    ensures table.rows == if written then Upserted(old(table.rows), doc.id, DocumentToRow(doc), newId) else old(table.rows)
  {
    SaveRecord(table, doc.id, DocumentToRow(doc), newId, written);
  }

  method DeleteDocument(table: Table<DocumentRow>, id: string, written: bool)
    modifies table
    ensures table.rows == if written then old(table.rows) - {id} else old(table.rows)
  {
    DeleteRecord(table, id, written);
  }

  // ---------------------------------------------------------------- albums

  function GetAlbums(resp: Response<seq<Listed<AlbumRow>>>): seq<GalleryAlbum> {
    MapListed(ListedRows(resp), AlbumFromRow)
  }

  /** A saved album is in the next listing of the table, under the id it was saved under. */
  lemma SavedAlbumReadsBack(rows: map<string, AlbumRow>, album: GalleryAlbum, newId: string,
                            resp: Response<seq<Listed<AlbumRow>>>)
    requires newId !in rows && (IsRealId(album.id) ==> album.id in rows)
    requires resp.data.Some? && ListsTable(resp.data.value, Upserted(rows, album.id, AlbumToRow(album), newId))
    ensures album.(id := SaveTarget(album.id, newId)) in GetAlbums(resp)
  {
    SavedRowListed(rows, album.id, AlbumToRow(album), newId, resp.data.value, AlbumFromRow);
  }

  method SaveAlbum(table: Table<AlbumRow>, album: GalleryAlbum, newId: string, written: bool)
    requires newId !in table.rows
    modifies table
    ensures table.rows == if written then Upserted(old(table.rows), album.id, AlbumToRow(album), newId) else old(table.rows)
  {
    SaveRecord(table, album.id, AlbumToRow(album), newId, written);
  }

  method DeleteAlbum(table: Table<AlbumRow>, id: string, written: bool)
    modifies table
    ensures table.rows == if written then old(table.rows) - {id} else old(table.rows)
  {
    DeleteRecord(table, id, written);
  }

  // ---------------------------------------------------------------- display blocks

  /** Every fetched block carries a non-empty colour and text colour. */
  function GetBlocks(resp: Response<seq<Listed<BlockRow>>>): (blocks: seq<DisplayBlock>)
    ensures resp.data.None? ==> blocks == []
    ensures |blocks| == |ListedRows(resp)|
    ensures forall i :: 0 <= i < |blocks| ==> blocks[i] == BlockFromRow(ListedRows(resp)[i].id, ListedRows(resp)[i].row)
    ensures forall i :: 0 <= i < |blocks| ==>
      blocks[i].customColor.Some? && blocks[i].customColor.value != "" &&
      blocks[i].customTextColor.Some? && blocks[i].customTextColor.value != ""
  {
    MapListed(ListedRows(resp), BlockFromRow)
  }

  /** The block as a listing reads it back after `saveBlock`: under the id saved under, its colours defaulted. */
  function BlockAsSaved(block: DisplayBlock, newId: string): DisplayBlock {
    block.(id := SaveTarget(block.id, newId),
           customColor := Some(ColorOrDefault(block.customColor)),
           customTextColor := Some(ColorOrDefault(block.customTextColor)))
  }

  /** A saved block is in the next listing of the table. */
  lemma SavedBlockReadsBack(rows: map<string, BlockRow>, block: DisplayBlock, newId: string,
                            resp: Response<seq<Listed<BlockRow>>>)
    requires newId !in rows && (IsRealId(block.id) ==> block.id in rows)
    requires resp.data.Some? && ListsTable(resp.data.value, Upserted(rows, block.id, BlockToRow(block), newId))
    ensures BlockAsSaved(block, newId) in GetBlocks(resp)
  {
    SavedRowListed(rows, block.id, BlockToRow(block), newId, resp.data.value, BlockFromRow);
  }

  method SaveBlock(table: Table<BlockRow>, block: DisplayBlock, newId: string, written: bool)
    requires newId !in table.rows
    modifies table
    ensures table.rows == if written then Upserted(old(table.rows), block.id, BlockToRow(block), newId) else old(table.rows)
  {
    SaveRecord(table, block.id, BlockToRow(block), newId, written);
  }

  method DeleteBlock(table: Table<BlockRow>, id: string, written: bool)
    modifies table
    ensures table.rows == if written then old(table.rows) - {id} else old(table.rows)
  {
    DeleteRecord(table, id, written);
  }

  /** The `(id, order)` pair `saveBlocksOrder` sends for a block. */
  function BlockOrderPair(b: DisplayBlock): (string, int) {
    (b.id, b.order)
  }

  /** `saveBlocksOrder`: one `update({order_index})` per block, awaited in turn. */
  method SaveBlocksOrder(table: Table<BlockRow>, blocks: seq<DisplayBlock>, written: seq<bool>)
    requires |written| == |blocks|
    modifies table
    ensures table.rows == Reordered(old(table.rows), Kept(OrderUpdates(blocks, BlockOrderPair), written), WithBlockOrder)
  {
    ApplyOrderUpdates(table, OrderUpdates(blocks, BlockOrderPair), WithBlockOrder, written);
  }

  /**
   * The batch order save changes no id and nothing but `order_index`; each
   * block gets the order of its last update the store took.
   */
  lemma BlocksOrderEffect(rows: map<string, BlockRow>, blocks: seq<DisplayBlock>, written: seq<bool>)
    requires |written| == |blocks|
    ensures Reordered(rows, Kept(OrderUpdates(blocks, BlockOrderPair), written), WithBlockOrder).Keys == rows.Keys
    ensures forall k :: k in rows ==>
      var u := Kept(OrderUpdates(blocks, BlockOrderPair), written);
      Reordered(rows, u, WithBlockOrder)[k]
        == if LastOrderFor(u, k).Some? then rows[k].(orderIndex := LastOrderFor(u, k).value) else rows[k]
  {
    ReorderedEffect(rows, Kept(OrderUpdates(blocks, BlockOrderPair), written), WithBlockOrder);
  }

  // ---------------------------------------------------------------- menu

  function MenuFetchResult(resp: Response<seq<Listed<MenuRow>>>): seq<MenuItem> {
    MapListed(ListedRows(resp), MenuFromRow)
  }

  /** `getMenu`: the cached menu if any, else the fetch result; the fetch always rewrites the cache. */
  method GetMenu(store: LocalStorage, resp: Response<seq<Listed<MenuRow>>>, now: int, accepted: bool)
    returns (menu: seq<MenuItem>)
    modifies store
    ensures menu == CachedMenu(old(store.items)).GetOr(MenuFetchResult(resp))
    ensures store.items
         == if accepted then old(store.items)[MenuKey := Envelope(MenuList(MenuFetchResult(resp)), now)]
            else old(store.items)
  {
    var hit := store.GetCache(MenuKey);
    var fetched := MenuFetchResult(resp);
    store.SetCache(MenuKey, MenuList(fetched), now, accepted);
    menu := if hit.Some? && hit.value.MenuList? then hit.value.items else fetched;
  }

  /**
   * One iteration of `saveMenu`'s loop: the shared upsert dispatch on the
   * item, inserting under `newId` when its id is temporary; `ok` is whether
   * the store took the write.
   */
  function MenuStep(rows: map<string, MenuRow>, item: MenuItem, newId: string, ok: bool): (r: map<string, MenuRow>)
    ensures newId !in rows ==> r == if ok then Upserted(rows, item.id, MenuToRow(item), newId) else rows
  {
    if !ok then rows
    else if IsRealId(item.id) then Patched(rows, item.id, _ => MenuToRow(item)) else rows[newId := MenuToRow(item)]
  }

  /** The table after `saveMenu`'s loop: item `i` is upserted, inserting under `newIds[i]` when its id is temporary. */
  function MenuSaved(rows: map<string, MenuRow>, items: seq<MenuItem>, newIds: seq<string>, written: seq<bool>)
    : map<string, MenuRow>
    requires |newIds| == |items| && |written| == |items|
    decreases |items|
  {
    if items == [] then rows
    else MenuSaved(MenuStep(rows, items[0], newIds[0], written[0]), items[1..], newIds[1..], written[1..])
  }

  /** The ids `saveMenu` inserts under: one per item with a temporary id whose insert the store took. */
  function InsertedIds(items: seq<MenuItem>, newIds: seq<string>, written: seq<bool>): set<string>
    requires |newIds| == |items| && |written| == |items|
    decreases |items|
  {
    if items == [] then {}
    else (if written[0] && !IsRealId(items[0].id) then {newIds[0]} else {}) + InsertedIds(items[1..], newIds[1..], written[1..])
  }

  function TempCount(items: seq<MenuItem>, written: seq<bool>): nat
    requires |written| == |items|
    decreases |items|
  {
    if items == [] then 0 else (if written[0] && !IsRealId(items[0].id) then 1 else 0) + TempCount(items[1..], written[1..])
  }

  /** Distinct ids none of which the table holds yet: what the store issues. */
  predicate FreshIds(rows: map<string, MenuRow>, newIds: seq<string>) {
    && (forall i :: 0 <= i < |newIds| ==> newIds[i] !in rows)
    && (forall i, j :: 0 <= i < j < |newIds| ==> newIds[i] != newIds[j])
  }

  lemma {:induction false} InsertedIdsAreNew(items: seq<MenuItem>, newIds: seq<string>, written: seq<bool>)
    requires |newIds| == |items| && |written| == |items|
    ensures InsertedIds(items, newIds, written) <= set i | 0 <= i < |newIds| :: newIds[i]
    decreases |items|
  {
    if items != [] {
      InsertedIdsAreNew(items[1..], newIds[1..], written[1..]);
      forall x | x in InsertedIds(items[1..], newIds[1..], written[1..])
        ensures x in set i | 0 <= i < |newIds| :: newIds[i]
      {
        var j :| 0 <= j < |newIds[1..]| && newIds[1..][j] == x;
        assert newIds[j + 1] == x;
      }
    }
  }

  lemma {:induction false} InsertedIdsCount(items: seq<MenuItem>, newIds: seq<string>, written: seq<bool>)
    requires |newIds| == |items| && |written| == |items|
    requires forall i, j :: 0 <= i < j < |newIds| ==> newIds[i] != newIds[j]
    ensures |InsertedIds(items, newIds, written)| == TempCount(items, written)
    decreases |items|
  {
    if items != [] {
      InsertedIdsCount(items[1..], newIds[1..], written[1..]);
      if written[0] && !IsRealId(items[0].id) {
        InsertedIdsAreNew(items[1..], newIds[1..], written[1..]);
        forall j | 0 <= j < |newIds[1..]|
          ensures newIds[1..][j] != newIds[0]
        {
          assert newIds[1..][j] == newIds[j + 1];
        }
        assert newIds[0] !in InsertedIds(items[1..], newIds[1..], written[1..]);
      }
    }
  }

  /** One step of `saveMenu` keeps the remaining issued ids fresh. */
  lemma FreshIdsStep(rows: map<string, MenuRow>, next: map<string, MenuRow>, newIds: seq<string>)
    requires |newIds| > 0 && FreshIds(rows, newIds)
    requires next.Keys <= rows.Keys + {newIds[0]}
    ensures FreshIds(next, newIds[1..])
  {
    forall i | 0 <= i < |newIds[1..]|
      ensures newIds[1..][i] !in next
    {
      assert newIds[1..][i] == newIds[i + 1];
    }
    forall i, j | 0 <= i < j < |newIds[1..]|
      ensures newIds[1..][i] != newIds[1..][j]
    {
      assert newIds[1..][i] == newIds[i + 1] && newIds[1..][j] == newIds[j + 1];
    }
  }

  /**
   * `saveMenu` keeps every existing row and adds exactly one new row per
   * item with a temporary id whose insert the store took; items with real
   * ids only update.
   */
  lemma {:induction false} MenuSavedKeys(rows: map<string, MenuRow>, items: seq<MenuItem>, newIds: seq<string>,
                                         written: seq<bool>)
    requires |newIds| == |items| && |written| == |items| && FreshIds(rows, newIds)
    ensures MenuSaved(rows, items, newIds, written).Keys == rows.Keys + InsertedIds(items, newIds, written)
    decreases |items|
  {
    if items != [] {
      var next := MenuStep(rows, items[0], newIds[0], written[0]);
      FreshIdsStep(rows, next, newIds);
      MenuSavedKeys(next, items[1..], newIds[1..], written[1..]);
    }
  }

  /** `saveMenu` loses no row and grows the table by exactly the number of temporary items the store took. */
  lemma MenuSavedCount(rows: map<string, MenuRow>, items: seq<MenuItem>, newIds: seq<string>, written: seq<bool>)
    requires |newIds| == |items| && |written| == |items| && FreshIds(rows, newIds)
    ensures rows.Keys <= MenuSaved(rows, items, newIds, written).Keys
    ensures |MenuSaved(rows, items, newIds, written).Keys| == |rows.Keys| + TempCount(items, written)
  {
    MenuSavedKeys(rows, items, newIds, written);
    InsertedIdsCount(items, newIds, written);
    InsertedIdsAreNew(items, newIds, written);
    assert rows.Keys !! InsertedIds(items, newIds, written);
  }

  /** A row that no written item of the batch targets by its real id keeps its contents through `saveMenu`. */
  lemma {:induction false} MenuSavedUntouched(rows: map<string, MenuRow>, items: seq<MenuItem>, newIds: seq<string>,
                                              written: seq<bool>, k: string)
    requires |newIds| == |items| && |written| == |items| && FreshIds(rows, newIds)
    requires k in rows
    requires forall i :: 0 <= i < |items| && written[i] && IsRealId(items[i].id) ==> items[i].id != k
    ensures k in MenuSaved(rows, items, newIds, written) && MenuSaved(rows, items, newIds, written)[k] == rows[k]
    decreases |items|
  {
    if items != [] {
      var next := MenuStep(rows, items[0], newIds[0], written[0]);
      FreshIdsStep(rows, next, newIds);
      forall i | 0 <= i < |items[1..]| && written[1..][i] && IsRealId(items[1..][i].id)
        ensures items[1..][i].id != k
      {
        assert items[1..][i] == items[i + 1] && written[1..][i] == written[i + 1];
      }
      MenuSavedUntouched(next, items[1..], newIds[1..], written[1..], k);
    }
  }

  /**
   * The row inserted for a temporary item holds that item once `saveMenu`
   * is done, unless a later written item carries the issued id as its own.
   */
  lemma {:induction false} MenuSavedInserted(rows: map<string, MenuRow>, items: seq<MenuItem>, newIds: seq<string>,
                                             written: seq<bool>, i: int)
    requires |newIds| == |items| && |written| == |items| && FreshIds(rows, newIds)
    requires 0 <= i < |items| && written[i] && !IsRealId(items[i].id)
    requires forall j :: i < j < |items| && written[j] && IsRealId(items[j].id) ==> items[j].id != newIds[i]
    ensures newIds[i] in MenuSaved(rows, items, newIds, written)
    ensures MenuSaved(rows, items, newIds, written)[newIds[i]] == MenuToRow(items[i])
    decreases |items|
  {
    var next := MenuStep(rows, items[0], newIds[0], written[0]);
    FreshIdsStep(rows, next, newIds);
    if i == 0 {
      forall j | 0 <= j < |items[1..]| && written[1..][j] && IsRealId(items[1..][j].id)
        ensures items[1..][j].id != newIds[0]
      {
        assert items[1..][j] == items[j + 1] && written[1..][j] == written[j + 1];
      }
      MenuSavedUntouched(next, items[1..], newIds[1..], written[1..], newIds[0]);
    } else {
      assert items[1..][i - 1] == items[i] && newIds[1..][i - 1] == newIds[i] && written[1..][i - 1] == written[i];
      forall j | i - 1 < j < |items[1..]| && written[1..][j] && IsRealId(items[1..][j].id)
        ensures items[1..][j].id != newIds[1..][i - 1]
      {
        assert items[1..][j] == items[j + 1] && written[1..][j] == written[j + 1];
      }
      MenuSavedInserted(next, items[1..], newIds[1..], written[1..], i - 1);
    }
  }

  /**
   * An item with a real id naming a row, written and carried by no later
   * written item, leaves its contents in that row once `saveMenu` is done.
   */
  lemma {:induction false} MenuSavedUpdated(rows: map<string, MenuRow>, items: seq<MenuItem>, newIds: seq<string>,
                                            written: seq<bool>, i: int)
    requires |newIds| == |items| && |written| == |items| && FreshIds(rows, newIds)
    requires 0 <= i < |items| && written[i] && IsRealId(items[i].id) && items[i].id in rows
    requires forall j :: i < j < |items| && written[j] ==> items[j].id != items[i].id
    ensures items[i].id in MenuSaved(rows, items, newIds, written)
    ensures MenuSaved(rows, items, newIds, written)[items[i].id] == MenuToRow(items[i])
    decreases |items|
  {
    var next := MenuStep(rows, items[0], newIds[0], written[0]);
    FreshIdsStep(rows, next, newIds);
    if i == 0 {
      forall j | 0 <= j < |items[1..]| && written[1..][j] && IsRealId(items[1..][j].id)
        ensures items[1..][j].id != items[0].id
      {
        assert items[1..][j] == items[j + 1] && written[1..][j] == written[j + 1];
      }
      MenuSavedUntouched(next, items[1..], newIds[1..], written[1..], items[0].id);
    } else {
      assert items[1..][i - 1] == items[i] && written[1..][i - 1] == written[i];
      forall j | i - 1 < j < |items[1..]| && written[1..][j]
        ensures items[1..][j].id != items[1..][i - 1].id
      {
        assert items[1..][j] == items[j + 1] && written[1..][j] == written[j + 1];
      }
      MenuSavedUpdated(next, items[1..], newIds[1..], written[1..], i - 1);
    }
  }

  /**
   * `saveMenu`: each item in order, inserting those with temporary ids, each
   * write taken or refused as `written` says; then drop the menu cache.
   */
  method SaveMenu(store: LocalStorage, table: Table<MenuRow>, items: seq<MenuItem>, newIds: seq<string>,
                  written: seq<bool>)
    requires |newIds| == |items| && |written| == |items| && FreshIds(table.rows, newIds)
    modifies store, table
    ensures table.rows == MenuSaved(old(table.rows), items, newIds, written)
    ensures store.items == old(store.items) - {MenuKey}
  {
    var i := 0;
    assert items[0..] == items && newIds[0..] == newIds && written[0..] == written;
    while i < |items|
      invariant 0 <= i <= |items|
      invariant MenuSaved(table.rows, items[i..], newIds[i..], written[i..])
             == MenuSaved(old(table.rows), items, newIds, written)
      invariant FreshIds(table.rows, newIds[i..])
      invariant store.items == old(store.items)
    {
      var m := items[i];
      var dbMenu := MenuToRow(m);
      ghost var before := table.rows;
      assert MenuSaved(before, items[i..], newIds[i..], written[i..])
          == MenuSaved(MenuStep(before, m, newIds[i], written[i]), items[i + 1..], newIds[i + 1..], written[i + 1..]) by {
        assert items[i..][1..] == items[i + 1..];
        assert newIds[i..][1..] == newIds[i + 1..];
        assert written[i..][1..] == written[i + 1..];
        assert items[i..][0] == m && newIds[i..][0] == newIds[i] && written[i..][0] == written[i];
      }
      if written[i] {
        if IsRealId(m.id) {
          table.Update(m.id, _ => dbMenu);
        } else {
          table.Insert(dbMenu, newIds[i]);
        }
      }
      assert table.rows == MenuStep(before, m, newIds[i], written[i]);
      FreshIdsStep(before, table.rows, newIds[i..]);
      assert newIds[i..][1..] == newIds[i + 1..];
      i := i + 1;
    }
    store.RemoveItem(MenuKey);
  }

  /** After `saveMenu`, the next `getMenu` serves the fresh listing, not the cache the save dropped. */
  method SaveMenuThenGet(store: LocalStorage, table: Table<MenuRow>, items: seq<MenuItem>, newIds: seq<string>,
                         written: seq<bool>, resp: Response<seq<Listed<MenuRow>>>, now: int, accepted: bool)
    returns (menu: seq<MenuItem>)
    requires |newIds| == |items| && |written| == |items| && FreshIds(table.rows, newIds)
    modifies store, table
    ensures menu == MenuFetchResult(resp)
  {
    SaveMenu(store, table, items, newIds, written);
    menu := GetMenu(store, resp, now, accepted);
  }

  method DeleteMenu(store: LocalStorage, table: Table<MenuRow>, id: string, written: bool)
    modifies store, table
    ensures table.rows == if written then old(table.rows) - {id} else old(table.rows)
    ensures store.items == old(store.items) - {MenuKey}
  {
    store.RemoveItem(MenuKey);
    DeleteRecord(table, id, written);
  }

  // ---------------------------------------------------------------- post categories

  function GetPostCategories(resp: Response<seq<Listed<PostCategoryRow>>>): seq<PostCategory> {
    MapListed(ListedRows(resp), PostCategoryFromRow)
  }

  /** A saved post category is in the next listing of the table, under the id it was saved under. */
  lemma SavedPostCategoryReadsBack(rows: map<string, PostCategoryRow>, cat: PostCategory, newId: string,
                                   resp: Response<seq<Listed<PostCategoryRow>>>)
    requires newId !in rows && (IsRealId(cat.id) ==> cat.id in rows)
    requires resp.data.Some? && ListsTable(resp.data.value, Upserted(rows, cat.id, PostCategoryToRow(cat), newId))
    ensures cat.(id := SaveTarget(cat.id, newId)) in GetPostCategories(resp)
  {
    SavedRowListed(rows, cat.id, PostCategoryToRow(cat), newId, resp.data.value, PostCategoryFromRow);
  }

  method SavePostCategory(table: Table<PostCategoryRow>, cat: PostCategory, newId: string, written: bool)
    requires newId !in table.rows
    modifies table
    ensures table.rows == if written then Upserted(old(table.rows), cat.id, PostCategoryToRow(cat), newId) else old(table.rows)
  {
    SaveRecord(table, cat.id, PostCategoryToRow(cat), newId, written);
  }

  method DeletePostCategory(table: Table<PostCategoryRow>, id: string, written: bool)
    modifies table
    ensures table.rows == if written then old(table.rows) - {id} else old(table.rows)
  {
    DeleteRecord(table, id, written);
  }

  // ---------------------------------------------------------------- document categories

  /** Every fetched category has an order; a null one reads as 0. */
  function GetDocCategories(resp: Response<seq<Listed<DocCategoryRow>>>): (cats: seq<DocumentCategory>)
    ensures resp.data.None? ==> cats == []
    ensures |cats| == |ListedRows(resp)|
    ensures forall i :: 0 <= i < |cats| ==> cats[i] == DocCategoryFromRow(ListedRows(resp)[i].id, ListedRows(resp)[i].row)
    ensures forall i :: 0 <= i < |cats| && ListedRows(resp)[i].row.orderIndex.None? ==> cats[i].order == 0
  {
    MapListed(ListedRows(resp), DocCategoryFromRow)
  }

  /** A saved category is in the next listing of the table, under the id it was saved under. */
  lemma SavedDocCategoryReadsBack(rows: map<string, DocCategoryRow>, cat: DocumentCategory, newId: string,
                                  resp: Response<seq<Listed<DocCategoryRow>>>)
    requires newId !in rows && (IsRealId(cat.id) ==> cat.id in rows)
    requires resp.data.Some? && ListsTable(resp.data.value, Upserted(rows, cat.id, DocCategoryToRow(cat), newId))
    ensures cat.(id := SaveTarget(cat.id, newId)) in GetDocCategories(resp)
  {
    SavedRowListed(rows, cat.id, DocCategoryToRow(cat), newId, resp.data.value, DocCategoryFromRow);
  }

  method SaveDocCategory(table: Table<DocCategoryRow>, cat: DocumentCategory, newId: string, written: bool)
    requires newId !in table.rows
    modifies table
    ensures table.rows == if written then Upserted(old(table.rows), cat.id, DocCategoryToRow(cat), newId) else old(table.rows)
  {
    SaveRecord(table, cat.id, DocCategoryToRow(cat), newId, written);
  }

  method DeleteDocCategory(table: Table<DocCategoryRow>, id: string, written: bool)
    modifies table
    ensures table.rows == if written then old(table.rows) - {id} else old(table.rows)
  {
    DeleteRecord(table, id, written);
  }

  function DocCategoryOrderPair(c: DocumentCategory): (string, int) {
    (c.id, c.order)
  }

  /** `saveDocCategoriesOrder`: one `update({order_index})` per category, sequentially, each taken or refused. */
  method SaveDocCategoriesOrder(table: Table<DocCategoryRow>, cats: seq<DocumentCategory>, written: seq<bool>)
    requires |written| == |cats|
    modifies table
    ensures table.rows
         == Reordered(old(table.rows), Kept(OrderUpdates(cats, DocCategoryOrderPair), written), WithDocCategoryOrder)
  {
    ApplyOrderUpdates(table, OrderUpdates(cats, DocCategoryOrderPair), WithDocCategoryOrder, written);
  }

  /**
   * The batch order save changes no id and nothing but `order_index`; each
   * category gets the last order the store took for it.
   */
  lemma DocCategoriesOrderEffect(rows: map<string, DocCategoryRow>, cats: seq<DocumentCategory>, written: seq<bool>)
    requires |written| == |cats|
    ensures Reordered(rows, Kept(OrderUpdates(cats, DocCategoryOrderPair), written), WithDocCategoryOrder).Keys == rows.Keys
    ensures forall k :: k in rows ==>
      var u := Kept(OrderUpdates(cats, DocCategoryOrderPair), written);
      Reordered(rows, u, WithDocCategoryOrder)[k]
        == if LastOrderFor(u, k).Some? then rows[k].(orderIndex := Some(LastOrderFor(u, k).value)) else rows[k]
  {
    ReorderedEffect(rows, Kept(OrderUpdates(cats, DocCategoryOrderPair), written), WithDocCategoryOrder);
  }

  // ---------------------------------------------------------------- videos

  function GetVideos(resp: Response<seq<Listed<VideoRow>>>): seq<Video> {
    MapListed(ListedRows(resp), VideoFromRow)
  }

  /** A saved video is in the next listing of the table, under the id it was saved under. */
  lemma SavedVideoReadsBack(rows: map<string, VideoRow>, video: Video, newId: string,
                            resp: Response<seq<Listed<VideoRow>>>)
    requires newId !in rows && (IsRealId(video.id) ==> video.id in rows)
    requires resp.data.Some? && ListsTable(resp.data.value, Upserted(rows, video.id, VideoToRow(video), newId))
    ensures video.(id := SaveTarget(video.id, newId)) in GetVideos(resp)
  {
    SavedRowListed(rows, video.id, VideoToRow(video), newId, resp.data.value, VideoFromRow);
  }

  method SaveVideo(table: Table<VideoRow>, video: Video, newId: string, written: bool)
    requires newId !in table.rows
    modifies table
    ensures table.rows == if written then Upserted(old(table.rows), video.id, VideoToRow(video), newId) else old(table.rows)
  {
    SaveRecord(table, video.id, VideoToRow(video), newId, written);
  }

  method DeleteVideo(table: Table<VideoRow>, id: string, written: bool)
    modifies table
    ensures table.rows == if written then old(table.rows) - {id} else old(table.rows)
  {
    DeleteRecord(table, id, written);
  }

  // ---------------------------------------------------------------- introductions

  function GetIntroductions(resp: Response<seq<Listed<IntroductionRow>>>): seq<IntroductionArticle> {
    MapListed(ListedRows(resp), IntroductionFromRow)
  }

  /** A saved introduction is in the next listing of the table, under the id it was saved under. */
  lemma SavedIntroductionReadsBack(rows: map<string, IntroductionRow>, intro: IntroductionArticle, newId: string,
                                   resp: Response<seq<Listed<IntroductionRow>>>)
    requires newId !in rows && (IsRealId(intro.id) ==> intro.id in rows)
    requires resp.data.Some? && ListsTable(resp.data.value, Upserted(rows, intro.id, IntroductionToRow(intro), newId))
    ensures intro.(id := SaveTarget(intro.id, newId)) in GetIntroductions(resp)
  {
    SavedRowListed(rows, intro.id, IntroductionToRow(intro), newId, resp.data.value, IntroductionFromRow);
  }

  method SaveIntroduction(table: Table<IntroductionRow>, intro: IntroductionArticle, newId: string, written: bool)
    requires newId !in table.rows
    modifies table
    ensures table.rows == if written then Upserted(old(table.rows), intro.id, IntroductionToRow(intro), newId) else old(table.rows)
  {
    SaveRecord(table, intro.id, IntroductionToRow(intro), newId, written);
  }

  method DeleteIntroduction(table: Table<IntroductionRow>, id: string, written: bool)
    modifies table
    ensures table.rows == if written then old(table.rows) - {id} else old(table.rows)
  {
    DeleteRecord(table, id, written);
  }

  // ---------------------------------------------------------------- gallery images

  function GetGallery(resp: Response<seq<Listed<ImageRow>>>): seq<GalleryImage> {
    MapListed(ListedRows(resp), ImageFromRow)
  }

  /** A saved image is in the next listing of the table, under the id it was saved under. */
  lemma SavedImageReadsBack(rows: map<string, ImageRow>, image: GalleryImage, newId: string,
                            resp: Response<seq<Listed<ImageRow>>>)
    requires newId !in rows && (IsRealId(image.id) ==> image.id in rows)
    requires resp.data.Some? && ListsTable(resp.data.value, Upserted(rows, image.id, ImageToRow(image), newId))
    ensures image.(id := SaveTarget(image.id, newId)) in GetGallery(resp)
  {
    SavedRowListed(rows, image.id, ImageToRow(image), newId, resp.data.value, ImageFromRow);
  }

  method SaveImage(table: Table<ImageRow>, image: GalleryImage, newId: string, written: bool)
    requires newId !in table.rows
    modifies table
    ensures table.rows == if written then Upserted(old(table.rows), image.id, ImageToRow(image), newId) else old(table.rows)
  {
    SaveRecord(table, image.id, ImageToRow(image), newId, written);
  }

  method DeleteImage(table: Table<ImageRow>, id: string, written: bool)
    modifies table
    ensures table.rows == if written then old(table.rows) - {id} else old(table.rows)
  {
    DeleteRecord(table, id, written);
  }

  // ---------------------------------------------------------------- users

  /** Every fetched user's e-mail is its user name at the school's domain. */
  function GetUsers(resp: Response<seq<Listed<UserRow>>>): (users: seq<User>)
    ensures resp.data.None? ==> users == []
    ensures |users| == |ListedRows(resp)|
    ensures forall i :: 0 <= i < |users| ==> users[i] == UserFromRow(ListedRows(resp)[i].id, ListedRows(resp)[i].row)
    ensures forall i :: 0 <= i < |users| ==> users[i].email == users[i].username + UserEmailDomain
  {
    MapListed(ListedRows(resp), UserFromRow)
  }

  /** A saved user is in the next listing of the table, with the e-mail the row derives from the user name. */
  lemma SavedUserReadsBack(rows: map<string, UserRow>, user: User, newId: string,
                           resp: Response<seq<Listed<UserRow>>>)
    requires newId !in rows && (IsRealId(user.id) ==> user.id in rows)
    requires resp.data.Some? && ListsTable(resp.data.value, Upserted(rows, user.id, UserToRow(user), newId))
    ensures user.(id := SaveTarget(user.id, newId), email := user.username + UserEmailDomain) in GetUsers(resp)
  {
    SavedRowListed(rows, user.id, UserToRow(user), newId, resp.data.value, UserFromRow);
  }

  method SaveUser(table: Table<UserRow>, user: User, newId: string, written: bool)
    requires newId !in table.rows
    modifies table
    ensures table.rows == if written then Upserted(old(table.rows), user.id, UserToRow(user), newId) else old(table.rows)
  {
    SaveRecord(table, user.id, UserToRow(user), newId, written);
  }

  method DeleteUser(table: Table<UserRow>, id: string, written: bool)
    modifies table
    ensures table.rows == if written then old(table.rows) - {id} else old(table.rows)
  {
    DeleteRecord(table, id, written);
  }
}
