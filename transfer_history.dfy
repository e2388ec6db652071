/**
 * The transfer-history record policy: a table of transfer records with ids
 * assigned on insert, a creation timestamp stamped on every insert, a
 * "replace by source path" insert, and the builders of success and failure
 * records from the file, metadata, media and transfer inputs.
 *
 * The ORM table is a sequence of records in storage order; the current time
 * is a parameter of every insert.
 */
module TransferHistory {
  import opened Wrappers

  /** Error message of a failed transfer that produced none ("unknown error"). */
  const UnknownError: string := "未知错误"
  /** Error message of a failure without media or transfer information ("media info not recognized"). */
  const MediaNotRecognized: string := "未识别到媒体信息"

  /** A file within a storage backend; it stands for its own serialized snapshot. */
  datatype FileItem = FileItem(storage: string, path: string, name: string)

  /** What was parsed from the file name. */
  datatype MetaInfo = MetaInfo(name: Option<string>, year: Option<string>,
                               season: Option<string>, episode: Option<string>)

  /** The resolved media; `posterImage` is what its poster accessor returns. */
  datatype MediaInfo = MediaInfo(
    mediaType: string, category: Option<string>, title: Option<string>, year: Option<string>,
    tmdbId: Option<int>, imdbId: Option<string>, tvdbId: Option<int>, doubanId: Option<string>,
    episodeGroup: Option<string>, posterImage: Option<string>)

  /** The outcome of a transfer. */
  datatype TransferInfo = TransferInfo(targetItem: Option<FileItem>, fileList: seq<string>,
                                       message: Option<string>)

  /** The column values of one record; `None` is a column that was not supplied (null). */
  datatype Fields = Fields(
    src: Option<string>, srcStorage: Option<string>, srcFileitem: Option<FileItem>,
    dest: Option<string>, destStorage: Option<string>, destFileitem: Option<FileItem>,
    mode: Option<string>, mediaType: Option<string>, category: Option<string>,
    title: Option<string>, year: Option<string>,
    tmdbid: Option<int>, imdbid: Option<string>, tvdbid: Option<int>, doubanid: Option<string>,
    seasons: Option<string>, episodes: Option<string>, episodeGroup: Option<string>,
    image: Option<string>, downloader: Option<string>, downloadHash: Option<string>,
    status: Option<int>, errmsg: Option<string>, files: Option<seq<string>>, date: Option<string>)

  /** No column supplied. */
  const NoFields: Fields := Fields(None, None, None, None, None, None, None, None, None, None, None,
                                   None, None, None, None, None, None, None, None, None, None,
                                   None, None, None, None)

  /** A stored row: its storage-assigned id and its columns. */
  datatype Record = Record(id: nat, fields: Fields)

  /** The lookups the table offers, each selecting the rows it matches. */
  datatype Query =
    | ById(id: int)
    | BySrc(src: Option<string>, storage: Option<string>)
    | ByDest(dest: string)
    | ByTitle(title: string)
    | ByHash(downloadHash: string)

  /** A source-path lookup filters by storage only when a storage is given. */
  predicate Matches(r: Record, q: Query)
  {
    match q
    case ById(id) => r.id == id
    case BySrc(src, storage) => r.fields.src == src && (Truthy(storage) ==> r.fields.srcStorage == storage)
    case ByDest(dest) => r.fields.dest == Some(dest)
    case ByTitle(title) => r.fields.title == Some(title)
    case ByHash(h) => r.fields.downloadHash == Some(h)
  }

  /** Ids strictly increase in storage order, so they are unique. */
  ghost predicate IdsAscending(rows: seq<Record>)
  {
    forall i, j :: 0 <= i < j < |rows| ==> rows[i].id < rows[j].id
  }

  ghost predicate IdsBelow(rows: seq<Record>, bound: nat)
  {
    forall i :: 0 <= i < |rows| ==> rows[i].id < bound
  }

  /** The position of the first row the query matches, or `|rows|` when none does. */
  function FirstIndex(rows: seq<Record>, q: Query): (k: nat)
    ensures k <= |rows|
    ensures k < |rows| ==> Matches(rows[k], q)
    ensures forall j :: 0 <= j < k ==> !Matches(rows[j], q)
  {
    if |rows| == 0 then 0
    else if Matches(rows[0], q) then 0
    else 1 + FirstIndex(rows[1..], q)
  }

  /** `.first()`: the first matching row in storage order. */
  function FindFirst(rows: seq<Record>, q: Query): (r: Option<Record>)
    ensures r.None? <==> forall i :: 0 <= i < |rows| ==> !Matches(rows[i], q)
    ensures r.Some? ==> exists k :: 0 <= k < |rows| && rows[k] == r.value && Matches(rows[k], q) &&
                                    forall j :: 0 <= j < k ==> !Matches(rows[j], q)
  {
    var k := FirstIndex(rows, q);
    if k < |rows| then Some(rows[k]) else None
  }

  /** `.all()`: every matching row, in storage order. */
  function SelectAll(rows: seq<Record>, q: Query): (r: seq<Record>)
    ensures |r| <= |rows|
    ensures r == [] <==> forall i :: 0 <= i < |rows| ==> !Matches(rows[i], q)
  {
    if |rows| == 0 then []
    else if Matches(rows[0], q) then [rows[0]] + SelectAll(rows[1..], q)
    else SelectAll(rows[1..], q)
  }

  /** `.all()` returns exactly the matching rows. */
  lemma {:induction false} SelectAllMembers(rows: seq<Record>, q: Query)
    ensures forall x :: x in SelectAll(rows, q) <==> x in rows && Matches(x, q)
  {
    if |rows| > 0 {
      SelectAllMembers(rows[1..], q);
      assert rows == [rows[0]] + rows[1..];
    }
  }

  /** The table after deleting by primary key; a missing id deletes nothing. */
  function WithoutId(rows: seq<Record>, id: int): seq<Record>
  {
    if |rows| == 0 then []
    else if rows[0].id == id then WithoutId(rows[1..], id)
    else [rows[0]] + WithoutId(rows[1..], id)
  }

  /** The table after setting the download hash of the row with the given id. */
  function WithDownloadHash(rows: seq<Record>, id: int, downloadHash: Option<string>): (r: seq<Record>)
    ensures |r| == |rows|
    ensures forall i :: 0 <= i < |rows| ==> r[i].id == rows[i].id
    ensures forall i :: 0 <= i < |rows| ==> r[i].fields.(downloadHash := rows[i].fields.downloadHash) == rows[i].fields
    ensures forall i :: 0 <= i < |rows| && rows[i].id == id ==> r[i].fields.downloadHash == downloadHash
    ensures forall i :: 0 <= i < |rows| && rows[i].id != id ==> r[i] == rows[i]
  {
    seq(|rows|, i requires 0 <= i < |rows| =>
      if rows[i].id == id then Record(rows[i].id, rows[i].fields.(downloadHash := downloadHash)) else rows[i])
  }

  /** The columns an insert stores: the caller's, with the date replaced by the current time. */
  function Stamped(f: Fields, now: string): (r: Fields)
    ensures r.date == Some(now)
    ensures r.(date := f.date) == f
  {
    f.(date := Some(now))
  }

  lemma {:induction false} WithoutAbsentId(rows: seq<Record>, id: int)
    requires forall i :: 0 <= i < |rows| ==> rows[i].id != id
    ensures WithoutId(rows, id) == rows
  {
    if |rows| > 0 {
      WithoutAbsentId(rows[1..], id);
      assert [rows[0]] + rows[1..] == rows;
    }
  }

  /** Deleting the id of the first row removes that row only. */
  lemma WithoutFirstId(rows: seq<Record>)
    requires IdsAscending(rows) && 0 < |rows|
    ensures WithoutId(rows, rows[0].id) == rows[1..]
  {
    assert forall i :: 0 <= i < |rows[1..]| ==> rows[1..][i] == rows[i + 1];
    WithoutAbsentId(rows[1..], rows[0].id);
  }

  /** Deleting the id of the row at `k` removes that row and only it. */
  lemma {:induction false} WithoutIdAt(rows: seq<Record>, k: nat)
    requires IdsAscending(rows) && k < |rows|
    ensures WithoutId(rows, rows[k].id) == rows[..k] + rows[k + 1..]
  {
    if k == 0 {
      WithoutFirstId(rows);
    } else {
      var id := rows[k].id;
      assert rows[0].id != id;
      assert WithoutId(rows, id) == [rows[0]] + WithoutId(rows[1..], id);
      WithoutIdAt(rows[1..], k - 1);
      assert rows[1..][k - 1] == rows[k];
      assert rows[1..][..k - 1] + rows[1..][k..] == rows[1..k] + rows[k + 1..];
      assert [rows[0]] + (rows[1..k] + rows[k + 1..]) == rows[..k] + rows[k + 1..];
    }
  }

  /**
   * `delete(id)` removes at most one row: the row with that id when there is one
   * (every other row stays, in order), and nothing otherwise.
   */
  lemma DeleteRemovesAtMostOne(rows: seq<Record>, id: int)
    requires IdsAscending(rows)
    ensures (exists k :: 0 <= k < |rows| && rows[k].id == id && WithoutId(rows, id) == rows[..k] + rows[k + 1..])
         || (WithoutId(rows, id) == rows && forall x :: x in rows ==> x.id != id)
  {
    var k := FirstIndex(rows, ById(id));
    if k < |rows| {
      WithoutIdAt(rows, k);
    } else {
      WithoutAbsentId(rows, id);
    }
  }

  /** After `delete(id)` no row has that id, and every row with another id is still there. */
  lemma {:induction false} DeleteKeepsOthers(rows: seq<Record>, id: int)
    ensures forall x :: x in WithoutId(rows, id) <==> x in rows && x.id != id
  {
    if |rows| > 0 {
      DeleteKeepsOthers(rows[1..], id);
      assert rows == [rows[0]] + rows[1..];
    }
  }

  /** Deleting keeps the ids ascending. */
  lemma DeleteKeepsIdsAscending(rows: seq<Record>, id: int)
    requires IdsAscending(rows)
    ensures IdsAscending(WithoutId(rows, id))
  {
    var k := FirstIndex(rows, ById(id));
    if k < |rows| {
      WithoutIdAt(rows, k);
      var r := rows[..k] + rows[k + 1..];
      forall i, j | 0 <= i < j < |r| ensures r[i].id < r[j].id {
        var i' := if i < k then i else i + 1;
        var j' := if j < k then j else j + 1;
        assert r[i] == rows[i'] && r[j] == rows[j'];
      }
    } else {
      WithoutAbsentId(rows, id);
    }
  }

  /** The source-path lookup `add_force` uses: no storage filter. */
  function SrcQuery(f: Fields): Query
  {
    BySrc(f.src, None)
  }

  /**
   * The table after `add_force`: with a non-empty source path the first row with
   * that path is removed (whatever its storage), then the stamped row is appended.
   */
  function ForceInserted(rows: seq<Record>, nextId: nat, f: Fields, now: string): (r: seq<Record>)
    requires IdsAscending(rows)
    ensures var k := FirstIndex(rows, SrcQuery(f));
            var added := Record(nextId, Stamped(f, now));
            r == (if Truthy(f.src) && k < |rows| then rows[..k] + rows[k + 1..] else rows) + [added]
  {
    var kept :=
      if Truthy(f.src) then
        match FindFirst(rows, SrcQuery(f))
        case Some(h) => WithoutIdAt(rows, FirstIndex(rows, SrcQuery(f))); WithoutId(rows, h.id)
        case None => rows
      else rows;
    kept + [Record(nextId, Stamped(f, now))]
  }

  lemma {:induction false} FirstIndexAppend(rows: seq<Record>, r: Record, q: Query)
    requires Matches(r, q)
    ensures FirstIndex(rows + [r], q) == FirstIndex(rows, q)
  {
    if |rows| > 0 {
      assert (rows + [r])[0] == rows[0];
      assert (rows + [r])[1..] == rows[1..] + [r];
      FirstIndexAppend(rows[1..], r, q);
    }
  }

  lemma {:induction false} SelectAllAppend(a: seq<Record>, b: seq<Record>, q: Query)
    ensures SelectAll(a + b, q) == SelectAll(a, q) + SelectAll(b, q)
  {
    if |a| == 0 {
      assert a + b == b;
    } else {
      assert (a + b)[0] == a[0];
      assert (a + b)[1..] == a[1..] + b;
      SelectAllAppend(a[1..], b, q);
    }
  }

  /**
   * The record `add_force` returns is its own new record exactly when no other
   * row with that source path survives: at most one existed before for a
   * non-empty path (it was replaced), none for an empty or missing path.
   * Otherwise the lookup by path returns an older row.
   */
  lemma AddForceReturnsAdded(rows: seq<Record>, nextId: nat, f: Fields, now: string)
    requires IdsAscending(rows) && IdsBelow(rows, nextId)
    ensures FindFirst(ForceInserted(rows, nextId, f, now), SrcQuery(f)).Some?
    ensures FindFirst(ForceInserted(rows, nextId, f, now), SrcQuery(f)) == Some(Record(nextId, Stamped(f, now)))
            <==> |SelectAll(rows, SrcQuery(f))| <= (if Truthy(f.src) then 1 else 0)
  {
    var q := SrcQuery(f);
    var k := FirstIndex(rows, q);
    var added := Record(nextId, Stamped(f, now));
    if Truthy(f.src) && k < |rows| {
      RemovedAtBelow(rows, k, nextId);
      FirstOfAppended(rows[..k] + rows[k + 1..], added, q);
      RemoveFirstMatchCount(rows, q);
    } else {
      FirstOfAppended(rows, added, q);
    }
  }

  /** Removing one row keeps every remaining id below the bound. */
  lemma RemovedAtBelow(rows: seq<Record>, k: nat, bound: nat)
    requires k < |rows| && IdsBelow(rows, bound)
    ensures IdsBelow(rows[..k] + rows[k + 1..], bound)
  {
    var kept := rows[..k] + rows[k + 1..];
    forall i | 0 <= i < |kept| ensures kept[i].id < bound {
      assert kept[i] == (if i < k then rows[i] else rows[i + 1]);
    }
  }

  /** A matching row appended with a new id is found first exactly when no earlier row matches. */
  lemma FirstOfAppended(rows: seq<Record>, added: Record, q: Query)
    requires Matches(added, q)
    requires forall i :: 0 <= i < |rows| ==> rows[i].id < added.id
    ensures FindFirst(rows + [added], q).Some?
    ensures FindFirst(rows + [added], q) == Some(added) <==> SelectAll(rows, q) == []
  {
    FirstIndexAppend(rows, added, q);
    assert (rows + [added])[|rows|] == added;
  }

  /** Removing the first matching row lowers the number of matches by one. */
  lemma RemoveFirstMatchCount(rows: seq<Record>, q: Query)
    requires FirstIndex(rows, q) < |rows|
    ensures var k := FirstIndex(rows, q);
            |SelectAll(rows, q)| == 1 + |SelectAll(rows[..k] + rows[k + 1..], q)|
  {
    var k := FirstIndex(rows, q);
    assert rows == rows[..k] + [rows[k]] + rows[k + 1..];
    SelectAllAppend(rows[..k] + [rows[k]], rows[k + 1..], q);
    SelectAllAppend(rows[..k], [rows[k]], q);
    assert SelectAll(rows[..k], q) == [];
    SelectAllAppend(rows[..k], rows[k + 1..], q);
  }

  /**
   * Two `add_force` calls with the same non-empty source path, on a table that
   * held no row with that path, leave exactly one row with it: the second
   * call's, while every earlier row is kept.
   */
  lemma AddForceTwice(rows: seq<Record>, nextId: nat, f1: Fields, now1: string, f2: Fields, now2: string)
    requires IdsAscending(rows) && IdsBelow(rows, nextId)
    requires Truthy(f1.src) && f2.src == f1.src
    requires forall i :: 0 <= i < |rows| ==> rows[i].fields.src != f1.src
    ensures IdsAscending(ForceInserted(rows, nextId, f1, now1))
    ensures ForceInserted(ForceInserted(rows, nextId, f1, now1), nextId + 1, f2, now2)
            == rows + [Record(nextId + 1, Stamped(f2, now2))]
    ensures forall x :: (x in ForceInserted(ForceInserted(rows, nextId, f1, now1), nextId + 1, f2, now2) &&
                         x.fields.src == f1.src) ==> x == Record(nextId + 1, Stamped(f2, now2))
  {
    var q := SrcQuery(f1);
    var r1 := Record(nextId, Stamped(f1, now1));
    assert FirstIndex(rows, q) == |rows|;
    var once := ForceInserted(rows, nextId, f1, now1);
    assert once == rows + [r1];
    assert IdsAscending(once) by {
      forall i, j | 0 <= i < j < |once| ensures once[i].id < once[j].id {
      }
    }
    FirstIndexAppend(rows, r1, q);
    assert SrcQuery(f2) == q;
    assert once[..|rows|] == rows;
    assert once[|rows| + 1..] == [];
  }

  /** The destination columns: those of the target item, all null without one. */
  predicate DestinationFrom(f: Fields, target: Option<FileItem>)
  {
    && (target.Some? ==>
          f.dest == Some(target.value.path) && f.destStorage == Some(target.value.storage) &&
          f.destFileitem == target)
    && (target.None? ==> f.dest.None? && f.destStorage.None? && f.destFileitem.None?)
  }

  /** The media columns other than title, year and episode group: those of the media. */
  predicate MediaColumnsFrom(f: Fields, media: MediaInfo)
  {
    && f.mediaType == Some(media.mediaType) && f.category == media.category
    && f.tmdbid == media.tmdbId && f.imdbid == media.imdbId && f.tvdbid == media.tvdbId
    && f.doubanid == media.doubanId && f.image == media.posterImage
  }

  /**
   * The record of a successful transfer: status 1, no error message, the
   * destination columns taken from the target item and null without one.
   */
  function SuccessFields(fileitem: FileItem, mode: string, meta: MetaInfo, mediainfo: MediaInfo,
                         transferinfo: TransferInfo, downloader: Option<string>,
                         downloadHash: Option<string>): (f: Fields)
    ensures f.status == Some(1) && f.errmsg.None?
    ensures f.src == Some(fileitem.path) && f.srcStorage == Some(fileitem.storage)
    ensures f.srcFileitem == Some(fileitem) && f.mode == Some(mode)
    ensures DestinationFrom(f, transferinfo.targetItem)
    ensures f.title == mediainfo.title && f.year == mediainfo.year && f.episodeGroup.None?
    ensures MediaColumnsFrom(f, mediainfo)
    ensures f.seasons == meta.season && f.episodes == meta.episode
    ensures f.downloader == downloader && f.downloadHash == downloadHash
    ensures f.files == Some(transferinfo.fileList) && f.date.None?
  {
    var target := transferinfo.targetItem;
    NoFields.(
      src := Some(fileitem.path),
      srcStorage := Some(fileitem.storage),
      srcFileitem := Some(fileitem),
      dest := if target.Some? then Some(target.value.path) else None,
      destStorage := if target.Some? then Some(target.value.storage) else None,
      destFileitem := if target.Some? then target else None,
      mode := Some(mode),
      mediaType := Some(mediainfo.mediaType),
      category := mediainfo.category,
      title := mediainfo.title,
      year := mediainfo.year,
      tmdbid := mediainfo.tmdbId,
      imdbid := mediainfo.imdbId,
      tvdbid := mediainfo.tvdbId,
      doubanid := mediainfo.doubanId,
      seasons := meta.season,
      episodes := meta.episode,
      image := mediainfo.posterImage,
      downloader := downloader,
      downloadHash := downloadHash,
      status := Some(1),
      files := Some(transferinfo.fileList))
  }

  /**
   * The record of a failed transfer: status 0. With both media and transfer
   * information the transfer's message (or "unknown error") and the media's
   * title and year (falling back to the parsed name and year); otherwise the
   * fixed "media info not recognized" message, the parsed name and year, and
   * no destination, media ids or files.
   */
  function FailFields(fileitem: FileItem, mode: string, meta: MetaInfo, mediainfo: Option<MediaInfo>,
                      transferinfo: Option<TransferInfo>, downloader: Option<string>,
                      downloadHash: Option<string>): (f: Fields)
    ensures f.status == Some(0)
    ensures f.src == Some(fileitem.path) && f.srcStorage == Some(fileitem.storage)
    ensures f.srcFileitem == Some(fileitem) && f.mode == Some(mode)
    ensures f.seasons == meta.season && f.episodes == meta.episode
    ensures f.downloader == downloader && f.downloadHash == downloadHash && f.date.None?
    ensures mediainfo.Some? && transferinfo.Some? ==>
              && (Truthy(transferinfo.value.message) ==> f.errmsg == transferinfo.value.message)
              && (!Truthy(transferinfo.value.message) ==> f.errmsg == Some(UnknownError))
              && (Truthy(mediainfo.value.title) ==> f.title == mediainfo.value.title)
              && (!Truthy(mediainfo.value.title) ==> f.title == meta.name)
              && (Truthy(mediainfo.value.year) ==> f.year == mediainfo.value.year)
              && (!Truthy(mediainfo.value.year) ==> f.year == meta.year)
              && DestinationFrom(f, transferinfo.value.targetItem)
              && MediaColumnsFrom(f, mediainfo.value)
              && f.episodeGroup == mediainfo.value.episodeGroup
              && f.files == Some(transferinfo.value.fileList)
    ensures mediainfo.None? || transferinfo.None? ==>
              && f.errmsg == Some(MediaNotRecognized)
              && f.title == meta.name && f.year == meta.year
              && f.dest.None? && f.destStorage.None? && f.destFileitem.None?
              && f.tmdbid.None? && f.imdbid.None? && f.tvdbid.None? && f.doubanid.None?
              && f.mediaType.None? && f.category.None? && f.image.None? && f.files.None?
              && f.episodeGroup.None?
  {
    if mediainfo.Some? && transferinfo.Some? then
      var media := mediainfo.value;
      var transfer := transferinfo.value;
      var target := transfer.targetItem;
      NoFields.(
        src := Some(fileitem.path),
        srcStorage := Some(fileitem.storage),
        srcFileitem := Some(fileitem),
        dest := if target.Some? then Some(target.value.path) else None,
        destStorage := if target.Some? then Some(target.value.storage) else None,
        destFileitem := if target.Some? then target else None,
        mode := Some(mode),
        mediaType := Some(media.mediaType),
        category := media.category,
        title := OrElse(media.title, meta.name),
        year := OrElse(media.year, meta.year),
        tmdbid := media.tmdbId,
        imdbid := media.imdbId,
        tvdbid := media.tvdbId,
        doubanid := media.doubanId,
        seasons := meta.season,
        episodes := meta.episode,
        image := media.posterImage,
        downloader := downloader,
        downloadHash := downloadHash,
        episodeGroup := media.episodeGroup,
        status := Some(0),
        errmsg := OrElse(transfer.message, Some(UnknownError)),
        files := Some(transfer.fileList))
    else
      NoFields.(
        title := meta.name,
        year := meta.year,
        src := Some(fileitem.path),
        srcStorage := Some(fileitem.storage),
        srcFileitem := Some(fileitem),
        mode := Some(mode),
        seasons := meta.season,
        episodes := meta.episode,
        downloader := downloader,
        downloadHash := downloadHash,
        status := Some(0),
        errmsg := Some(MediaNotRecognized))
  }

  /** The transfer-history operations over one table. */
  class TransferHistoryOper {
    /** The rows in storage order. */
    var records: seq<Record>
    /** The id storage assigns to the next inserted row. */
    var nextId: nat

    ghost predicate Valid()
      reads this
    {
      IdsAscending(records) && IdsBelow(records, nextId)
    }

    constructor ()
      ensures Valid() && records == [] && nextId == 1
    {
      records := [];
      nextId := 1;
    }

    /** `get(historyid)`. */
    function Get(historyid: int): (r: Option<Record>)
      reads this
      ensures r.Some? ==> r.value in records && r.value.id == historyid
      ensures r.None? ==> forall x :: x in records ==> x.id != historyid
    {
      FindFirst(records, ById(historyid))
    }

    /** `get_by_title(title)`: every row with that title. */
    function GetByTitle(title: string): (r: seq<Record>)
      reads this
      ensures forall x :: x in r <==> x in records && x.fields.title == Some(title)
    {
      SelectAllMembers(records, ByTitle(title));
      SelectAll(records, ByTitle(title))
    }

    /** `get_by_src(src, storage)`: the first row with that source path (and storage, when given). */
    function GetBySrc(src: string, storage: Option<string>): (r: Option<Record>)
      reads this
      ensures r.Some? ==> r.value in records && r.value.fields.src == Some(src) &&
                          (Truthy(storage) ==> r.value.fields.srcStorage == storage)
      ensures r.Some? ==> exists k :: 0 <= k < |records| && records[k] == r.value &&
                            forall j :: 0 <= j < k ==> !Matches(records[j], BySrc(Some(src), storage))
      ensures r.None? ==> forall x :: x in records ==> !Matches(x, BySrc(Some(src), storage))
    {
      FindFirst(records, BySrc(Some(src), storage))
    }

    /** `get_by_dest(dest)`: the first row with that destination path. */
    function GetByDest(dest: string): (r: Option<Record>)
      reads this
      ensures r.Some? ==> r.value in records && r.value.fields.dest == Some(dest)
      ensures r.Some? ==> exists k :: 0 <= k < |records| && records[k] == r.value &&
                            forall j :: 0 <= j < k ==> records[j].fields.dest != Some(dest)
      ensures r.None? ==> forall x :: x in records ==> x.fields.dest != Some(dest)
    {
      FindFirst(records, ByDest(dest))
    }

    /** `list_by_hash(download_hash)`: every row of that download task. */
    function ListByHash(downloadHash: string): (r: seq<Record>)
      reads this
      ensures forall x :: x in r <==> x in records && x.fields.downloadHash == Some(downloadHash)
    {
      SelectAllMembers(records, ByHash(downloadHash));
      SelectAll(records, ByHash(downloadHash))
    }

    /** Storage's `create`: store the columns under the next id. */
    method Create(f: Fields)
      requires Valid()
      modifies this
      ensures Valid() && nextId == old(nextId) + 1
      ensures records == old(records) + [Record(old(nextId), f)]
    {
      records := records + [Record(nextId, f)];
      nextId := nextId + 1;
    }

    /** `add(**kwargs)`: insert one row whose date is the current time, whatever the caller gave. */
    method Add(f: Fields, now: string)
      requires Valid()
      modifies this
      ensures Valid() && nextId == old(nextId) + 1
      ensures records == old(records) + [Record(old(nextId), Stamped(f, now))]
    {
      var kwargs := f.(date := Some(now));
      Create(kwargs);
    }

    /** `delete(historyid)`: remove the row with that id, if any. */
    method Delete(historyid: int)
      requires Valid()
      modifies this
      ensures Valid() && nextId == old(nextId)
      ensures records == WithoutId(old(records), historyid)
      ensures Get(historyid).None?
    {
      DeleteKeepsOthers(records, historyid);
      DeleteKeepsIdsAscending(records, historyid);
      records := WithoutId(records, historyid);
    }

    /** `truncate()`: remove every row. */
    method Truncate()
      requires Valid()
      modifies this
      ensures Valid() && nextId == old(nextId)
      ensures records == []
      ensures forall id :: Get(id).None?
    {
      records := [];
    }

    /** `update_download_hash(historyid, download_hash)`: only that row's download hash changes. */
    method UpdateDownloadHash(historyid: int, downloadHash: string)
      requires Valid()
      modifies this
      ensures Valid() && nextId == old(nextId)
      ensures records == WithDownloadHash(old(records), historyid, Some(downloadHash))
    {
      records := WithDownloadHash(records, historyid, Some(downloadHash));
      assert forall x :: x in records ==> x.id < nextId by {
        forall x | x in records ensures x.id < nextId {
          var i :| 0 <= i < |records| && records[i] == x;
          assert old(records)[i] in old(records);
        }
      }
    }

    /**
     * `add_force(**kwargs)`: with a non-empty source path, delete the first row
     * with that path; insert the stamped row; return the first row with the path.
     */
    method AddForce(f: Fields, now: string) returns (his: Option<Record>)
      requires Valid()
      modifies this
      ensures Valid() && nextId == old(nextId) + 1
      ensures records == ForceInserted(old(records), old(nextId), f, now)
      ensures his.Some? && his == FindFirst(records, SrcQuery(f))
    {
      ghost var before := records;
      if Truthy(f.src) {
        var transferhistory := FindFirst(records, SrcQuery(f));
        if transferhistory.Some? {
          Delete(transferhistory.value.id);
        }
      }
      var kwargs := f.(date := Some(now));
      Create(kwargs);
      AddForceReturnsAdded(before, old(nextId), f, now);
      his := FindFirst(records, SrcQuery(f));
    }

    /** `add_success(...)`: record a successful transfer, replacing any row for the same source path. */
    method AddSuccess(fileitem: FileItem, mode: string, meta: MetaInfo, mediainfo: MediaInfo,
                      transferinfo: TransferInfo, downloader: Option<string>,
                      downloadHash: Option<string>, now: string)
      requires Valid()
      modifies this
      ensures Valid() && nextId == old(nextId) + 1
      ensures records == ForceInserted(old(records), old(nextId),
                                       SuccessFields(fileitem, mode, meta, mediainfo, transferinfo,
                                                     downloader, downloadHash), now)
    {
      var _ := AddForce(SuccessFields(fileitem, mode, meta, mediainfo, transferinfo,
                                      downloader, downloadHash), now);
    }

    /** `add_fail(...)`: record a failed transfer, replacing any row for the same source path. */
    method AddFail(fileitem: FileItem, mode: string, meta: MetaInfo, mediainfo: Option<MediaInfo>,
                   transferinfo: Option<TransferInfo>, downloader: Option<string>,
                   downloadHash: Option<string>, now: string) returns (his: Option<Record>)
      requires Valid()
      modifies this
      ensures Valid() && nextId == old(nextId) + 1
      ensures var f := FailFields(fileitem, mode, meta, mediainfo, transferinfo, downloader, downloadHash);
              records == ForceInserted(old(records), old(nextId), f, now) &&
              his.Some? && his == FindFirst(records, SrcQuery(f))
    {
      his := AddForce(FailFields(fileitem, mode, meta, mediainfo, transferinfo,
                                 downloader, downloadHash), now);
    }
  }
}
