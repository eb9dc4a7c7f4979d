/** The pure part of the incremental media sync: the dedup key of an item,
    the URL it is fetched from, the pages the listing driver walks, the items
    it dispatches, and the files the writer produces for each result. */
module Selection {
  import opened Models
  import opened Helpers

  /** Which remote listing a sync pass walks. */
  datatype Target = Gallery | Collection

  /** Renders a whole second since the epoch as text. It stands for
      `Time.Format` with the layout "Mon, Jan 2, 15h04m05s, MST 2006" in the
      local time zone; the layout has no fractional seconds, so the rendering
      reads the whole second only. */
  type Formatter = int -> string

  /** Go's int64 addition, which wraps around. */
  function AddInt64(a: Int64, b: Int64): (r: Int64)
    ensures MinInt64 <= a + b <= MaxInt64 ==> r == a + b
    ensures (r - (a + b)) % 0x1_0000_0000_0000_0000 == 0
  {
    var s := a + b;
    if s > MaxInt64 then s - 0x1_0000_0000_0000_0000
    else if s < MinInt64 then s + 0x1_0000_0000_0000_0000
    else s
  }

  /** The millisecond value a dedup key is derived from: the upload date for
      the gallery, the sum of upload and collected dates for the collection. */
  function Stamp(target: Target, m: Media): Int64
  {
    match target
    case Gallery => m.uploadDate
    case Collection => AddInt64(m.uploadDate, m.collectedDate)
  }

  /** The dedup key of a millisecond value: the rendering of its whole
      second. */
  function StampKey(tm: Int64, format: Formatter): string
  {
    format(ParseMilliTimestamp(tm).sec)
  }

  /** The dedup key of an item. */
  function MediaKey(target: Target, m: Media, format: Formatter): string
  {
    StampKey(Stamp(target, m), format)
  }

  /** An item's key is the rendering of the floor second of its stamp; the
      gallery stamps by upload date, the collection by the int64 sum of the
      upload and collected dates, exact when it fits and wrapped otherwise. */
  lemma MediaKeyMeaning(target: Target, m: Media, format: Formatter)
    ensures MediaKey(target, m, format) == format(Stamp(target, m) / 1000)
    ensures target == Gallery ==> MediaKey(target, m, format) == format(m.uploadDate / 1000)
    ensures target == Collection ==>
      (Stamp(target, m) - (m.uploadDate + m.collectedDate)) % 0x1_0000_0000_0000_0000 == 0
    ensures target == Collection && MinInt64 <= m.uploadDate + m.collectedDate <= MaxInt64 ==>
      MediaKey(target, m, format) == format((m.uploadDate + m.collectedDate) / 1000)
  {
  }

  /** Timestamps in the same second give the same key; when the rendering
      tells seconds apart, timestamps in different seconds give different
      keys. */
  lemma SameSecondSameKey(t1: Int64, t2: Int64, format: Formatter)
    ensures t1 / 1000 == t2 / 1000 ==> StampKey(t1, format) == StampKey(t2, format)
    ensures (forall a, b :: format(a) == format(b) ==> a == b) ==>
      (StampKey(t1, format) == StampKey(t2, format) <==> t1 / 1000 == t2 / 1000)
  {
  }

  /** For a non-negative timestamp the truncated split already is the
      normalised one: the millisecond part lies in [0, 1000), its nanosecond
      value below one second, and the key's second is `tm / 1000`. */
  lemma NonNegativeSplit(tm: Int64)
    requires tm >= 0
    ensures 0 <= GoRem(tm, 1000) < 1000
    ensures GoRem(tm, 1000) * NanosPerMilli < NanosPerSecond
    ensures UnixTime(GoQuot(tm, 1000), GoRem(tm, 1000) * NanosPerMilli)
         == Instant(tm / 1000, GoRem(tm, 1000) * NanosPerMilli)
  {
  }

  /** The URL an item's payload is fetched from. */
  function MediaURL(m: Media): (u: string)
    ensures |u| >= 7 && u[..7] == "http://"
    ensures m.isVideo ==> u[7..] == m.videoURL
    ensures !m.isVideo ==> u[7..] == m.responsiveURL
  {
    "http://" + (if m.isVideo then m.videoURL else m.responsiveURL)
  }

  /** The file extension of an item's payload. */
  function Extension(m: Media): (e: string)
    ensures |e| == 4 && e[0] == '.'
    ensures e == ".mp4" <==> m.isVideo
    ensures e == ".jpg" <==> !m.isVideo
  {
    if m.isVideo then ".mp4" else ".jpg"
  }

  /** Page `p` (counted from 1) of a finite listing; every page past the end
      is empty. */
  function PageAt(pages: seq<seq<Media>>, p: int): seq<Media>
  {
    if 1 <= p <= |pages| then pages[p - 1] else []
  }

  /** How many pages come before the first empty one. */
  function FirstEmpty(pages: seq<seq<Media>>): (n: nat)
    ensures n <= |pages|
    ensures forall i :: 0 <= i < n ==> |pages[i]| > 0
    ensures n < |pages| ==> |pages[n]| == 0
  {
    if pages == [] || |pages[0]| == 0 then 0 else 1 + FirstEmpty(pages[1..])
  }

  /** The items of a run of pages, in order. */
  function Concat(pages: seq<seq<Media>>): (r: seq<Media>)
  {
    if pages == [] then [] else Concat(pages[..|pages| - 1]) + pages[|pages| - 1]
  }

  /** Every item the listing driver sees: those on the pages before the
      first empty page. */
  function Listed(pages: seq<seq<Media>>): seq<Media>
  {
    Concat(pages[..FirstEmpty(pages)])
  }

  /** The first empty page is the one numbered `FirstEmpty(pages) + 1`: any
      page number whose page is empty while all earlier pages are not. */
  lemma FirstEmptyUnique(pages: seq<seq<Media>>, p: int)
    requires 1 <= p <= |pages| + 1 && |PageAt(pages, p)| == 0
    requires forall i :: 0 <= i < p - 1 ==> |pages[i]| > 0
    ensures FirstEmpty(pages) == p - 1
  {
    var n := FirstEmpty(pages);
    assert p - 1 < |pages| ==> |pages[p - 1]| == 0;
    assert n < |pages| ==> |pages[n]| == 0;
  }

  /** A fetch task handed to a worker: the item and its dedup key. */
  datatype Task = Task(media: Media, key: string)

  /** The tasks a pass dispatches for the listed items, in listing order:
      one for every item whose key is not in the snapshot, and nothing for
      the others. The snapshot does not grow while the listing is walked, so
      an item listed twice is dispatched twice. */
  function Dispatch(items: seq<Media>, snapshot: set<string>, target: Target, format: Formatter): (r: seq<Task>)
    ensures |r| <= |items|
    ensures forall t :: t in r ==>
      t.media in items && t.key == MediaKey(target, t.media, format) && t.key !in snapshot
  {
    if items == [] then []
    else
      var m := items[|items| - 1];
      var k := MediaKey(target, m, format);
      Dispatch(items[..|items| - 1], snapshot, target, format) + (if k in snapshot then [] else [Task(m, k)])
  }

  /** Dispatching a listing is dispatching its parts one after the other. */
  lemma {:induction false} DispatchAppend(a: seq<Media>, b: seq<Media>, snapshot: set<string>, target: Target, format: Formatter)
    ensures Dispatch(a + b, snapshot, target, format)
         == Dispatch(a, snapshot, target, format) + Dispatch(b, snapshot, target, format)
  {
    if b == [] {
      assert a + b == a;
    } else {
      var b' := b[..|b| - 1];
      assert (a + b)[..|a + b| - 1] == a + b';
      assert (a + b)[|a + b| - 1] == b[|b| - 1];
      DispatchAppend(a, b', snapshot, target, format);
    }
  }

  /** Walking one more page dispatches that page's picks after the earlier
      ones. */
  lemma DispatchNextPage(pages: seq<seq<Media>>, page: int, snapshot: set<string>, target: Target, format: Formatter)
    requires 1 <= page <= |pages|
    ensures Dispatch(Concat(pages[..page]), snapshot, target, format)
         == Dispatch(Concat(pages[..page - 1]), snapshot, target, format) + Dispatch(pages[page - 1], snapshot, target, format)
  {
    assert pages[..page][..page - 1] == pages[..page - 1];
    DispatchAppend(Concat(pages[..page - 1]), pages[page - 1], snapshot, target, format);
  }

  /** Every listed item whose key is not in the snapshot is dispatched. */
  lemma {:induction false} DispatchComplete(items: seq<Media>, i: int, snapshot: set<string>, target: Target, format: Formatter)
    requires 0 <= i < |items|
    requires MediaKey(target, items[i], format) !in snapshot
    ensures Task(items[i], MediaKey(target, items[i], format)) in Dispatch(items, snapshot, target, format)
  {
    if i < |items| - 1 {
      var front := items[..|items| - 1];
      assert front[i] == items[i];
      DispatchComplete(front, i, snapshot, target, format);
    }
  }

  /** When no listed key is known yet, every listed item is dispatched. */
  lemma {:induction false} DispatchAllNew(items: seq<Media>, snapshot: set<string>, target: Target, format: Formatter)
    requires forall m :: m in items ==> MediaKey(target, m, format) !in snapshot
    ensures |Dispatch(items, snapshot, target, format)| == |items|
  {
    if items != [] {
      DispatchAllNew(items[..|items| - 1], snapshot, target, format);
    }
  }

  /** A page that is listed twice in one pass is dispatched twice: the
      listing loop does not register keys itself. */
  lemma RepeatedPageDispatchedTwice(page: seq<Media>, snapshot: set<string>, target: Target, format: Formatter)
    ensures Dispatch(page + page, snapshot, target, format)
         == Dispatch(page, snapshot, target, format) + Dispatch(page, snapshot, target, format)
  {
    DispatchAppend(page, page, snapshot, target, format);
  }

  /** The keys of a list of tasks. */
  function KeysOf(tasks: seq<Task>): set<string>
  {
    set t | t in tasks :: t.key
  }

  /** After a pass has stored every dispatched item under its key, a pass
      over the same listing dispatches nothing. */
  lemma {:induction false} RerunDispatchesNothing(items: seq<Media>, snapshot: set<string>, next: set<string>, target: Target, format: Formatter)
    requires snapshot + KeysOf(Dispatch(items, snapshot, target, format)) <= next
    ensures Dispatch(items, next, target, format) == []
  {
    var d := Dispatch(items, snapshot, target, format);
    if Dispatch(items, next, target, format) != [] {
      var t := Dispatch(items, next, target, format)[0];
      var i :| 0 <= i < |items| && items[i] == t.media;
      var k := MediaKey(target, items[i], format);
      if k !in snapshot {
        DispatchComplete(items, i, snapshot, target, format);
      }
      assert false;
    }
  }

  /** The two-page scenario: 30 new items on page 1, one on page 2, then an
      empty page 3 give 31 dispatched tasks after two non-empty pages. */
  lemma TwoPagesThenEmpty(p1: seq<Media>, p2: seq<Media>, snapshot: set<string>, target: Target, format: Formatter)
    requires |p1| == 30 && |p2| == 1
    requires forall m :: m in p1 + p2 ==> MediaKey(target, m, format) !in snapshot
    ensures FirstEmpty([p1, p2, []]) == 2
    ensures |Dispatch(Listed([p1, p2, []]), snapshot, target, format)| == 31
  {
    var pages := [p1, p2, []];
    assert |pages[0]| > 0 && |pages[1]| > 0;
    FirstEmptyUnique(pages, 3);
    assert pages[..2] == [p1, p2];
    assert [p1, p2][..1] == [p1];
    assert [p1][..0] == [];
    assert Concat([p1]) == p1;
    assert Concat([p1, p2]) == p1 + p2;
    DispatchAllNew(p1 + p2, snapshot, target, format);
  }

  /** What a worker hands to the writer for a task: the payload downloaded
      from the item's URL, under the task's key. */
  function Fetched(t: Task, download: string -> Bytes): MediaData
  {
    MediaData(download(MediaURL(t.media)), t.key, t.media)
  }

  /** The directory a result is stored in. */
  function MediaDir(dir: string, key: string): string
  {
    dir + "/" + key
  }

  /** The three effects of storing one result: its key directory, the
      payload `<id>.jpg` or `<id>.mp4`, and the `Info.json` sidecar. */
  function ItemOps(dir: string, md: MediaData): seq<FsOp>
  {
    var d := MediaDir(dir, md.filename);
    [EnsureDir(d), WriteBytes(d + "/" + md.media.id + Extension(md.media), md.bytes), WriteInfo(d + "/" + "Info.json", md.media)]
  }

  /** The effects of the writer for a list of results, in order. */
  function Persist(dir: string, results: seq<MediaData>): (ops: seq<FsOp>)
    ensures |ops| == 3 * |results|
  {
    if results == [] then []
    else Persist(dir, results[..|results| - 1]) + ItemOps(dir, results[|results| - 1])
  }

  /** The writer stores the i-th result with the i-th group of three
      effects. */
  lemma {:induction false} PersistAt(dir: string, results: seq<MediaData>, i: int)
    requires 0 <= i < |results|
    ensures Persist(dir, results)[3 * i..3 * i + 3] == ItemOps(dir, results[i])
  {
    var front := results[..|results| - 1];
    var a := Persist(dir, front);
    var b := ItemOps(dir, results[|results| - 1]);
    assert Persist(dir, results) == a + b;
    if i < |results| - 1 {
      PersistAt(dir, front, i);
      assert (a + b)[3 * i..3 * i + 3] == a[3 * i..3 * i + 3];
    } else {
      assert (a + b)[|a|..|a| + 3] == b;
    }
  }

  /** Where a result lands: its payload in `<dir>/<key>/<id>.mp4` for a video
      and `.jpg` otherwise, its metadata in `<dir>/<key>/Info.json`; the
      payload never overwrites the sidecar. */
  lemma ItemLayout(dir: string, md: MediaData)
    ensures ItemOps(dir, md)[1].path
         == dir + "/" + md.filename + "/" + md.media.id + (if md.media.isVideo then ".mp4" else ".jpg")
    ensures ItemOps(dir, md)[2].path == dir + "/" + md.filename + "/Info.json"
    ensures ItemOps(dir, md)[1].path != ItemOps(dir, md)[2].path
  {
    var ops := ItemOps(dir, md);
    var p1, p2 := ops[1].path, ops[2].path;
    assert p1[|p1| - 1] == 'g' || p1[|p1| - 1] == '4';
    assert p2[|p2| - 1] == 'n';
  }
}
