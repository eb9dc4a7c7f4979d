/** The three stages of one gallery or collection pass, run one after the
    other: the listing driver walks the pages and picks the tasks, the
    workers download them, and the single writer stores the results. */
module Sync {
  import opened Models
  import opened Helpers
  import opened Selection

  /** The listing driver: requests pages 1, 2, 3, ... until the first empty
      one, and picks every item whose key is not in `entries`, which it
      only reads. */
  method ListPages(pages: seq<seq<Media>>, entries: set<string>, target: Target, format: Formatter)
    returns (requested: seq<int>, tasks: seq<Task>)
    ensures |requested| == FirstEmpty(pages) + 1
    ensures forall j :: 0 <= j < |requested| ==> requested[j] == j + 1
    ensures |PageAt(pages, |requested|)| == 0
    ensures tasks == Dispatch(Listed(pages), entries, target, format)
  {
    requested, tasks := [], [];
    var page := 1;
    while true
      invariant 1 <= page
      invariant requested == seq(page - 1, j => j + 1)
      invariant page - 1 <= FirstEmpty(pages)
      invariant tasks == Dispatch(Concat(pages[..page - 1]), entries, target, format)
      decreases |pages| + 1 - page
    {
      var media := PageAt(pages, page);
      CountUpNext(page - 1);
      requested := requested + [page];
      if |media| == 0 {
        break;
      }
      var picked := DispatchPage(media, entries, target, format);
      DispatchNextPage(pages, page, entries, target, format);
      tasks := tasks + picked;
      page := page + 1;
    }
  }

  /** Counting up from 1 by one more number. */
  lemma CountUpNext(n: nat)
    ensures seq(n, j => j + 1) + [n + 1] == seq(n + 1, j => j + 1)
  {
  }

  /** The scan of one page: picks, in order, every item whose key is not
      in `entries`. */
  method DispatchPage(media: seq<Media>, entries: set<string>, target: Target, format: Formatter)
    returns (picked: seq<Task>)
    ensures picked == Dispatch(media, entries, target, format)
  {
    picked := [];
    for i := 0 to |media|
      invariant picked == Dispatch(media[..i], entries, target, format)
    {
      var m := media[i];
      var ts := MediaKey(target, m, format);
      assert media[..i + 1][..i] == media[..i];
      if !IsInEntries(ts, entries) {
        picked := picked + [Task(m, ts)];
      }
    }
    assert media[..|media|] == media;
  }

  /** The workers: each task downloads its payload and only then registers
      its key in the index. */
  method RunWorkers(tasks: seq<Task>, entries: set<string>, download: string -> Bytes)
    returns (results: seq<MediaData>, index: set<string>)
    ensures |results| == |tasks|
    ensures forall i :: 0 <= i < |tasks| ==> results[i] == Fetched(tasks[i], download)
    ensures index == entries + KeysOf(tasks)
  {
    results, index := [], entries;
    for i := 0 to |tasks|
      invariant |results| == i
      invariant forall j :: 0 <= j < i ==> results[j] == Fetched(tasks[j], download)
      invariant index == entries + KeysOf(tasks[..i])
    {
      var t := tasks[i];
      var url: string;
      if t.media.isVideo {
        url := "http://" + t.media.videoURL;
      } else {
        url := "http://" + t.media.responsiveURL;
      }
      var data := download(url);
      results := results + [MediaData(data, t.key, t.media)];
      index := index + {t.key};
      assert tasks[..i + 1] == tasks[..i] + [t];
    }
    assert tasks[..|tasks|] == tasks;
  }

  /** The writer: for each result, its key directory, its payload and its
      `Info.json` sidecar. */
  method Consume(dir: string, results: seq<MediaData>) returns (ops: seq<FsOp>)
    ensures ops == Persist(dir, results)
  {
    ops := [];
    for i := 0 to |results|
      invariant ops == Persist(dir, results[..i])
    {
      var md := results[i];
      var mediaDir := dir + "/" + md.filename;
      var extension := ".jpg";
      if md.media.isVideo {
        extension := ".mp4";
      }
      ops := ops + [EnsureDir(mediaDir), WriteBytes(mediaDir + "/" + md.media.id + extension, md.bytes),
                    WriteInfo(mediaDir + "/" + "Info.json", md.media)];
      assert results[..i + 1][..i] == results[..i];
    }
    assert results[..|results|] == results;
  }
}
