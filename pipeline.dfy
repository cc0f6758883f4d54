/** `post_random_video`: one publishing cycle (select, download, send, record, remove the
    local file), and the scheduler that runs such cycles one after another. */
module Pipeline {
  import opened Wrappers
  import opened Database
  import opened Selection

  /** The `downloads/` directory: the paths of the files currently in it. */
  class Downloads {
    var files: set<string>

    constructor (existing: set<string>)
      ensures files == existing
    {
      files := existing;
    }
  }

  /** How far a cycle got. */
  datatype Outcome =
    | NoVideo                                 // selection yielded nothing
    | DownloadFailed(url: string)             // the download yielded no file
    | SendFailed(url: string, path: string)   // the channel refused the file
    | Posted(url: string, path: string)       // sent and recorded
  {
    /** A URL was selected for this cycle. */
    predicate Selected() {
      !NoVideo?
    }

    /** A local file was downloaded in this cycle. */
    predicate Downloaded() {
      SendFailed? || Posted?
    }
  }

  /** The ledger after a cycle with outcome `o`: it gains the URL exactly when the video
      was sent. */
  function LedgerAfter(before: set<string>, o: Outcome): (after: set<string>) {
    if o.Posted? then before + {o.url} else before
  }

  /** The download directory after a cycle: a downloaded file is removed again on the
      send-failure path and the success path alike, unless `os.remove` fails (which is
      only logged). */
  function FilesAfter(before: set<string>, o: Outcome, removes: string -> bool): (after: set<string>) {
    if !o.Downloaded() then before
    else if removes(o.path) then before - {o.path}
    else before + {o.path}
  }

  /** `os.remove(path)`; `removes(path)` says whether the call succeeds. An `OSError` is
      logged and the file stays. */
  method RemoveFile(fs: Downloads, path: string, removes: string -> bool)
    modifies fs
    ensures fs.files == if removes(path) then old(fs.files) - {path} else old(fs.files)
  {
    if removes(path) {
      fs.files := fs.files - {path};
    }
  }

  /** One cycle. The feed's answer (`trending`, `None` when the feed raised), the
      downloader (`download(url)`: the path of the file it wrote and checked, or `None`),
      the channel (`sends(path)`: whether `send_video` succeeded) and the file system
      (`removes(path)`: whether `os.remove` succeeded) are inputs. */
  method PostRandomVideo(db: DatabaseManager, fs: Downloads, trending: Option<seq<TrendingVideo>>,
                         download: string -> Option<string>, sends: string -> bool,
                         removes: string -> bool)
    returns (o: Outcome)
    modifies db, fs
    ensures db.urls == LedgerAfter(old(db.urls), o)
    ensures fs.files == FilesAfter(old(fs.files), o, removes)
    ensures o.NoVideo? <==> trending.None? || NewVideos(Candidates(trending.value), old(db.urls)) == []
    ensures o.Selected() ==> trending.Some? && o.url in NewVideos(Candidates(trending.value), old(db.urls))
    ensures o.Selected() ==> o.url !in old(db.urls)
    ensures o.DownloadFailed? <==> o.Selected() && (download(o.url).None? || download(o.url).value == "")
    ensures o.Downloaded() ==> download(o.url) == Some(o.path) && o.path != ""
    ensures o.Posted? <==> o.Downloaded() && sends(o.path)
  {
    var selected := GetRandomTiktokUrl(db, trending);
    if selected.None? || selected.value == "" {
      return NoVideo;
    }
    var url := selected.value;
    var downloaded := download(url);
    if downloaded.None? || downloaded.value == "" {
      return DownloadFailed(url);
    }
    var path := downloaded.value;
    fs.files := fs.files + {path};
    if !sends(path) {
      RemoveFile(fs, path, removes);
      return SendFailed(url, path);
    }
    db.AddPostedVideo(url);
    RemoveFile(fs, path, removes);
    return Posted(url, path);
  }

  /** The ledger after a run of cycles, in order. */
  function LedgerAfterRun(before: set<string>, run: seq<Outcome>): (after: set<string>) {
    if run == [] then before else LedgerAfter(LedgerAfterRun(before, run[..|run| - 1]), run[|run| - 1])
  }

  /** Every cycle of the run selected a URL its ledger did not yet hold, as
      `PostRandomVideo` guarantees. */
  ghost predicate FreshRun(before: set<string>, run: seq<Outcome>) {
    forall i :: 0 <= i < |run| && run[i].Selected() ==> run[i].url !in LedgerAfterRun(before, run[..i])
  }

  /** The ledger only grows from cycle to cycle. */
  lemma {:induction false} LedgerGrows(before: set<string>, run: seq<Outcome>, i: nat, j: nat)
    requires i <= j <= |run|
    ensures before <= LedgerAfterRun(before, run[..i]) <= LedgerAfterRun(before, run[..j])
    decreases j
  {
    if j > 0 {
      if i < j {
        LedgerGrows(before, run, i, j - 1);
        assert run[..j][..j - 1] == run[..j - 1];
      } else {
        LedgerGrows(before, run, 0, j - 1);
        assert run[..j][..j - 1] == run[..j - 1];
      }
    } else {
      assert run[..0] == [];
    }
  }

  /** A video is posted at most once over a run of cycles, and never when the ledger held
      it at the start. */
  lemma NeverPostedTwice(before: set<string>, run: seq<Outcome>)
    requires FreshRun(before, run)
    ensures forall j :: 0 <= j < |run| && run[j].Selected() ==> run[j].url !in before
    ensures forall i, j :: 0 <= i < j < |run| && run[i].Posted? && run[j].Selected() ==> run[i].url != run[j].url
  {
    forall j | 0 <= j < |run| && run[j].Selected()
      ensures run[j].url !in before
    {
      LedgerGrows(before, run, 0, j);
    }
    forall i, j | 0 <= i < j < |run| && run[i].Posted? && run[j].Selected()
      ensures run[i].url != run[j].url
    {
      LedgerGrows(before, run, i + 1, j);
      assert run[..i + 1][..i] == run[..i];
      assert run[i].url in LedgerAfterRun(before, run[..i + 1]);
    }
  }

  /** The scheduler firing `|feeds|` times with no admin command in between: cycle `n` runs
      on the ledger the previous one left, with that cycle's own feed answer, downloader,
      channel and file-system results, so a failure in one cycle may clear in the next. */
  method RunSchedule(db: DatabaseManager, fs: Downloads, feeds: seq<Option<seq<TrendingVideo>>>,
                     downloads: seq<string -> Option<string>>, sends: seq<string -> bool>,
                     removes: seq<string -> bool>)
    returns (run: seq<Outcome>)
    requires |downloads| == |sends| == |removes| == |feeds|
    modifies db, fs
    ensures |run| == |feeds|
    ensures forall n :: 0 <= n < |run| ==> (run[n].Posted? <==> run[n].Downloaded() && sends[n](run[n].path))
    ensures db.urls == LedgerAfterRun(old(db.urls), run)
    ensures FreshRun(old(db.urls), run)
  {
    run := [];
    var n := 0;
    while n < |feeds|
      invariant n <= |feeds| && |run| == n
      invariant db.urls == LedgerAfterRun(old(db.urls), run)
      invariant FreshRun(old(db.urls), run)
      invariant forall k :: 0 <= k < n ==> (run[k].Posted? <==> run[k].Downloaded() && sends[k](run[k].path))
    {
      var before := db.urls;
      var o := PostRandomVideo(db, fs, feeds[n], downloads[n], sends[n], removes[n]);
      assert o.Selected() ==> o.url !in before;
      assert forall i :: 0 <= i <= n ==> (run + [o])[..i] == run[..i];
      run := run + [o];
      n := n + 1;
    }
  }
}
