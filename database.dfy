/** The posted-video ledger: a table `videos` whose only column, `url`, is its primary
    key, so the stored rows form a finite set of URL strings. */
module Database {

  class DatabaseManager {
    /** The rows of table `videos`. */
    var urls: set<string>

    /** `init_db`: `CREATE TABLE IF NOT EXISTS` keeps the rows an earlier run left in the
        database file (`existing`, empty on a first start). */
    constructor InitDb(existing: set<string>)
      ensures urls == existing
    {
      urls := existing;
    }

    /** `is_video_posted`: whether a row with exactly this key exists. */
    method IsVideoPosted(url: string) returns (posted: bool)
      ensures posted <==> url in urls
    {
      posted := url in urls;
    }

    /** `get_all_posted_urls`: every key in the table. */
    method GetAllPostedUrls() returns (all: set<string>)
      ensures all == urls
    {
      all := urls;
    }

    /** `add_posted_video`: `INSERT OR IGNORE` adds a new key and silently keeps an
        existing one, so adding is idempotent. */
    method AddPostedVideo(url: string)
      modifies this
      ensures urls == old(urls) + {url}
      ensures url in old(urls) ==> urls == old(urls)
      ensures url !in old(urls) ==> |urls| == |old(urls)| + 1
    {
      urls := urls + {url};
    }

    /** `delete_video`: deletes the row with this key and returns the number of rows
        deleted, 1 or 0; no other row is touched. */
    method DeleteVideo(url: string) returns (count: int)
      modifies this
      ensures count == (if url in old(urls) then 1 else 0)
      ensures urls == old(urls) - {url}
      ensures url !in urls
    {
      count := if url in urls then 1 else 0;
      urls := urls - {url};
    }
  }

  /** Deleting the same URL twice: the second deletion finds nothing. */
  method DeleteTwice(db: DatabaseManager, url: string) returns (first: int, second: int)
    modifies db
    ensures first == (if url in old(db.urls) then 1 else 0)
    ensures second == 0
    ensures db.urls == old(db.urls) - {url}
  {
    first := db.DeleteVideo(url);
    second := db.DeleteVideo(url);
  }
}
