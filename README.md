# TikTok-to-Telegram relay: deduplication and publishing core

A Dafny model of the core of `bot.py`, a bot that takes a trending TikTok video every
interval, downloads it, posts it to a Telegram channel, and records the video's URL so it is
never posted again. The model covers five parts:

- **The posted-video ledger** (`DatabaseManager`): an SQLite table whose only column,
  `url`, is the primary key. Here it is a class over a `set<string>` with its four
  operations: membership, enumeration, idempotent `INSERT OR IGNORE`, and a delete that
  reports how many rows it removed.
- **Candidate selection** (`get_random_tiktok_url`): builds canonical URLs
  `https://www.tiktok.com/@<user>/video/<id>` from the trending feed and drops the ones
  already in the ledger, keeping order and repeats. `random.choice` then picks one. Here
  the pick is a nondeterministic choice among the unposted candidates.
- **One publishing cycle** (`post_random_video`): select, download, send, record, remove
  the file. The ledger gains the URL exactly when the send succeeded. The downloaded file is
  removed on both the send-failure path and the success path. The feed, the downloader, the
  channel and `os.remove` are inputs. The lemma `NeverPostedTwice` and the loop
  `RunSchedule` carry the per-cycle guarantee over any number of consecutive cycles: no
  video is posted twice.
- **The admin chat**: the handlers for `/start`, `/help`, `/add_post`, `/delete_post`,
  `/list_posts` and `/cancel`, and each user's conversation state (idle, waiting for a URL
  to add, waiting for a URL to delete). `Route` gives the order in which the dispatcher
  tries the handlers: the order they are registered in `bot.py`. A command handler matches
  in every state. A state handler matches any message in its state, but only when no
  command handler registered before it matched. Two consequences, modelled as written:
  - While waiting for a URL to delete, `/list_posts` is taken as the URL to delete.
  - While waiting for a URL to add, `/delete_post` and `/list_posts` are rejected as
    invalid URLs.

  Every handler except `/cancel` refuses a sender other than the admin. The invariant
  `Valid` says that only the admin ever leaves the idle state. It follows that a non-admin
  message changes nothing, `/cancel` included.
- **Pagination of `/list_posts`**: the ledger's URLs as a list (in arbitrary set order),
  cut into messages of ten.

The Python built-ins the handlers rely on are modelled in `PyText`: `str.strip()` with
Python's whitespace set, `str.lower()` and the substring test. `Lower` maps exactly the
characters whose Python lowercase form contains an ASCII character. These are `A`-`Z`,
KELVIN SIGN (to `k`) and LATIN CAPITAL LETTER I WITH DOT ABOVE (to `i` plus a combining
dot). Every other character is left as it is. For a search for the ASCII string
`tiktok.com`, this gives the same answer as Python's full lowercasing.

Two points worth noting, where the model follows the code:
- Selection keeps repeated candidates and their feed order. It does not take a set
  difference.
- A cycle whose download fails has no file to clean up, so nothing is removed.

## Model

| member | source | states |
|---|---|---|
| `Database.DatabaseManager.InitDb` | bot.py:49-54 | `CREATE TABLE IF NOT EXISTS` keeps the rows already stored |
| `Database.DatabaseManager.IsVideoPosted` | bot.py:57-63 | true exactly when the URL is a key of the table |
| `Database.DatabaseManager.GetAllPostedUrls` | bot.py:66-72 | returns exactly the set of stored URLs |
| `Database.DatabaseManager.AddPostedVideo` | bot.py:75-80 | the set gains the URL and nothing else; adding a stored URL leaves the set unchanged, adding a new one grows it by exactly one |
| `Database.DatabaseManager.DeleteVideo` | bot.py:83-89 | returns 1 and removes the URL when it is stored, returns 0 and changes nothing when it is not; other URLs stay |
| `Database.DeleteTwice` | bot.py:83-89 | a second delete of the same URL returns 0 |
| `PyText.LeadingSpace` | bot.py:292 | counts exactly the whitespace prefix that `strip` removes |
| `PyText.TrailingSpace` | bot.py:292 | counts exactly the whitespace suffix that `strip` removes |
| `PyText.IsSpace` | bot.py:292 | the whitespace set of `str.strip()`; no visible ASCII character is in it |
| `PyText.Strip` | bot.py:292 | the result is a slice of the input that neither starts nor ends with whitespace, and only whitespace was cut off on either side |
| `PyText.LowerChar` | bot.py:299 | one character's lowercase form: one or two characters, with no ASCII capital; every other ASCII character stays as it is |
| `PyText.Lower` | bot.py:299 | `url.lower()` is never shorter than `url` and holds no ASCII capital |
| `PyText.LowerAppend` | bot.py:299 | lowercasing distributes over concatenation |
| `PyText.LowerOfLowercase` | bot.py:299 | a string with no character that lowercases differently is its own lowercase |
| `PyText.ContainsInfix` | bot.py:299 | `sub in a + sub + b` holds |
| `PyText.ContainsLowercaseInfix` | bot.py:299 | a string that is its own lowercase and occurs in `s` still occurs in `s.lower()` |
| `PyText.Contains` | bot.py:299 | `sub in s` is true exactly when `sub` occurs at some index of `s` |
| `Selection.CanonicalUrl` | bot.py:139 | the URL is the fixed prefix, the handle, then `/video/` and the id: the handle sits right after the prefix, followed by `/`, and the id ends the URL |
| `Selection.Candidates` | bot.py:139 | one canonical URL per trending video, at the same position |
| `Selection.NewVideos` | bot.py:142 | holds exactly the candidates not yet posted; each unposted URL occurs as often as among the candidates, a posted one never |
| `Selection.CanonicalUrlInjective` | bot.py:139-142 | for handles without `/`, equal canonical URLs mean the same video, so filtering by URL filters by video |
| `Selection.DomainIsLowercase` | bot.py:299 | `tiktok.com` is its own lowercase |
| `Selection.IsTikTokUrl` | bot.py:299 | the add handler's check `"tiktok.com" in url.lower()`; every URL that holds `tiktok.com` as typed passes it |
| `Selection.CanonicalUrlIsTikTok` | bot.py:139 | every URL the pipeline builds passes the add handler's `tiktok.com` check at bot.py:299 |
| `Selection.GetRandomTiktokUrl` | bot.py:121-156 | returns nothing exactly when the feed raised or no candidate is unposted (an empty feed included); otherwise a non-empty unposted candidate URL built from one of the trending videos |
| `Selection.OnlyUnpostedRemains` | bot.py:142-148 | feed A, B, C against ledger {A, B} leaves only C to choose from |
| `Pipeline.Downloads.constructor` | bot.py:97 | the download directory starts with the files already in it |
| `Pipeline.RemoveFile` | bot.py:194-198 | `os.remove` removes the file when it succeeds; a failure is only logged and the file stays |
| `Pipeline.PostRandomVideo` | bot.py:159-211 | the ledger gains the selected URL exactly when sending succeeded and is otherwise unchanged; a downloaded file is removed on both the failure and the success path (when `os.remove` succeeds); no selection means no download; the selected URL was not in the ledger |
| `Pipeline.LedgerGrows` | bot.py:164-199 | over consecutive cycles the ledger only grows |
| `Pipeline.NeverPostedTwice` | bot.py:142-188 | across consecutive cycles no cycle selects a URL the ledger held at the start, and no URL posted in one cycle is selected in a later one |
| `Pipeline.RunSchedule` | bot.py:503-511 | the interval job runs one cycle after another (`max_instances=1`), each with its own feed, download, send and removal results; the run it produces satisfies the hypothesis of `NeverPostedTwice`, the ledger is the fold of the cycles' effects, and a cycle posted exactly when its own send succeeded |
| `Pagination.Chunks` | bot.py:351 | the number of pages is the ceiling of n / 10 (none exactly when there are no URLs); every page holds 1 to 10 URLs, and only the last may hold fewer than 10 |
| `Pagination.ChunksStep` | bot.py:351 | the first page is the first ten URLs, and the rest are the pages of the remainder |
| `Pagination.FlattenChunks` | bot.py:351 | joining the pages gives back the list |
| `Pagination.ListOf` | bot.py:350 | `list(urls)` holds every URL of the set exactly once |
| `Admin.Route` | bot.py:214-357 | `/start`, `/help`, `/add_post` and `/cancel` always reach their own handlers; `/delete_post` reaches its handler unless the sender is waiting for a URL to add; `/list_posts` reaches its handler from idle; a waiting state's handler gets a message exactly when no command registered before it matches; nothing handles a message from an idle user that is none of the six commands |
| `Admin.AdminBot.constructor` | bot.py:29-38 | the bot starts with no stored conversation state |
| `Admin.AdminBot.Start` | bot.py:214-236 | the menu for the admin, the "no access to this bot" reply for anyone else |
| `Admin.AdminBot.Help` | bot.py:239-254 | the help text for the admin, the "no access to this bot" reply for anyone else |
| `Admin.AdminBot.AddPost` | bot.py:265-272 | a non-admin is refused and nothing changes; the admin is now waiting for a URL to add |
| `Admin.AdminBot.Cancel` | bot.py:275-283 | from idle nothing changes ("nothing to cancel"); from a waiting state the sender is back to idle; no admin check |
| `Admin.AdminBot.ProcessAddUrl` | bot.py:286-306 | a non-admin is refused and nothing changes; a stripped `/cancel` goes back to idle; a URL whose lowercase form lacks `tiktok.com` is rejected and the admin keeps waiting; otherwise the stripped URL, case kept, is added and the admin is back to idle |
| `Admin.AdminBot.DeletePost` | bot.py:309-316 | a non-admin is refused and nothing changes; the admin is now waiting for a URL to delete |
| `Admin.AdminBot.ProcessDeleteUrl` | bot.py:319-338 | a non-admin is refused and nothing changes; a stripped `/cancel` goes back to idle; otherwise the stripped URL is deleted, the admin is back to idle, and the reply says whether a row was removed |
| `Admin.AdminBot.ListPosts` | bot.py:341-357 | a non-admin is refused; an empty ledger gets "no posts"; otherwise the pages are the chunks of a list holding every ledger URL exactly once |
| `Admin.AdminBot.Handle` | bot.py:214-357 | the handler `Route` picks runs, and its reply, new state and ledger are stated per handler as in that handler's own row; only the sender's state can change; a non-admin message changes neither the ledger nor any state; only the two URL handlers touch the ledger; only the admin ever leaves idle |
| `Admin.AddByHand` | bot.py:265-306 | the admin sends `/add_post`, then a URL that passes the check: the stripped URL is in the ledger afterwards and the admin is idle again |

## Left out

- TikTok session handling is not modelled: creating the `TikTokApi` session, loading and saving cookies, `save_session_state`, the retry loop around session creation and the headless-mode flag. It is browser automation and JSON file I/O. The feed's answer for each cycle is an input: a list of (handle, id) pairs, or `None` when the feed raised. The limit of 20 videos per request (bot.py:132) is not enforced on that input.
- Downloading with `yt_dlp`, including its check that the file exists, is an input function. It returns the path of a file that exists, or `None`.
- Sending the video to the channel and `os.remove` are input functions that report success or failure.
- Reply wording, keyboards and Telegram I/O are left out. Replies are values of the `Reply` datatype.
- The dispatcher's parsing of a command (`/name@bot args`) is left out. A message carries the command name that parsing would produce.
- aiogram keys a conversation state by chat and user. The model keys it by user, which is the same thing in a private chat with the bot.
- Asynchrony is left out. Admin commands that run while a cycle is suspended at a download or a send are not modelled, so the race between selecting a URL and recording it is not modelled either. `RunSchedule` assumes no admin command arrives between its cycles.
- APScheduler's timing (the interval, `misfire_grace_time`, shutdown) is left out.
- `random.choice` is any element of the unposted list. Its uniform distribution is not modelled.
- SQLite durability and database errors are left out. The ledger is a set in memory that never fails. A failing insert after a successful send would fall into the send-failure handler at bot.py:191-199. The outer `except` at bot.py:208 has nothing in the model that could raise.
- Logging and configuration parsing are left out. `ADMIN_ID` is a field of `AdminBot`.
- Selection.NewVideos: states which URLs remain and how often each occurs, but not that their order is kept; the random choice does not depend on the order.
- Selection.GetRandomTiktokUrl: the check `if not video_url` at bot.py:165 also rejects an empty string. Canonical URLs are never empty, so the model proves this check rejects only `None`.
- init_repo.py and run_bot.py are not part of this model. They run git and launch the bot as a subprocess, and hold no logic.
