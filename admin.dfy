/** The admin chat: command handlers, the per-user conversation state they set and clear,
    and the order in which the dispatcher tries them. */
module Admin {
  import opened Wrappers
  import opened PyText
  import opened Database
  import opened Selection
  import opened Pagination

  /** A user's conversation state; a user with no stored state is idle. */
  datatype ConvState = Idle | WaitingAddUrl | WaitingDeleteUrl

  /** An incoming message: its sender, the command name the dispatcher's `Command`
      filter recognises in it (`None` when it is no command), and its text (`None` for a
      message without text, such as a photo). */
  datatype Message = Message(sender: int, command: Option<string>, text: Option<string>)

  datatype Handler =
    | CmdStart | CmdHelp | CmdAddPost | CmdCancel | ProcessAddPostUrl
    | CmdDeletePost | ProcessDeletePostUrl | CmdListPosts

  /** What the bot answers. The two refusals differ in wording: one says "this bot", the
      other "this command". */
  datatype Reply =
    | NoAccessToBot | NoAccessToCommand
    | Menu | HelpText
    | AskAddUrl | AskDeleteUrl
    | NothingToCancel | Cancelled
    | InvalidUrl | Added(url: string)
    | Deleted(url: string) | NotFound(url: string)
    | PostList(pages: seq<seq<string>>) | NoPosts
    | HandlerError   // the handler raised; the dispatcher logs it and answers nothing

  /** The message is one of the commands `names`. */
  predicate IsCommandIn(m: Message, names: set<string>) {
    m.command.Some? && m.command.value in names
  }

  /** The handler the dispatcher runs for a message: the first registered one whose
      filters match. Command handlers match in every state; the two URL handlers match
      any message in their state. Nothing matches plain text from an idle user. */
  function Route(s: ConvState, m: Message): (h: Option<Handler>)
    ensures m.command == Some("start") ==> h == Some(CmdStart)
    ensures m.command == Some("help") ==> h == Some(CmdHelp)
    ensures m.command == Some("add_post") ==> h == Some(CmdAddPost)
    ensures m.command == Some("cancel") ==> h == Some(CmdCancel)
    ensures m.command == Some("delete_post") && s != WaitingAddUrl ==> h == Some(CmdDeletePost)
    ensures m.command == Some("list_posts") && s == Idle ==> h == Some(CmdListPosts)
    ensures h == Some(ProcessAddPostUrl) <==>
              s == WaitingAddUrl && !IsCommandIn(m, {"start", "help", "add_post", "cancel"})
    ensures h == Some(ProcessDeletePostUrl) <==>
              s == WaitingDeleteUrl && !IsCommandIn(m, {"start", "help", "add_post", "cancel", "delete_post"})
    ensures h.None? <==> s == Idle && !IsCommandIn(m, {"start", "help", "add_post", "cancel", "delete_post", "list_posts"})
  {
    if m.command == Some("start") then Some(CmdStart)
    else if m.command == Some("help") then Some(CmdHelp)
    else if m.command == Some("add_post") then Some(CmdAddPost)
    else if m.command == Some("cancel") then Some(CmdCancel)
    else if s == WaitingAddUrl then Some(ProcessAddPostUrl)
    else if m.command == Some("delete_post") then Some(CmdDeletePost)
    else if s == WaitingDeleteUrl then Some(ProcessDeletePostUrl)
    else if m.command == Some("list_posts") then Some(CmdListPosts)
    else
      assert s == Idle;
      assert m.command.Some? ==> m.command.value !in {"start", "help", "add_post", "cancel", "delete_post", "list_posts"};
      None
  }

  class AdminBot {
    /** `ADMIN_ID` from the environment. */
    const adminId: int
    /** The ledger the commands edit. */
    const db: DatabaseManager
    /** The stored conversation states; clearing a state removes the entry. */
    var states: map<int, ConvState>

    /** Only the admin ever leaves the idle state. */
    ghost predicate Valid()
      reads this
    {
      forall u :: u in states ==> u == adminId && states[u] != Idle
    }

    function StateOf(u: int): (s: ConvState)
      reads this
    {
      if u in states then states[u] else Idle
    }

    /** The handler the dispatcher picks for `m` in its sender's current state. */
    function HandlerFor(m: Message): (h: Option<Handler>)
      reads this
    {
      Route(StateOf(m.sender), m)
    }

    constructor (admin: int, ledger: DatabaseManager)
      ensures Valid() && adminId == admin && db == ledger && states == map[]
    {
      adminId := admin;
      db := ledger;
      states := map[];
    }

    /** `/start`: the menu for the admin, a refusal for anyone else. */
    method Start(sender: int) returns (reply: Reply)
      ensures reply == if sender == adminId then Menu else NoAccessToBot
    {
      if sender != adminId {
        return NoAccessToBot;
      }
      return Menu;
    }

    /** `/help`. */
    method Help(sender: int) returns (reply: Reply)
      ensures reply == if sender == adminId then HelpText else NoAccessToBot
    {
      if sender != adminId {
        return NoAccessToBot;
      }
      return HelpText;
    }

    /** `/add_post`: the admin is now asked for a URL to add. */
    method AddPost(sender: int) returns (reply: Reply)
      requires Valid()
      modifies this
      ensures Valid()
      ensures sender != adminId ==> reply == NoAccessToCommand && states == old(states)
      ensures sender == adminId ==> reply == AskAddUrl && states == old(states)[sender := WaitingAddUrl]
    {
      if sender != adminId {
        return NoAccessToCommand;
      }
      states := states[sender := WaitingAddUrl];
      return AskAddUrl;
    }

    /** `/cancel`, open to everyone: from idle nothing happens, from a waiting state the
        sender is back to idle. */
    method Cancel(sender: int) returns (reply: Reply)
      requires Valid()
      modifies this
      ensures Valid()
      ensures old(StateOf(sender)) == Idle ==> reply == NothingToCancel && states == old(states)
      ensures old(StateOf(sender)) != Idle ==> reply == Cancelled && states == old(states) - {sender}
    {
      if StateOf(sender) == Idle {
        return NothingToCancel;
      }
      states := states - {sender};
      return Cancelled;
    }

    /** The reply to a URL while waiting for one to add. The stripped text is added
        as it is (case kept) when its lowercase form contains `tiktok.com`; otherwise the
        admin is asked again and keeps waiting. */
    method ProcessAddUrl(sender: int, text: Option<string>) returns (reply: Reply)
      requires Valid()
      modifies this, db
      ensures Valid()
      ensures sender != adminId || text.None? ==>
                reply == (if sender != adminId then NoAccessToCommand else HandlerError)
                && states == old(states) && db.urls == old(db.urls)
      ensures sender == adminId && text.Some? && Strip(text.value) == "/cancel" ==>
                reply == Cancelled && states == old(states) - {sender} && db.urls == old(db.urls)
      ensures sender == adminId && text.Some? && Strip(text.value) != "/cancel" && !IsTikTokUrl(Strip(text.value)) ==>
                reply == InvalidUrl && states == old(states) && db.urls == old(db.urls)
      ensures sender == adminId && text.Some? && Strip(text.value) != "/cancel" && IsTikTokUrl(Strip(text.value)) ==>
                reply == Added(Strip(text.value)) && states == old(states) - {sender}
                && db.urls == old(db.urls) + {Strip(text.value)}
    {
      if sender != adminId {
        return NoAccessToCommand;
      }
      if text.None? {
        return HandlerError;
      }
      var url := Strip(text.value);
      if url == "/cancel" {
        states := states - {sender};
        return Cancelled;
      }
      if !IsTikTokUrl(url) {
        return InvalidUrl;
      }
      db.AddPostedVideo(url);
      states := states - {sender};
      return Added(url);
    }

    /** `/delete_post`: the admin is now asked for a URL to delete. */
    method DeletePost(sender: int) returns (reply: Reply)
      requires Valid()
      modifies this
      ensures Valid()
      ensures sender != adminId ==> reply == NoAccessToCommand && states == old(states)
      ensures sender == adminId ==> reply == AskDeleteUrl && states == old(states)[sender := WaitingDeleteUrl]
    {
      if sender != adminId {
        return NoAccessToCommand;
      }
      states := states[sender := WaitingDeleteUrl];
      return AskDeleteUrl;
    }

    /** The reply to a URL while waiting for one to delete: the stripped text is deleted
        from the ledger, the admin is back to idle and told whether a row was removed. */
    method ProcessDeleteUrl(sender: int, text: Option<string>) returns (reply: Reply)
      requires Valid()
      modifies this, db
      ensures Valid()
      ensures sender != adminId || text.None? ==>
                reply == (if sender != adminId then NoAccessToCommand else HandlerError)
                && states == old(states) && db.urls == old(db.urls)
      ensures sender == adminId && text.Some? && Strip(text.value) == "/cancel" ==>
                reply == Cancelled && states == old(states) - {sender} && db.urls == old(db.urls)
      ensures sender == adminId && text.Some? && Strip(text.value) != "/cancel" ==>
                reply == (if Strip(text.value) in old(db.urls) then Deleted(Strip(text.value))
                          else NotFound(Strip(text.value)))
                && states == old(states) - {sender}
                && db.urls == old(db.urls) - {Strip(text.value)}
    {
      if sender != adminId {
        return NoAccessToCommand;
      }
      if text.None? {
        return HandlerError;
      }
      var url := Strip(text.value);
      if url == "/cancel" {
        states := states - {sender};
        return Cancelled;
      }
      var deletedCount := db.DeleteVideo(url);
      states := states - {sender};
      if deletedCount > 0 {
        return Deleted(url);
      }
      return NotFound(url);
    }

    /** `/list_posts`: every URL of the ledger exactly once, in pages of at most ten. */
    method ListPosts(sender: int) returns (reply: Reply)
      ensures sender != adminId ==> reply == NoAccessToCommand
      ensures sender == adminId && db.urls == {} ==> reply == NoPosts
      ensures sender == adminId && db.urls != {} ==>
                reply.PostList? && reply.pages == Chunks(Flatten(reply.pages))
                && NoDuplicates(Flatten(reply.pages))
                && forall u :: u in Flatten(reply.pages) <==> u in db.urls
    {
      if sender != adminId {
        return NoAccessToCommand;
      }
      var urls := db.GetAllPostedUrls();
      if urls == {} {
        return NoPosts;
      }
      var urlList := ListOf(urls);
      FlattenChunks(urlList);
      return PostList(Chunks(urlList));
    }

    /** One incoming message: the dispatcher picks the handler and runs it. A sender other
        than the admin changes nothing, whatever they send. */
    method Handle(m: Message) returns (reply: Option<Reply>)
      requires Valid()
      modifies this, db
      ensures Valid()
      ensures reply.None? <==> Route(old(StateOf(m.sender)), m).None?
      ensures m.sender != adminId ==> states == old(states) && db.urls == old(db.urls)
      ensures forall u :: u != m.sender ==> StateOf(u) == old(StateOf(u))
      ensures Route(old(StateOf(m.sender)), m) !in {Some(ProcessAddPostUrl), Some(ProcessDeletePostUrl)} ==>
                db.urls == old(db.urls)
      // what the handler the dispatcher picked did
      ensures old(HandlerFor(m)) == Some(CmdStart) ==>
                reply == Some(if m.sender == adminId then Menu else NoAccessToBot) && states == old(states)
      ensures old(HandlerFor(m)) == Some(CmdHelp) ==>
                reply == Some(if m.sender == adminId then HelpText else NoAccessToBot) && states == old(states)
      ensures old(HandlerFor(m)) == Some(CmdAddPost) ==>
                if m.sender == adminId then reply == Some(AskAddUrl) && states == old(states)[m.sender := WaitingAddUrl]
                else reply == Some(NoAccessToCommand) && states == old(states)
      ensures old(HandlerFor(m)) == Some(CmdDeletePost) ==>
                if m.sender == adminId then reply == Some(AskDeleteUrl) && states == old(states)[m.sender := WaitingDeleteUrl]
                else reply == Some(NoAccessToCommand) && states == old(states)
      ensures old(HandlerFor(m)) == Some(CmdCancel) ==>
                if old(StateOf(m.sender)) == Idle then reply == Some(NothingToCancel) && states == old(states)
                else reply == Some(Cancelled) && states == old(states) - {m.sender}
      ensures old(HandlerFor(m)) == Some(ProcessAddPostUrl) ==>
                if m.sender != adminId || m.text.None? then
                  reply == Some(if m.sender != adminId then NoAccessToCommand else HandlerError)
                  && states == old(states) && db.urls == old(db.urls)
                else if Strip(m.text.value) == "/cancel" then
                  reply == Some(Cancelled) && states == old(states) - {m.sender} && db.urls == old(db.urls)
                else if !IsTikTokUrl(Strip(m.text.value)) then
                  reply == Some(InvalidUrl) && states == old(states) && db.urls == old(db.urls)
                else
                  reply == Some(Added(Strip(m.text.value))) && states == old(states) - {m.sender}
                  && db.urls == old(db.urls) + {Strip(m.text.value)}
      ensures old(HandlerFor(m)) == Some(ProcessDeletePostUrl) ==>
                if m.sender != adminId || m.text.None? then
                  reply == Some(if m.sender != adminId then NoAccessToCommand else HandlerError)
                  && states == old(states) && db.urls == old(db.urls)
                else if Strip(m.text.value) == "/cancel" then
                  reply == Some(Cancelled) && states == old(states) - {m.sender} && db.urls == old(db.urls)
                else
                  reply == Some(if Strip(m.text.value) in old(db.urls) then Deleted(Strip(m.text.value))
                                else NotFound(Strip(m.text.value)))
                  && states == old(states) - {m.sender} && db.urls == old(db.urls) - {Strip(m.text.value)}
      ensures old(HandlerFor(m)) == Some(CmdListPosts) ==>
                states == old(states) && reply.Some?
                && (m.sender != adminId ==> reply.value == NoAccessToCommand)
                && (m.sender == adminId && db.urls == {} ==> reply.value == NoPosts)
                && (m.sender == adminId && db.urls != {} ==>
                      reply.value.PostList? && reply.value.pages == Chunks(Flatten(reply.value.pages))
                      && NoDuplicates(Flatten(reply.value.pages))
                      && forall u :: u in Flatten(reply.value.pages) <==> u in db.urls)
    {
      var h := Route(StateOf(m.sender), m);
      if h.None? {
        return None;
      }
      var r: Reply;
      match h.value {
        case CmdStart => r := Start(m.sender);
        case CmdHelp => r := Help(m.sender);
        case CmdAddPost => r := AddPost(m.sender);
        case CmdCancel => r := Cancel(m.sender);
        case ProcessAddPostUrl => r := ProcessAddUrl(m.sender, m.text);
        case CmdDeletePost => r := DeletePost(m.sender);
        case ProcessDeletePostUrl => r := ProcessDeleteUrl(m.sender, m.text);
        case CmdListPosts => r := ListPosts(m.sender);
      }
      return Some(r);
    }
  }

  /** The admin adds a URL by hand: `/add_post`, then the URL as plain text. The stripped
      URL ends up in the ledger and the admin is idle again. */
  method AddByHand(bot: AdminBot, text: string) returns (first: Option<Reply>, second: Option<Reply>)
    requires bot.Valid()
    requires Strip(text) != "/cancel" && IsTikTokUrl(Strip(text))
    modifies bot, bot.db
    ensures bot.Valid()
    ensures first == Some(AskAddUrl) && second == Some(Added(Strip(text)))
    ensures bot.db.urls == old(bot.db.urls) + {Strip(text)}
    ensures bot.StateOf(bot.adminId) == Idle
  {
    first := bot.Handle(Message(bot.adminId, Some("add_post"), Some("/add_post")));
    assert bot.StateOf(bot.adminId) == WaitingAddUrl;
    second := bot.Handle(Message(bot.adminId, None, Some(text)));
  }
}
