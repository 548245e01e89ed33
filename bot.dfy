/**
 * The bot as a whole: the user registry, the user_data store, the working
 * directory and the two conversations' state, and one update dispatched to
 * the handler Conversation.Route picks.
 */
module Bot {
  import opened Chat
  import opened Wrappers
  import opened Registry
  import opened Settings
  import opened Processing
  import opened Conversation

  /** An update from a user in a chat. */
  datatype Update = Update(chatId: int, user: TelegramUser, content: Content)

  /** The key ConversationHandler keeps state under (per_chat and per_user). */
  datatype ConvKey = ConvKey(chatId: int, userId: int)

  /** The registry after the handler `h` ran for `user`. */
  function UsersAfter(users: Users, user: TelegramUser, h: Handler): (r: Users)
    ensures h.PhotoHandler? ==> user.id in r && r[user.id].requests == (if user.id in users then users[user.id].requests else 0) + 1
    ensures h.AdminCommand? || h.QualityPick? || h.FormatPick? || h.QualityCancel? || h.FormatCancel? || h.Unhandled? ==> r == users
    ensures forall id :: id in users && id != user.id ==> id in r && r[id] == users[id]
  {
    match h
    case InfoCommand => Track(users, Some(user))
    case QualityEntry => Track(users, Some(user))
    case FormatEntry => Track(users, Some(user))
    case PhotoHandler => Bump(Track(users, Some(user)), user.id)
    case _ => users
  }

  /** The registration order after the handler `h` ran for `user`: only a first sighting appends. */
  function OrderAfter(users: Users, order: seq<int>, user: TelegramUser, h: Handler): (r: seq<int>)
    ensures |order| <= |r| <= |order| + 1 && r[..|order|] == order
    ensures |r| == |order| + 1 ==> user.id !in users && r[|order|] == user.id
    ensures h.AdminCommand? || h.QualityPick? || h.FormatPick? || h.QualityCancel? || h.FormatCancel? || h.Unhandled? ==> r == order
  {
    if h.InfoCommand? || h.QualityEntry? || h.FormatEntry? || h.PhotoHandler?
    then TrackOrder(users, order, Some(user))
    else order
  }

  /**
   * What /admin reports across one update: the registry stays ordered, a new
   * user adds one to the user count when a tracking handler ran, and the
   * request total grows by exactly one for a photo and by nothing otherwise.
   */
  lemma UpdateKeepsTotals(users: Users, order: seq<int>, user: TelegramUser, h: Handler)
    requires Ordered(users, order)
    ensures Ordered(UsersAfter(users, user, h), OrderAfter(users, order, user, h))
    ensures |UsersAfter(users, user, h)|
         == |users| + (if user.id !in users && (h.InfoCommand? || h.QualityEntry? || h.FormatEntry? || h.PhotoHandler?) then 1 else 0)
    ensures TotalRequests(UsersAfter(users, user, h), OrderAfter(users, order, user, h))
         == TotalRequests(users, order) + (if h.PhotoHandler? then 1 else 0)
  {
    var t := Track(users, Some(user));
    var o := TrackOrder(users, order, Some(user));
    if h.PhotoHandler? {
      assert UsersAfter(users, user, h) == Bump(t, user.id) && OrderAfter(users, order, user, h) == o;
      TrackKeepsTotal(users, order, Some(user));
      BumpAddsOne(t, o, user.id);
    } else if h.InfoCommand? || h.QualityEntry? || h.FormatEntry? {
      assert UsersAfter(users, user, h) == t && OrderAfter(users, order, user, h) == o;
      TrackKeepsTotal(users, order, Some(user));
    } else {
      assert UsersAfter(users, user, h) == users && OrderAfter(users, order, user, h) == order;
    }
  }

  /** ConversationHandler._update_state: END removes the key, a state keeps it waiting. */
  function Settle(waiting: set<ConvKey>, key: ConvKey, next: State): (r: set<ConvKey>)
    ensures key in r <==> next != End
    ensures forall k :: k != key ==> (k in r <==> k in waiting)
  {
    if next == End then waiting - {key} else waiting + {key}
  }

  class Bot {
    const registry: UserRegistry
    const store: UserDataStore
    const workDir: WorkDir
    const adminId: int
    var qualityConversations: set<ConvKey>
    var formatConversations: set<ConvKey>

    ghost predicate Valid()
      reads this, registry, store
    {
      registry.Valid() && store.Valid()
    }

    function SessionOf(key: ConvKey): (s: Session)
      reads this
    {
      Session(key in qualityConversations, key in formatConversations)
    }

    /** main: empty registry, no preferences, no open conversation. */
    constructor (adminId: int)
      ensures Valid() && fresh(registry) && fresh(store) && fresh(workDir)
      ensures registry.users == map[] && store.userData == map[] && workDir.files == {}
      ensures qualityConversations == {} && formatConversations == {}
      ensures this.adminId == adminId
    {
      registry := new UserRegistry();
      store := new UserDataStore();
      workDir := new WorkDir();
      this.adminId := adminId;
      qualityConversations, formatConversations := {}, {};
    }

    method HandleUpdate(u: Update) returns (sent: seq<Notice>)
      requires Valid()
      modifies this, registry, store, workDir
      ensures Valid()
      ensures (SessionOf(ConvKey(u.chatId, u.user.id)), store.Get(u.user.id))
           == Transition(old(SessionOf(ConvKey(u.chatId, u.user.id))), old(store.Get(u.user.id)), u.content, true)
      ensures forall k :: k != ConvKey(u.chatId, u.user.id) ==> SessionOf(k) == old(SessionOf(k))
      ensures forall id :: id != u.user.id ==> store.Get(id) == old(store.Get(id))
      ensures registry.users
           == UsersAfter(old(registry.users), u.user, old(Route(SessionOf(ConvKey(u.chatId, u.user.id)), u.content)))
      ensures registry.order
           == OrderAfter(old(registry.users), old(registry.order), u.user, old(Route(SessionOf(ConvKey(u.chatId, u.user.id)), u.content)))
      ensures old(Route(SessionOf(ConvKey(u.chatId, u.user.id)), u.content)) == QualityEntry ==> sent == [QualityPicker]
      ensures old(Route(SessionOf(ConvKey(u.chatId, u.user.id)), u.content)) == FormatEntry ==> sent == [FormatPicker]
      ensures old(Route(SessionOf(ConvKey(u.chatId, u.user.id)), u.content)) == QualityPick ==>
                sent == [QualitySet(QualityLabel(u.content.data))]
      ensures old(Route(SessionOf(ConvKey(u.chatId, u.user.id)), u.content)) == FormatPick ==>
                sent == [FormatSet(AsciiUpper(u.content.data))]
      ensures u.content == Command("cancel") && old(SessionOf(ConvKey(u.chatId, u.user.id))) != Idle ==>
                sent == [Reply(CancelText)]
      ensures old(Route(SessionOf(ConvKey(u.chatId, u.user.id)), u.content)) == Unhandled ==> sent == []
      ensures u.content == Command("admin") ==>
                sent == [if u.user.id == adminId
                         then AdminPanel(|registry.users|, TotalRequests(registry.users, registry.order))
                         else Reply(DeniedText)]
      ensures u.content.Photo? ==>
                sent == [ProcessingNotice, OutcomeNotice(Decide(u.content.world, old(store.Get(u.user.id)))), DeleteProcessingNotice]
      ensures u.content.Photo? && !WritesOutput(u.content.world) ==>
                workDir.files == old(workDir.files) - {StagedPath(u.chatId)}
      ensures u.content.Photo? && WritesOutput(u.content.world) && u.content.world.sendOk ==>
                workDir.files == old(workDir.files) - {StagedPath(u.chatId), OutputFilename(OutputFormat(old(store.Get(u.user.id))))}
      ensures u.content.Photo? && WritesOutput(u.content.world) && !u.content.world.sendOk ==>
                workDir.files == old(workDir.files) - {StagedPath(u.chatId)} + {OutputFilename(OutputFormat(old(store.Get(u.user.id))))}
      ensures !u.content.Photo? ==> workDir.files == old(workDir.files)
    {
      var key := ConvKey(u.chatId, u.user.id);
      var h := Route(SessionOf(key), u.content);
      if h.QualityEntry? || h.QualityPick? || h.QualityCancel? {
        sent := QualityStep(u, h);
      } else if h.FormatEntry? || h.FormatPick? || h.FormatCancel? {
        sent := FormatStep(u, h);
      } else if h.PhotoHandler? {
        var out, request;
        out, request, sent := AutoRemoveBackground(registry, store, workDir, u.chatId, u.user, u.content.world);
      } else if h.AdminCommand? {
        var reply := registry.AdminReport(u.user.id, adminId);
        sent := [reply];
      } else if h.InfoCommand? {
        registry.TrackUser(Some(u.user));
        sent := [];
      } else {
        sent := [];
      }
    }

    /** An update the quality conversation takes. */
    method QualityStep(u: Update, h: Handler) returns (sent: seq<Notice>)
      requires Valid()
      requires h == Route(SessionOf(ConvKey(u.chatId, u.user.id)), u.content)
      requires h.QualityEntry? || h.QualityPick? || h.QualityCancel?
      modifies this`qualityConversations, registry, store
      ensures Valid()
      ensures h.QualityEntry? ==> sent == [QualityPicker]
      ensures h.QualityPick? ==> sent == [QualitySet(QualityLabel(u.content.data))]
      ensures h.QualityCancel? ==> sent == [Reply(CancelText)]
      ensures (SessionOf(ConvKey(u.chatId, u.user.id)), store.Get(u.user.id))
           == Transition(old(SessionOf(ConvKey(u.chatId, u.user.id))), old(store.Get(u.user.id)), u.content, true)
      ensures forall k :: k != ConvKey(u.chatId, u.user.id) ==> SessionOf(k) == old(SessionOf(k))
      ensures forall id :: id != u.user.id ==> store.Get(id) == old(store.Get(id))
      ensures registry.users == UsersAfter(old(registry.users), u.user, h)
      ensures registry.order == OrderAfter(old(registry.users), old(registry.order), u.user, h)
    {
      var key := ConvKey(u.chatId, u.user.id);
      var next: State, reply: Notice;
      if h.QualityEntry? {
        next, reply := QualityCommand(registry, u.user);
      } else if h.QualityPick? {
        next, reply := QualityChoice(store, u.user.id, u.content.data);
      } else {
        next, reply := Cancel();
      }
      qualityConversations := Settle(qualityConversations, key, next);
      sent := [reply];
    }

    /** An update the format conversation takes. */
    method FormatStep(u: Update, h: Handler) returns (sent: seq<Notice>)
      requires Valid()
      requires h == Route(SessionOf(ConvKey(u.chatId, u.user.id)), u.content)
      requires h.FormatEntry? || h.FormatPick? || h.FormatCancel?
      modifies this`formatConversations, registry, store
      ensures Valid()
      ensures h.FormatEntry? ==> sent == [FormatPicker]
      ensures h.FormatPick? ==> sent == [FormatSet(AsciiUpper(u.content.data))]
      ensures h.FormatCancel? ==> sent == [Reply(CancelText)]
      ensures (SessionOf(ConvKey(u.chatId, u.user.id)), store.Get(u.user.id))
           == Transition(old(SessionOf(ConvKey(u.chatId, u.user.id))), old(store.Get(u.user.id)), u.content, true)
      ensures forall k :: k != ConvKey(u.chatId, u.user.id) ==> SessionOf(k) == old(SessionOf(k))
      ensures forall id :: id != u.user.id ==> store.Get(id) == old(store.Get(id))
      ensures registry.users == UsersAfter(old(registry.users), u.user, h)
      ensures registry.order == OrderAfter(old(registry.users), old(registry.order), u.user, h)
    {
      var key := ConvKey(u.chatId, u.user.id);
      var next: State, reply: Notice;
      if h.FormatEntry? {
        next, reply := FormatCommand(registry, u.user);
      } else if h.FormatPick? {
        next, reply := FormatChoice(store, u.user.id, u.content.data);
      } else {
        next, reply := Cancel();
      }
      formatConversations := Settle(formatConversations, key, next);
      sent := [reply];
    }
  }
}
