/**
 * The two settings conversations. Each ConversationHandler keeps, per
 * (chat, user) key, whether it waits for a choice (CHOOSING_QUALITY,
 * CHOOSING_FORMAT); its entry command opens it, the callback query or
 * /cancel closes it. Neither allows re-entry, a handler that raises leaves
 * the state as it was, and within the dispatcher's group the handlers are
 * tried in the order they were added: the command handlers, the quality
 * conversation, the format conversation, then the photo handler.
 */
module Conversation {
  import opened Chat
  import opened Wrappers
  import opened Registry
  import opened Settings
  import opened Processing

  /** What a settings callback returns: CHOOSING_QUALITY, CHOOSING_FORMAT or ConversationHandler.END. */
  datatype State = ChoosingQuality | ChoosingFormat | End

  /** quality_command: register the user, show the Standard/HD picker, wait for the choice. */
  method QualityCommand(registry: UserRegistry, user: TelegramUser) returns (next: State, reply: Notice)
    requires registry.Valid()
    modifies registry
    ensures registry.Valid()
    ensures registry.users == Track(old(registry.users), Some(user))
    ensures registry.order == TrackOrder(old(registry.users), old(registry.order), Some(user))
    ensures next == ChoosingQuality && reply == QualityPicker
  {
    registry.TrackUser(Some(user));
    next, reply := ChoosingQuality, QualityPicker;
  }

  /** quality_choice: store '4k' for 'hd' and 'auto' for anything else, echo the label, end. */
  method QualityChoice(store: UserDataStore, userId: int, token: string) returns (next: State, reply: Notice)
    requires store.Valid()
    modifies store
    ensures store.Valid()
    ensures store.userData == old(store.userData)[userId := ChooseQuality(old(store.Get(userId)), token)]
    ensures next == End && reply == QualitySet(QualityLabel(token))
  {
    store.SetQuality(userId, token);
    next, reply := End, QualitySet(QualityLabel(token));
  }

  /** format_command: register the user, show the PNG/JPG picker, wait for the choice. */
  method FormatCommand(registry: UserRegistry, user: TelegramUser) returns (next: State, reply: Notice)
    requires registry.Valid()
    modifies registry
    ensures registry.Valid()
    ensures registry.users == Track(old(registry.users), Some(user))
    ensures registry.order == TrackOrder(old(registry.users), old(registry.order), Some(user))
    ensures next == ChoosingFormat && reply == FormatPicker
  {
    registry.TrackUser(Some(user));
    next, reply := ChoosingFormat, FormatPicker;
  }

  /** format_choice: store the token as it is, echo it upper-cased, end. */
  method FormatChoice(store: UserDataStore, userId: int, token: string) returns (next: State, reply: Notice)
    requires store.Valid()
    modifies store
    ensures store.Valid()
    ensures store.userData == old(store.userData)[userId := ChooseFormat(old(store.Get(userId)), token)]
    ensures next == End && reply == FormatSet(AsciiUpper(token))
  {
    store.SetFormat(userId, token);
    next, reply := End, FormatSet(AsciiUpper(token));
  }

  /** cancel: acknowledge and end, committing nothing. */
  method Cancel() returns (next: State, reply: Notice)
    ensures next == End && reply == Reply(CancelText)
  {
    next, reply := End, Reply(CancelText);
  }

  /** Whether the quality and the format ConversationHandler wait for a choice from one (chat, user) key. */
  datatype Session = Session(choosingQuality: bool, choosingFormat: bool)

  const Idle := Session(false, false)

  /** What an update carries, as far as the handlers tell updates apart. */
  datatype Content = Command(name: string) | Callback(data: string) | Photo(world: PhotoWorld) | OtherMessage

  /** The handler the dispatcher gives an update to. */
  datatype Handler =
    | InfoCommand        // /start, /help, /contact
    | AdminCommand
    | QualityEntry | QualityPick | QualityCancel
    | FormatEntry | FormatPick | FormatCancel
    | PhotoHandler
    | Unhandled

  /** The first handler, in the order they were added, that accepts the update in session `s`. */
  function Route(s: Session, c: Content): (h: Handler)
    ensures h == PhotoHandler <==> c.Photo?
    ensures h == AdminCommand <==> c == Command("admin")
    ensures h == InfoCommand <==> c == Command("start") || c == Command("help") || c == Command("contact")
    // the quality conversation was added first and sees every update before the format one
    ensures h == QualityEntry <==> c == Command("quality") && !s.choosingQuality
    ensures h == QualityPick <==> c.Callback? && s.choosingQuality
    ensures h == QualityCancel <==> c == Command("cancel") && s.choosingQuality
    ensures h == FormatEntry <==> c == Command("format") && !s.choosingFormat
    ensures h == FormatPick <==> c.Callback? && !s.choosingQuality && s.choosingFormat
    ensures h == FormatCancel <==> c == Command("cancel") && !s.choosingQuality && s.choosingFormat
  {
    match c
    case Command(name) =>
      if name == "start" || name == "help" || name == "contact" then InfoCommand
      else if name == "admin" then AdminCommand
      else if !s.choosingQuality && name == "quality" then QualityEntry
      else if s.choosingQuality && name == "cancel" then QualityCancel
      else if !s.choosingFormat && name == "format" then FormatEntry
      else if s.choosingFormat && name == "cancel" then FormatCancel
      else Unhandled
    case Callback(_) =>
      if s.choosingQuality then QualityPick
      else if s.choosingFormat then FormatPick
      else Unhandled
    case Photo(_) => PhotoHandler
    case OtherMessage => Unhandled
  }

  /**
   * One update's effect on the session of its key and on its user's preferences.
   * `keyboardImported` says whether the picker commands return their CHOOSING
   * state; in the source as written they raise NameError first (see below).
   */
  function Transition(s: Session, p: Prefs, c: Content, keyboardImported: bool): (r: (Session, Prefs))
    // only a choice writes user_data, and it writes what the picker's callback names
    ensures c.Callback? && s.choosingQuality ==> r.1 == ChooseQuality(p, c.data)
    ensures c.Callback? && !s.choosingQuality && s.choosingFormat ==> r.1 == ChooseFormat(p, c.data)
    ensures !c.Callback? || (!s.choosingQuality && !s.choosingFormat) ==> r.1 == p
    // a conversation opens only through its command and only when the picker works
    ensures !s.choosingQuality && r.0.choosingQuality ==> c == Command("quality") && keyboardImported
    ensures !s.choosingFormat && r.0.choosingFormat ==> c == Command("format") && keyboardImported
    // an open conversation ends only through a choice or /cancel, and the quality one takes those first
    ensures s.choosingQuality && !r.0.choosingQuality ==> c.Callback? || c == Command("cancel")
    ensures s.choosingFormat && !r.0.choosingFormat ==> !s.choosingQuality && (c.Callback? || c == Command("cancel"))
    // a choice or /cancel ends the conversation that took it; the other one is untouched
    ensures s.choosingQuality && (c.Callback? || c == Command("cancel")) ==>
              !r.0.choosingQuality && r.0.choosingFormat == s.choosingFormat
    ensures !s.choosingQuality && s.choosingFormat && (c.Callback? || c == Command("cancel")) ==>
              !r.0.choosingFormat && r.0.choosingQuality == s.choosingQuality
  {
    match Route(s, c)
    case QualityEntry => (if keyboardImported then s.(choosingQuality := true) else s, p)
    case FormatEntry => (if keyboardImported then s.(choosingFormat := true) else s, p)
    case QualityPick => (s.(choosingQuality := false), ChooseQuality(p, c.data))
    case FormatPick => (s.(choosingFormat := false), ChooseFormat(p, c.data))
    case QualityCancel => (s.(choosingQuality := false), p)
    case FormatCancel => (s.(choosingFormat := false), p)
    case _ => (s, p)
  }

  /** A sequence of updates from one key, applied in order. */
  function Run(s: Session, p: Prefs, cs: seq<Content>, keyboardImported: bool): (r: (Session, Prefs))
    // without a callback query nothing is written to user_data
    ensures (forall i :: 0 <= i < |cs| ==> !cs[i].Callback?) ==> r.1 == p
    // the stored format is the one before the run or a callback token of the run
    ensures r.1.format == p.format || (r.1.format.Some? && Callback(r.1.format.value) in cs)
    decreases |cs|
  {
    if |cs| == 0 then (s, p)
    else
      var (s', p') := Transition(s, p, cs[0], keyboardImported);
      Run(s', p', cs[1..], keyboardImported)
  }

  /** The settings state machine with working pickers. */
  lemma PickerTransitions(s: Session, p: Prefs, token: string)
    // the commands open their picker; re-invoking an open one is ignored
    ensures !s.choosingQuality ==> Transition(s, p, Command("quality"), true) == (s.(choosingQuality := true), p)
    ensures !s.choosingFormat ==> Transition(s, p, Command("format"), true) == (s.(choosingFormat := true), p)
    ensures s.choosingQuality ==> Transition(s, p, Command("quality"), true) == (s, p)
    ensures s.choosingFormat ==> Transition(s, p, Command("format"), true) == (s, p)
    // a choice commits and ends its conversation
    ensures s.choosingQuality ==> Transition(s, p, Callback(token), true) == (s.(choosingQuality := false), ChooseQuality(p, token))
    ensures !s.choosingQuality && s.choosingFormat ==>
              Transition(s, p, Callback(token), true) == (s.(choosingFormat := false), ChooseFormat(p, token))
    // /cancel ends the first open conversation and never commits
    ensures s.choosingQuality ==> Transition(s, p, Command("cancel"), true) == (s.(choosingQuality := false), p)
    ensures !s.choosingQuality && s.choosingFormat ==> Transition(s, p, Command("cancel"), true) == (s.(choosingFormat := false), p)
    // with no conversation open, choices and /cancel are ignored
    ensures Transition(Idle, p, Callback(token), true) == (Idle, p)
    ensures Transition(Idle, p, Command("cancel"), true) == (Idle, p)
  {
  }

  /** Only a callback query changes preferences, and only the one the open picker names. */
  lemma OnlyChoicesChangePrefs(s: Session, p: Prefs, c: Content, keyboardImported: bool)
    ensures Transition(s, p, c, keyboardImported).1 != p ==> c.Callback? && (s.choosingQuality || s.choosingFormat)
    ensures s.choosingQuality ==> Transition(s, p, c, keyboardImported).1.format == p.format
    ensures !s.choosingFormat ==> Transition(s, p, c, keyboardImported).1.format == p.format
    ensures !s.choosingQuality ==> Transition(s, p, c, keyboardImported).1.quality == p.quality
  {
  }

  /** Over any run, the stored quality stays 'auto' or '4k'. */
  lemma {:induction false} RunKeepsKnownQuality(s: Session, p: Prefs, cs: seq<Content>, keyboardImported: bool)
    requires KnownQuality(p)
    ensures KnownQuality(Run(s, p, cs, keyboardImported).1)
    decreases |cs|
  {
    if |cs| > 0 {
      var (s', p') := Transition(s, p, cs[0], keyboardImported);
      ChoicesResolve(p, if cs[0].Callback? then cs[0].data else "");
      RunKeepsKnownQuality(s', p', cs[1..], keyboardImported);
    }
  }

  /**
   * As written, quality_command and format_command build an inline keyboard with
   * classes the file never imports, so each raises NameError after track_user and
   * no conversation is ever opened: no update sequence changes the preferences.
   */
  lemma {:induction false} AsWrittenPickersNeverOpen(p: Prefs, cs: seq<Content>)
    ensures Run(Idle, p, cs, false) == (Idle, p)
    decreases |cs|
  {
    if |cs| > 0 {
      assert Transition(Idle, p, cs[0], false) == (Idle, p);
      AsWrittenPickersNeverOpen(p, cs[1..]);
    }
  }

  /** The input that shows it: /quality then the HD button. */
  lemma HdChoiceNeedsThePicker(p: Prefs)
    ensures Run(Idle, p, [Command("quality"), Callback("hd")], false) == (Idle, p)
    ensures Run(Idle, p, [Command("quality"), Callback("hd")], true) == (Idle, ChooseQuality(p, "hd"))
    ensures OutputSize(Run(Idle, p, [Command("quality"), Callback("hd")], true).1) == "4k"
  {
    AsWrittenPickersNeverOpen(p, [Command("quality"), Callback("hd")]);
    assert [Command("quality"), Callback("hd")][1..] == [Callback("hd")];
  }

  /**
   * The two conversations are not independent: with both open, a callback
   * reaches the quality conversation first, so tapping PNG stores size 'auto'
   * and leaves the format conversation waiting.
   */
  lemma QualityConversationTakesEveryCallback(p: Prefs)
    ensures Transition(Session(true, true), p, Callback("png"), true)
         == (Session(false, true), ChooseQuality(p, "png"))
    ensures OutputSize(Transition(Session(true, true), p, Callback("png"), true).1) == "auto"
  {
  }
}
