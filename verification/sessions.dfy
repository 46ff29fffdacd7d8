/** The per-user admin session machine: `on_message` and `on_raw_reaction_add` as pure
    transitions over the three process-wide collections, each handler one atomic step. */
module Sessions {

  import opened Wrappers
  import opened Ids
  import opened Text

  const AdminCommand: string := "/admin"
  const StatusEmoji: string := "\U{1F30D}"
  const LogoutEmoji: string := "\U{274C}"

  /** `awaiting_otp` (user to the prompt message awaiting their code), `admin_sessions`
      and `admin_menus` (user to the id of their menu message). */
  datatype Store = Store(awaiting: map<UserId, MessageId>, sessions: set<UserId>, menus: map<UserId, MessageId>)

  const Empty: Store := Store(map[], {}, map[])

  /** What every handler keeps: nobody both awaits a code and holds a session, and only
      session holders own a menu. */
  ghost predicate Inv(s: Store) {
    && s.awaiting.Keys !! s.sessions
    && s.menus.Keys <= s.sessions
  }

  /** Inv, and every session holder owns a menu: what holds as long as menu sends succeed. */
  ghost predicate FullInv(s: Store) {
    Inv(s) && s.menus.Keys == s.sessions
  }

  /** A direct message as the handler sees it. */
  datatype DirectMessage = DirectMessage(id: MessageId, author: UserId, fromBot: bool, inDM: bool, content: string)

  /** A raw reaction event. */
  datatype Reaction = Reaction(user: UserId, message: MessageId, emoji: string)

  /** Which of the bot's fixed texts a send carries. */
  datatype Notice = Prompt | Menu | WrongCode | Status(online: bool) | LoggedOut

  /** The platform calls a handler makes, in order. */
  datatype Effect =
    | Send(to: UserId, notice: Notice)
    | Delete(message: MessageId)
    | AddReaction(message: MessageId, emoji: string)

  datatype Outcome = Outcome(store: Store, effects: seq<Effect>)

  /** A user's session phase: idle, awaiting a code behind a prompt, or holding a session. */
  datatype Phase = Idle | AwaitingCode(prompt: MessageId) | Authenticated(menu: Option<MessageId>)

  /** The phase of `u` read off the store; under Inv it keeps everything the store says about `u`. */
  function View(s: Store, u: UserId): Phase {
    if u in s.sessions then Authenticated(if u in s.menus then Some(s.menus[u]) else None)
    else if u in s.awaiting then AwaitingCode(s.awaiting[u])
    else Idle
  }

  /** True if `s` and `t` agree on everything they record about `u`. */
  ghost predicate SameFor(s: Store, t: Store, u: UserId) {
    && (u in s.awaiting <==> u in t.awaiting)
    && (u in s.awaiting ==> s.awaiting[u] == t.awaiting[u])
    && (u in s.sessions <==> u in t.sessions)
    && (u in s.menus <==> u in t.menus)
    && (u in s.menus ==> s.menus[u] == t.menus[u])
  }

  /** The message ids the store refers to: pending prompts and menus. */
  function StoreIds(s: Store): set<MessageId> {
    s.awaiting.Values + s.menus.Values
  }

  /** The id a handler's send produced, if any. */
  function SentIds(sent: Option<MessageId>): set<MessageId> {
    if sent.Some? then {sent.value} else {}
  }

  /** No two users share a menu message. */
  ghost predicate DistinctMenus(s: Store) {
    forall a, b :: a in s.menus && b in s.menus && a != b ==> s.menus[a] != s.menus[b]
  }

  /** The one step that leaves a session without a menu: a correct code from a user awaiting
      one, whose menu send (or a reaction on it) raised after the session was opened. */
  predicate StrandsAuthor(s: Store, uid: UserId, text: string, sent: Option<MessageId>, codeOk: bool) {
    uid !in s.sessions && text != AdminCommand && uid in s.awaiting && codeOk && sent.None?
  }

  /** The router's filter for messages: bot authors and non-DM channels are dropped. */
  predicate Routed(m: DirectMessage) {
    !m.fromBot && m.inDM
  }

  /** `on_message` once its filter has passed, on the stripped text of message `id` from `uid`.
      `sent` is the id of the message the handler sends (the prompt, or the menu once both
      reactions are on it), None when that send raised; `codeOk` is the TOTP verdict on `text`.
      Only the author's entries can change, Inv is kept, and FullInv is lost exactly when the
      author is stranded. The store gains no message id but the one this send produced. */
  function OnText(s: Store, uid: UserId, id: MessageId, text: string, sent: Option<MessageId>, codeOk: bool): (r: Outcome)
    ensures forall u :: u != uid ==> SameFor(s, r.store, u)
    ensures Inv(s) ==> Inv(r.store)
    ensures FullInv(s) ==> (FullInv(r.store) <==> !StrandsAuthor(s, uid, text, sent, codeOk))
    ensures r.store.menus.Values <= s.menus.Values + SentIds(sent)
    ensures StoreIds(r.store) <= StoreIds(s) + SentIds(sent)
    ensures DistinctMenus(s) && SentIds(sent) !! s.menus.Values ==> DistinctMenus(r.store)
  {
    if uid in s.sessions then Outcome(s, [])
    else if text == AdminCommand then
      match sent
      case None => Outcome(s, [Send(uid, Prompt)])
      case Some(prompt) => Outcome(s.(awaiting := s.awaiting[uid := prompt]), [Send(uid, Prompt)])
    else if uid in s.awaiting then
      var popped := s.(awaiting := s.awaiting - {uid});
      var cleanup := [Delete(s.awaiting[uid]), Delete(id)];
      if codeOk then
        var admitted := popped.(sessions := popped.sessions + {uid});
        match sent
        case None => Outcome(admitted, cleanup + [Send(uid, Menu)])
        case Some(menu) =>
          Outcome(admitted.(menus := admitted.menus[uid := menu]),
                  cleanup + [Send(uid, Menu), AddReaction(menu, StatusEmoji), AddReaction(menu, LogoutEmoji)])
      else Outcome(popped, cleanup + [Send(uid, WrongCode)])
    else Outcome(s, [])
  }

  /** A routed message whose handling strands its author. */
  predicate Strands(s: Store, m: DirectMessage, sent: Option<MessageId>, codeOk: bool) {
    Routed(m) && StrandsAuthor(s, m.author, Strip(m.content), sent, codeOk)
  }

  /** `on_message`: messages from bots or outside DMs are dropped, the rest is handled on
      the message's stripped content. Only the author's entries can change, Inv is kept, and
      FullInv is lost exactly when the message strands its author. */
  function OnMessage(s: Store, m: DirectMessage, sent: Option<MessageId>, codeOk: bool): (r: Outcome)
    ensures forall u :: u != m.author ==> SameFor(s, r.store, u)
    ensures Inv(s) ==> Inv(r.store)
    ensures FullInv(s) ==> (FullInv(r.store) <==> !Strands(s, m, sent, codeOk))
    ensures r.store.menus.Values <= s.menus.Values + SentIds(sent)
    ensures StoreIds(r.store) <= StoreIds(s) + SentIds(sent)
    ensures DistinctMenus(s) && SentIds(sent) !! s.menus.Values ==> DistinctMenus(r.store)
  {
    if !Routed(m) then Outcome(s, [])
    else OnText(s, m.author, m.id, Strip(m.content), sent, codeOk)
  }

  /** The gate of `on_raw_reaction_add`: not the bot itself, and a reaction on the user's own
      current menu. */
  predicate OnOwnMenu(s: Store, e: Reaction, botId: UserId) {
    e.user != botId && e.user in s.menus && e.message == s.menus[e.user]
  }

  /** `on_raw_reaction_add`. `fetched` says whether fetching the user and its DM channel
      succeeded; `online` is the fresh probe result reported for the status emoji. Only the
      reacting user's entries can change, Inv and FullInv are kept, and no
      message id is added. */
  function OnReaction(s: Store, e: Reaction, botId: UserId, fetched: bool, online: bool): (r: Outcome)
    ensures forall u :: u != e.user ==> SameFor(s, r.store, u)
    ensures Inv(s) ==> Inv(r.store)
    ensures FullInv(s) ==> FullInv(r.store)
    ensures r.store.menus.Values <= s.menus.Values && StoreIds(r.store) <= StoreIds(s)
    ensures DistinctMenus(s) ==> DistinctMenus(r.store)
  {
    if !OnOwnMenu(s, e, botId) || !fetched then Outcome(s, [])
    else if e.emoji == StatusEmoji then Outcome(s, [Send(e.user, Status(online))])
    else if e.emoji == LogoutEmoji then
      Outcome(s.(sessions := s.sessions - {e.user}, menus := s.menus - {e.user}),
              [Delete(e.message), Send(e.user, LoggedOut)])
    else Outcome(s, [])
  }
}
