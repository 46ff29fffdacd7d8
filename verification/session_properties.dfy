/** What the session handlers promise, one call or a few calls at a time. */
module SessionProperties {

  import opened Wrappers
  import opened Ids
  import opened Text
  import opened Sessions

  // ---------------------------------------------------------------- messages

  /** Messages from bots or outside DMs change nothing and cause no platform call; every
      other message is handled on its stripped content. */
  lemma MessageRouting(s: Store, m: DirectMessage, sent: Option<MessageId>, codeOk: bool)
    ensures !Routed(m) ==> OnMessage(s, m, sent, codeOk) == Outcome(s, [])
    ensures Routed(m) ==> OnMessage(s, m, sent, codeOk) == OnText(s, m.author, m.id, Strip(m.content), sent, codeOk)
  {
  }

  /** Surrounding whitespace does not matter: "/admin" padded with any whitespace is the command. */
  lemma PaddedCommand(pre: string, post: string)
    requires AllSpace(pre) && AllSpace(post)
    ensures Strip(pre + AdminCommand + post) == AdminCommand
  {
    StripPadded(pre, AdminCommand, post);
  }

  /** Any text from a session holder, and text other than "/admin" from a user not awaiting a
      code, changes nothing and causes no platform call. */
  lemma IgnoredText(s: Store, uid: UserId, id: MessageId, text: string, sent: Option<MessageId>, codeOk: bool)
    requires uid in s.sessions || (text != AdminCommand && uid !in s.awaiting)
    ensures OnText(s, uid, id, text, sent, codeOk) == Outcome(s, [])
  {
  }

  /** Conversely, text changes the store or reaches the platform only when it is "/admin" or a
      code from a user awaiting one, and never when the user holds a session. */
  lemma TextActsOnlyAsCommandOrCode(s: Store, uid: UserId, id: MessageId, text: string, sent: Option<MessageId>, codeOk: bool)
    ensures var r := OnText(s, uid, id, text, sent, codeOk);
            r.store != s || r.effects != [] ==>
              uid !in s.sessions && (text == AdminCommand || uid in s.awaiting)
  {
  }

  /** "/admin" from a user without a session records the new prompt for that user, replacing
      any earlier one, and leaves sessions, menus and other users' prompts alone. */
  lemma AdminCommandPrompts(s: Store, uid: UserId, id: MessageId, prompt: MessageId, codeOk: bool)
    requires uid !in s.sessions
    ensures var r := OnText(s, uid, id, AdminCommand, Some(prompt), codeOk);
            && r.store.awaiting == s.awaiting[uid := prompt]
            && r.store.sessions == s.sessions
            && r.store.menus == s.menus
            && View(r.store, uid) == AwaitingCode(prompt)
            && r.effects == [Send(uid, Prompt)]
  {
  }

  /** The command test runs before the code test: "/admin" while awaiting a code re-prompts,
      is never judged as a code whatever the verifier would say, and deletes nothing (the
      earlier prompt message stays behind). */
  lemma AdminWhileAwaitingReprompts(s: Store, uid: UserId, id: MessageId, sent: Option<MessageId>, codeOk: bool)
    requires uid !in s.sessions && uid in s.awaiting
    ensures var r := OnText(s, uid, id, AdminCommand, sent, codeOk);
            && uid in r.store.awaiting
            && r.store.sessions == s.sessions
            && r.store.menus == s.menus
            && forall k :: 0 <= k < |r.effects| ==> !r.effects[k].Delete?
  {
  }

  /** A code submission always consumes the pending prompt. A good code opens a session and,
      when the menu went out, records it; a bad code leaves sessions and menus as they were,
      so the user ends Idle. Both outcomes delete the prompt and the user's message first. */
  lemma CodeSubmission(s: Store, uid: UserId, id: MessageId, text: string, sent: Option<MessageId>, codeOk: bool)
    requires uid !in s.sessions && uid in s.awaiting && text != AdminCommand
    ensures var r := OnText(s, uid, id, text, sent, codeOk);
            && r.store.awaiting == s.awaiting - {uid}
            && r.effects[..2] == [Delete(s.awaiting[uid]), Delete(id)]
            && (codeOk ==> r.store.sessions == s.sessions + {uid})
            && (codeOk && sent.Some? ==> r.store.menus == s.menus[uid := sent.value])
            && (codeOk && sent.None? ==> r.store.menus == s.menus)
            && (!codeOk ==> r.store.sessions == s.sessions && r.store.menus == s.menus)
            && (!codeOk ==> View(r.store, uid) == Idle)
  {
  }

  /** Sessions are only ever opened by a correct code from a user who was awaiting one. */
  lemma AdmittedOnlyByCode(s: Store, m: DirectMessage, sent: Option<MessageId>, codeOk: bool, u: UserId)
    requires u !in s.sessions
    requires u in OnMessage(s, m, sent, codeOk).store.sessions
    ensures u == m.author && Routed(m) && u in s.awaiting && Strip(m.content) != AdminCommand && codeOk
  {
  }

  // --------------------------------------------------------------- reactions

  /** A reaction by the bot itself, by a user without a menu, or on anything but the user's
      current menu changes nothing and causes no platform call. */
  lemma ReactionGated(s: Store, e: Reaction, botId: UserId, fetched: bool, online: bool)
    requires !OnOwnMenu(s, e, botId)
    ensures OnReaction(s, e, botId, fetched, online) == Outcome(s, [])
  {
  }

  /** Conversely, a reaction does anything only through the gate and a successful fetch, and it
      changes the store only by logging out. */
  lemma ReactionActsOnlyThroughGate(s: Store, e: Reaction, botId: UserId, fetched: bool, online: bool)
    ensures var r := OnReaction(s, e, botId, fetched, online);
            && (r.effects != [] ==> OnOwnMenu(s, e, botId) && fetched)
            && (r.store != s ==> OnOwnMenu(s, e, botId) && fetched && e.emoji == LogoutEmoji)
            && r.store.sessions <= s.sessions
            && r.store.awaiting == s.awaiting
  {
  }

  /** The status emoji reports the fresh probe result to the user and changes no state. */
  lemma StatusReaction(s: Store, e: Reaction, botId: UserId, online: bool)
    requires OnOwnMenu(s, e, botId) && e.emoji == StatusEmoji
    ensures OnReaction(s, e, botId, true, online) == Outcome(s, [Send(e.user, Status(online))])
  {
  }

  /** The logout emoji deletes the menu and drops exactly that user's session and menu; under
      Inv the user is then Idle. */
  lemma LogoutReaction(s: Store, e: Reaction, botId: UserId, online: bool)
    requires OnOwnMenu(s, e, botId) && e.emoji == LogoutEmoji
    ensures var r := OnReaction(s, e, botId, true, online);
            && r.store == Store(s.awaiting, s.sessions - {e.user}, s.menus - {e.user})
            && r.effects == [Delete(e.message), Send(e.user, LoggedOut)]
            && (Inv(s) ==> View(r.store, e.user) == Idle)
  {
  }

  /** A failed user fetch, or any emoji but the two on the menu, changes nothing. */
  lemma OtherReaction(s: Store, e: Reaction, botId: UserId, fetched: bool, online: bool)
    requires !fetched || (e.emoji != StatusEmoji && e.emoji != LogoutEmoji)
    ensures OnReaction(s, e, botId, fetched, online) == Outcome(s, [])
  {
  }

  /** Right after a logout, a reaction on the old menu, with any emoji, is a no-op (for every
      later step of a run, see Bot.StaleMenuStaysDead). */
  lemma StaleMenuAfterLogout(s: Store, e: Reaction, botId: UserId, online: bool,
                             again: string, fetched': bool, online': bool)
    requires OnOwnMenu(s, e, botId) && e.emoji == LogoutEmoji
    ensures var s' := OnReaction(s, e, botId, true, online).store;
            OnReaction(s', e.(emoji := again), botId, fetched', online') == Outcome(s', [])
  {
  }

  /** A reaction by one user on another user's menu affects neither of them. */
  lemma CrossUserReactionIsNoop(s: Store, owner: UserId, e: Reaction, botId: UserId, fetched: bool, online: bool)
    requires DistinctMenus(s)
    requires owner in s.menus && e.message == s.menus[owner] && e.user != owner
    ensures OnReaction(s, e, botId, fetched, online) == Outcome(s, [])
  {
  }

  /** A session holder without a menu (its menu send failed after the session was opened) can
      neither log out nor start over: its session survives every message and every reaction. */
  lemma StrandedSession(s: Store, u: UserId, m: DirectMessage, sent: Option<MessageId>, codeOk: bool,
                        e: Reaction, botId: UserId, fetched: bool, online: bool)
    requires u in s.sessions && u !in s.menus
    ensures SameFor(s, OnMessage(s, m, sent, codeOk).store, u)
    ensures SameFor(s, OnReaction(s, e, botId, fetched, online).store, u)
  {
  }

  /** A full admin cycle from startup: "/admin", a correct code, a status query and a logout
      leave the store as empty as it was at startup. */
  lemma LoginStatusLogoutCycle(u: UserId, botId: UserId, first: MessageId, second: MessageId, code: string,
                               prompt: MessageId, menu: MessageId, online: bool)
    requires u != botId && code != AdminCommand
    ensures var s1 := OnText(Empty, u, first, AdminCommand, Some(prompt), false).store;
            var s2 := OnText(s1, u, second, code, Some(menu), true).store;
            var s3 := OnReaction(s2, Reaction(u, menu, StatusEmoji), botId, true, online).store;
            OnReaction(s3, Reaction(u, menu, LogoutEmoji), botId, true, online).store == Empty
  {
    var s1 := OnText(Empty, u, first, AdminCommand, Some(prompt), false).store;
    assert s1 == Store(map[u := prompt], {}, map[]);
    var s2 := OnText(s1, u, second, code, Some(menu), true).store;
    assert s2.awaiting == map[] by { assert s1.awaiting - {u} == map[]; }
    assert s2 == Store(map[], {u}, map[u := menu]);
    assert StatusEmoji != LogoutEmoji;
    var s3 := OnReaction(s2, Reaction(u, menu, StatusEmoji), botId, true, online).store;
    assert s3 == s2;
    assert s2.menus - {u} == map[];
  }

  // ------------------------------------------------- per-phase transition table

  /** A per-phase transition table for a routed message, written independently of the store. */
  function NextOnMessage(p: Phase, command: bool, sent: Option<MessageId>, codeOk: bool): Phase {
    match p
    case Authenticated(_) => p
    case Idle => if command && sent.Some? then AwaitingCode(sent.value) else Idle
    case AwaitingCode(_) =>
      if command then (if sent.Some? then AwaitingCode(sent.value) else p)
      else if codeOk then Authenticated(sent)
      else Idle
  }

  /** A per-phase transition table for a reaction, written independently of the store. */
  function NextOnReaction(p: Phase, onBot: bool, message: MessageId, emoji: string, fetched: bool): Phase {
    match p
    case Authenticated(Some(menu)) =>
      if !onBot && message == menu && fetched && emoji == LogoutEmoji then Idle else p
    case _ => p
  }

  /** Under Inv, the author's phase moves as the table says and nobody else's moves. */
  lemma TextFollowsTable(s: Store, uid: UserId, id: MessageId, text: string, sent: Option<MessageId>, codeOk: bool)
    requires Inv(s)
    ensures var s' := OnText(s, uid, id, text, sent, codeOk).store;
            && View(s', uid) == NextOnMessage(View(s, uid), text == AdminCommand, sent, codeOk)
            && forall u :: u != uid ==> View(s', u) == View(s, u)
  {
    var s' := OnText(s, uid, id, text, sent, codeOk).store;
    forall u | u != uid
      ensures View(s', u) == View(s, u)
    {
      assert SameFor(s, s', u);
    }
  }

  /** Under Inv, the reacting user's phase moves as the table says and nobody else's moves. */
  lemma ReactionFollowsTable(s: Store, e: Reaction, botId: UserId, fetched: bool, online: bool)
    requires Inv(s)
    ensures var s' := OnReaction(s, e, botId, fetched, online).store;
            && View(s', e.user) == NextOnReaction(View(s, e.user), e.user == botId, e.message, e.emoji, fetched)
            && forall u :: u != e.user ==> View(s', u) == View(s, u)
  {
    var s' := OnReaction(s, e, botId, fetched, online).store;
    forall u | u != e.user
      ensures View(s', u) == View(s, u)
    {
      assert SameFor(s, s', u);
    }
  }
}
