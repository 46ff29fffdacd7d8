/** The whole process: the monitor state and the session store side by side, driven by one
    cooperative event loop in which every handler and every tick is one atomic step. */
module Bot {

  import opened Wrappers
  import opened Ids
  import opened Sessions
  import SessionProperties
  import Monitor

  /** The fixed configuration the handlers read: `ALERT_USERS` and the bot's own user id. */
  datatype Config = Config(alertUsers: seq<UserId>, botId: UserId)

  /** `last_status` together with the three session collections. */
  datatype State = State(last: Option<bool>, store: Store)

  const Start: State := State(None, Empty)

  /** An event of the loop together with the I/O results its handler will observe. */
  datatype Event =
    | Tick(probe: Monitor.Probe)
    | Message(m: DirectMessage, sent: Option<MessageId>, codeOk: bool)
    | React(e: Reaction, fetched: bool, online: bool)

  /** A tick's delivery results cover exactly the configured subscribers. */
  predicate Admissible(c: Config, ev: Event) {
    ev.Tick? ==> |ev.probe.outcomes| == |c.alertUsers|
  }

  predicate AllAdmissible(c: Config, evs: seq<Event>) {
    forall k :: 0 <= k < |evs| ==> Admissible(c, evs[k])
  }

  /** The message id an event's handler obtained from a send, if any. */
  function SentId(ev: Event): set<MessageId> {
    if ev.Message? then SentIds(ev.sent) else {}
  }

  /** A message event that strands its author in a session without a menu. */
  predicate StepStrands(s: Store, ev: Event) {
    ev.Message? && Strands(s, ev.m, ev.sent, ev.codeOk)
  }

  /** One atomic step. The monitor and the session machine share no state: a tick leaves the
      store alone and a handler leaves `last_status` alone. Every step keeps Inv; FullInv is lost
      exactly on a stranding step; the store only ever gains the id the step's send produced. */
  function Step(c: Config, b: State, ev: Event): (r: State)
    requires Admissible(c, ev)
    ensures ev.Tick? ==> r.store == b.store && r.last == Some(ev.probe.online)
    ensures !ev.Tick? ==> r.last == b.last
    ensures Inv(b.store) ==> Inv(r.store)
    ensures FullInv(b.store) ==> (FullInv(r.store) <==> !StepStrands(b.store, ev))
    ensures r.store.menus.Values <= b.store.menus.Values + SentId(ev)
    ensures StoreIds(r.store) <= StoreIds(b.store) + SentId(ev)
    ensures DistinctMenus(b.store) && SentId(ev) !! b.store.menus.Values ==> DistinctMenus(r.store)
  {
    match ev
    case Tick(p) => b.(last := Monitor.CheckServer(b.last, c.alertUsers, p.online, p.outcomes).last)
    case Message(m, sent, codeOk) => b.(store := OnMessage(b.store, m, sent, codeOk).store)
    case React(e, fetched, online) => b.(store := OnReaction(b.store, e, c.botId, fetched, online).store)
  }

  function Run(c: Config, b: State, evs: seq<Event>): State
    requires AllAdmissible(c, evs)
    decreases |evs|
  {
    if evs == [] then b else Run(c, Step(c, b, evs[0]), evs[1..])
  }

  /** Every state reachable from startup satisfies Inv. */
  lemma {:induction false} ReachableInv(c: Config, evs: seq<Event>)
    requires AllAdmissible(c, evs)
    ensures Inv(Run(c, Start, evs).store)
  {
    RunKeepsInv(c, Start, evs);
  }

  lemma {:induction false} RunKeepsInv(c: Config, b: State, evs: seq<Event>)
    requires AllAdmissible(c, evs) && Inv(b.store)
    ensures Inv(Run(c, b, evs).store)
    decreases |evs|
  {
    if evs != [] {
      RunKeepsInv(c, Step(c, b, evs[0]), evs[1..]);
    }
  }

  /** No step of the run strands a user: on every message event, the author is not one who
      submits a correct code while the menu send fails. */
  predicate NoneStranded(c: Config, b: State, evs: seq<Event>)
    requires AllAdmissible(c, evs)
    decreases |evs|
  {
    evs == [] || (!StepStrands(b.store, evs[0]) && NoneStranded(c, Step(c, b, evs[0]), evs[1..]))
  }

  /** Session holders and menu owners coincide in every state reached from startup by a run
      that strands nobody. */
  lemma {:induction false} ReachableFullInv(c: Config, evs: seq<Event>)
    requires AllAdmissible(c, evs) && NoneStranded(c, Start, evs)
    ensures FullInv(Run(c, Start, evs).store)
  {
    RunKeepsFullInv(c, Start, evs);
  }

  /** From a state where session holders and menu owners coincide, they still coincide after a
      run exactly when no step of it strands a user. */
  lemma {:induction false} RunKeepsFullInv(c: Config, b: State, evs: seq<Event>)
    requires AllAdmissible(c, evs) && FullInv(b.store)
    ensures FullInv(Run(c, b, evs).store) <==> NoneStranded(c, b, evs)
    decreases |evs|
  {
    if evs != [] {
      var b' := Step(c, b, evs[0]);
      if StepStrands(b.store, evs[0]) {
        var u := evs[0].m.author;
        assert u in b'.store.sessions && u !in b'.store.menus;
        StrandedStaysStranded(c, b', evs[1..], u);
      } else {
        RunKeepsFullInv(c, b', evs[1..]);
      }
    }
  }

  /** A session holder without a menu keeps its session and lacks a menu for good. */
  lemma {:induction false} StrandedStaysStranded(c: Config, b: State, evs: seq<Event>, u: UserId)
    requires AllAdmissible(c, evs) && u in b.store.sessions && u !in b.store.menus
    ensures u in Run(c, b, evs).store.sessions && u !in Run(c, b, evs).store.menus
    decreases |evs|
  {
    if evs != [] {
      StepKeepsStranded(c, b, evs[0], u);
      StrandedStaysStranded(c, Step(c, b, evs[0]), evs[1..], u);
    }
  }

  /** A step leaves a session holder without a menu exactly as it was. */
  lemma StepKeepsStranded(c: Config, b: State, ev: Event, u: UserId)
    requires Admissible(c, ev) && u in b.store.sessions && u !in b.store.menus
    ensures u in Step(c, b, ev).store.sessions && u !in Step(c, b, ev).store.menus
  {
    match ev
    case Tick(_) =>
    case Message(m, sent, codeOk) => SessionProperties.StrandedSession(b.store, u, m, sent, codeOk, Reaction(u, 0, ""), c.botId, false, false);
    case React(e, fetched, online) => SessionProperties.StrandedSession(b.store, u, DirectMessage(0, u, true, false, ""), None, false, e, c.botId, fetched, online);
  }

  // ------------------------------------------------------------------ fresh message ids

  /** Every message id the sends of a run produced. */
  function Issued(evs: seq<Event>): set<MessageId>
    decreases |evs|
  {
    if evs == [] then {} else SentId(evs[0]) + Issued(evs[1..])
  }

  /** The platform hands out fresh ids: no send of the run reuses an id in `used` or one an
      earlier send of the run produced. */
  predicate FreshFrom(used: set<MessageId>, evs: seq<Event>)
    decreases |evs|
  {
    evs == [] || (SentId(evs[0]) !! used && FreshFrom(used + SentId(evs[0]), evs[1..]))
  }

  /** Fresh sends keep menus distinct between users, and the store refers only to ids already
      in use or produced by the run. */
  lemma {:induction false} RunKeepsFresh(c: Config, b: State, used: set<MessageId>, evs: seq<Event>)
    requires AllAdmissible(c, evs) && FreshFrom(used, evs)
    requires StoreIds(b.store) <= used && DistinctMenus(b.store)
    ensures DistinctMenus(Run(c, b, evs).store)
    ensures StoreIds(Run(c, b, evs).store) <= used + Issued(evs)
    decreases |evs|
  {
    if evs != [] {
      RunKeepsFresh(c, Step(c, b, evs[0]), used + SentId(evs[0]), evs[1..]);
    }
  }

  /** With fresh ids, no two users ever share a menu in a state reached from startup. */
  lemma ReachableDistinctMenus(c: Config, evs: seq<Event>)
    requires AllAdmissible(c, evs) && FreshFrom({}, evs)
    ensures DistinctMenus(Run(c, Start, evs).store)
    ensures StoreIds(Run(c, Start, evs).store) <= Issued(evs)
  {
    RunKeepsFresh(c, Start, {}, evs);
  }

  /** With fresh ids, in a state reached from startup a reaction on another user's menu is a no-op. */
  lemma ReachableCrossUserNoop(c: Config, evs: seq<Event>, owner: UserId, e: Reaction, fetched: bool, online: bool)
    requires AllAdmissible(c, evs) && FreshFrom({}, evs)
    requires owner in Run(c, Start, evs).store.menus && e.message == Run(c, Start, evs).store.menus[owner]
    requires e.user != owner
    ensures OnReaction(Run(c, Start, evs).store, e, c.botId, fetched, online) == Outcome(Run(c, Start, evs).store, [])
  {
    ReachableDistinctMenus(c, evs);
    SessionProperties.CrossUserReactionIsNoop(Run(c, Start, evs).store, owner, e, c.botId, fetched, online);
  }

  /** An id in use that is not a menu never becomes one under fresh sends. */
  lemma {:induction false} RetiredIdStaysRetired(c: Config, b: State, used: set<MessageId>, evs: seq<Event>, id: MessageId)
    requires AllAdmissible(c, evs) && FreshFrom(used, evs)
    requires id in used && id !in b.store.menus.Values
    ensures id !in Run(c, b, evs).store.menus.Values
    decreases |evs|
  {
    if evs != [] {
      RetiredIdStaysRetired(c, Step(c, b, evs[0]), used + SentId(evs[0]), evs[1..], id);
    }
  }

  /** After a logout through menu `e.message`, every later reaction on that old menu, in any
      state the run reaches with fresh ids, is a no-op. */
  lemma StaleMenuStaysDead(c: Config, b: State, used: set<MessageId>, e: Reaction, online: bool,
                           evs: seq<Event>, e2: Reaction, fetched2: bool, online2: bool)
    requires DistinctMenus(b.store) && StoreIds(b.store) <= used
    requires OnOwnMenu(b.store, e, c.botId) && e.emoji == LogoutEmoji
    requires AllAdmissible(c, evs) && FreshFrom(used, evs)
    requires e2.message == e.message
    ensures var s := Run(c, Step(c, b, React(e, true, online)), evs).store;
            OnReaction(s, e2, c.botId, fetched2, online2) == Outcome(s, [])
  {
    var b' := Step(c, b, React(e, true, online));
    assert e.message in b.store.menus.Values;
    assert e.message !in b'.store.menus.Values by {
      forall u | u in b'.store.menus
        ensures b'.store.menus[u] != e.message
      {
        assert u in b.store.menus && u != e.user;
      }
    }
    RetiredIdStaysRetired(c, b', used, evs, e.message);
  }

  /** The same, for a logout in a state reached from startup and a run continuing from it. */
  lemma ReachableStaleMenuStaysDead(c: Config, pre: seq<Event>, e: Reaction, online: bool,
                                    post: seq<Event>, e2: Reaction, fetched2: bool, online2: bool)
    requires AllAdmissible(c, pre) && FreshFrom({}, pre)
    requires OnOwnMenu(Run(c, Start, pre).store, e, c.botId) && e.emoji == LogoutEmoji
    requires AllAdmissible(c, post) && FreshFrom(Issued(pre), post)
    requires e2.message == e.message
    ensures var s := Run(c, Step(c, Run(c, Start, pre), React(e, true, online)), post).store;
            OnReaction(s, e2, c.botId, fetched2, online2) == Outcome(s, [])
  {
    ReachableDistinctMenus(c, pre);
    StaleMenuStaysDead(c, Run(c, Start, pre), Issued(pre), e, online, post, e2, fetched2, online2);
  }

  /** Session traffic never moves the monitor: over events with no tick, `last_status` is unchanged. */
  lemma {:induction false} SessionsLeaveMonitorAlone(c: Config, b: State, evs: seq<Event>)
    requires AllAdmissible(c, evs)
    requires forall k :: 0 <= k < |evs| ==> !evs[k].Tick?
    ensures Run(c, b, evs).last == b.last
    decreases |evs|
  {
    if evs != [] {
      SessionsLeaveMonitorAlone(c, Step(c, b, evs[0]), evs[1..]);
    }
  }
}
