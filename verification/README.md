# Discord admin bot: reachability monitor and OTP-gated admin sessions

This project models the two stateful parts of a small Discord bot (`bot.py`):

- the **edge-triggered reachability monitor** (`check_server`): every interval it probes a
  game server, and when the result differs from the stored `last_status` it sends an alert to
  every user in `ALERT_USERS`; the first probe after startup only seeds `last_status`;
- the **admin session machine** (`on_message`, `on_raw_reaction_add`): a user who sends
  `/admin` in a DM is prompted for a TOTP code, a correct code opens an admin session with a
  reaction menu (🌍 status query, ❌ logout), a wrong code returns the user to idle.

Both are pure transition functions over immutable state. Every I/O result the Python code
waits for is a parameter:

| parameter | stands for |
|---|---|
| `online` | the result of the TCP probe `is_server_online` |
| `outcomes` / `Delivery.delivered` | whether `fetch_user` and `send` both succeeded for one subscriber |
| `sent: Option<MessageId>` | the id of the message `on_message` sends (the prompt, or the menu once both reactions are added); `None` when that call raised |
| `codeOk` | the verdict of `pyotp.TOTP(...).verify` on the stripped text |
| `fetched` | whether `fetch_user` / `create_dm` succeeded in the reaction handler |

Modules: `Wrappers` (Option), `Ids` (user and message ids), `Text` (Python's argument-less
`str.strip()`, with the whitespace set of `str.isspace()`), `Monitor`, `Sessions` (the store
of `awaiting_otp`, `admin_sessions`, `admin_menus` and both handlers), `SessionProperties`
(lemmas about the handlers, including a reference transition table per user phase), and `Bot`
(the whole process as one event loop in which each tick and each handler is one atomic step).

The store keeps two facts (`Sessions.Inv`): nobody is both awaiting a code and holding a
session, and only session holders own a menu. Session holders and menu owners coincide
(`Sessions.FullInv`) only while menu sends succeed: `bot.py` adds the user to
`admin_sessions` (line 106) before sending the menu and records the menu id only after both
reactions are on it (line 116). A user whose menu send failed holds a session with no menu;
text from them is ignored and reactions are gated on `admin_menus`, so that session can never
be closed (`SessionProperties.StrandedSession`).

Three behaviours of `bot.py` that the model reproduces as written:

- a prompt is recorded for every user awaiting a code, but a menu is recorded for a session
  holder only when the menu send and both `add_reaction` calls succeeded (lines 106-116);
- messages from any bot account are dropped (`message.author.bot`, line 73), while reactions
  are dropped only when they come from this bot's own id (line 130);
- `/admin` sent while awaiting a code is never judged as a code: it sends a new prompt and
  replaces the stored one (lines 84-87), leaving the earlier prompt message undeleted.

Message ids come from the platform, which never hands out the same id twice. The model does not
assume this everywhere: the lemmas that need it (`Bot.FreshFrom`) take it as a hypothesis on
the run's sends.

## Model

| member | source | states |
|---|---|---|
| Text.TrimStart | bot.py:77 | the result is the suffix of the input after a whitespace-only prefix, and does not start with whitespace |
| Text.TrimEnd | bot.py:77 | the result is the prefix of the input before a whitespace-only suffix, and does not end with whitespace |
| Text.Strip | bot.py:77 | the result of `content.strip()` neither starts nor ends with whitespace |
| Text.StripShape | bot.py:77 | `content.strip()` removes only surrounding whitespace: the input is whitespace, then the result, then whitespace |
| Text.StripPadded | bot.py:77 | a trimmed text padded with any whitespace on either side strips back to exactly that text |
| Text.StripIdempotent | bot.py:77 | stripping an already stripped text changes nothing |
| Monitor.FanOut | bot.py:55-60 | every subscriber in `ALERT_USERS` is attempted exactly once, in list order, and a failed delivery does not skip or alter the later attempts |
| Monitor.CheckServer | bot.py:43-61 | the first tick seeds `last_status` and notifies nobody; later ticks notify iff the probe differs from `last_status`, then to every subscriber in order; `last_status` always ends equal to the probe whatever the deliveries did |
| Monitor.RunCountsChanges | bot.py:47-61 | from the unset state, the number of notifying ticks equals the number of adjacent changes in the probe results, each notification makes one attempt per subscriber, and `last_status` ends as the last probe |
| Monitor.RunFromSeed | bot.py:50-61 | with `last_status` already set to `b`, notifications count the adjacent changes of `b` followed by the probe results, each reaching every subscriber |
| Monitor.RunEndsAtLastProbe | bot.py:47-61 | from any stored status, after one or more ticks `last_status` is the last probe result |
| Monitor.ExampleTwoNotifications | bot.py:47-61 | probes up, up, down, down, up notify twice (down, then up), and a failed delivery still lets `last_status` update |
| Sessions.OnMessage | bot.py:70-124 | a message changes only its author's entries and keeps the two disjointness/subset facts of the store; from a store where menu owners equal session holders, they stay equal exactly unless the message is a correct code whose menu send failed (`Strands`); the store gains no message id but the one this send produced, and distinct menus stay distinct when that id is new |
| Sessions.OnText | bot.py:76-124 | the same for the part of the handler after its filter, on the stripped text (`StrandsAuthor`) |
| Sessions.OnReaction | bot.py:127-163 | a reaction changes only the reacting user's entries, keeps both store invariants, adds no message id to the store and keeps menus distinct |
| SessionProperties.MessageRouting | bot.py:72-77 | messages from bots or outside DMs change no state and make no platform call; any other message is handled on its stripped content |
| SessionProperties.PaddedCommand | bot.py:77-84 | `/admin` surrounded by any whitespace is recognised as the command |
| SessionProperties.IgnoredText | bot.py:79-90 | any text from a session holder, and non-`/admin` text from a user not awaiting a code, changes no state and makes no platform call |
| SessionProperties.TextActsOnlyAsCommandOrCode | bot.py:79-124 | text changes state or calls the platform only if its author holds no session and it is `/admin` or its author awaits a code |
| SessionProperties.AdminCommandPrompts | bot.py:84-87 | `/admin` from a user without a session stores the new prompt for that user (replacing any earlier one) and leaves sessions, menus and other users' prompts unchanged |
| SessionProperties.AdminWhileAwaitingReprompts | bot.py:84-90 | `/admin` from a user already awaiting a code is never judged as a code: the user stays awaiting, no session opens, and nothing is deleted |
| SessionProperties.CodeSubmission | bot.py:90-124 | a code always removes the user from `awaiting_otp` and deletes the prompt and the user's message; a good code adds the user to `admin_sessions` and records the menu id; a bad code leaves sessions and menus unchanged, so the user is idle |
| SessionProperties.AdmittedOnlyByCode | bot.py:90-116 | a user enters `admin_sessions` only by a correct, non-`/admin` code while awaiting one |
| SessionProperties.ReactionGated | bot.py:130-137 | a reaction by the bot, by a user with no menu, or on any message but the user's current menu changes nothing and makes no call |
| SessionProperties.ReactionActsOnlyThroughGate | bot.py:130-163 | a reaction acts only past the gate with a successful fetch, changes state only by the logout emoji, never adds a session and never touches `awaiting_otp` |
| SessionProperties.StatusReaction | bot.py:147-152 | 🌍 on the user's menu sends the fresh probe result and changes no state |
| SessionProperties.LogoutReaction | bot.py:153-163 | ❌ on the user's menu deletes the menu and removes exactly that user from `admin_sessions` and `admin_menus`, leaving the user idle |
| SessionProperties.OtherReaction | bot.py:140-163 | a failed user fetch, or any emoji other than 🌍 and ❌, changes nothing |
| SessionProperties.StaleMenuAfterLogout | bot.py:134-137 | right after ❌, the next reaction on the old menu message, with any emoji, is a no-op |
| SessionProperties.CrossUserReactionIsNoop | bot.py:134-137 | with distinct menu ids, a reaction by one user on another user's menu changes nothing |
| SessionProperties.LoginStatusLogoutCycle | bot.py:84-163 | `/admin`, a correct code, 🌍 and ❌ from startup return the store to its empty startup state |
| SessionProperties.StrandedSession | bot.py:80-81 | a session holder without a menu keeps its session through every message and every reaction |
| SessionProperties.TextFollowsTable | bot.py:76-124 | under the store invariant, the author moves Idle to AwaitingCode on `/admin`, AwaitingCode to Authenticated on a good code and to Idle on a bad one, re-prompts on `/admin`, stays put when authenticated; no other user moves |
| SessionProperties.ReactionFollowsTable | bot.py:127-163 | under the store invariant, only an authenticated user reacting ❌ on their own menu moves (to Idle); no other user moves |
| Bot.Step | bot.py:26-29 | a monitor tick never touches the session store and sets `last_status` to the probe; a handler never touches `last_status`; every step keeps the store invariant; from a store with menu owners equal to session holders, the step keeps that equality exactly when it strands nobody; the store gains no id but the step's own send |
| Bot.RunKeepsInv | bot.py:80-116 | every sequence of ticks, messages and reactions keeps the store invariant |
| Bot.ReachableInv | bot.py:26-29 | every state reachable from startup satisfies the store invariant |
| Bot.RunKeepsFullInv | bot.py:106-116 | from a store where session holders and menu owners coincide, they coincide after a run if and only if no step of the run is a correct code whose menu send failed |
| Bot.ReachableFullInv | bot.py:106-116 | in every state reached from startup by a run that strands nobody, session holders and menu owners coincide |
| Bot.StrandedStaysStranded | bot.py:80-81 | a session holder without a menu still holds its session and still has no menu after any run |
| Bot.RunKeepsFresh | bot.py:91-116 | when the run's sends produce fresh ids, menus stay distinct between users and the store refers only to ids already in use or produced by the run |
| Bot.ReachableDistinctMenus | bot.py:84-116 | with fresh ids, no two users share a menu in any state reached from startup |
| Bot.ReachableCrossUserNoop | bot.py:134-137 | with fresh ids, in any state reached from startup, a reaction by one user on another user's menu changes nothing |
| Bot.RetiredIdStaysRetired | bot.py:116 | with fresh ids, a message id in use that is no user's menu never becomes one |
| Bot.StaleMenuStaysDead | bot.py:134-163 | after ❌ on a menu, any reaction on that old menu, at any later point of a run with fresh ids, is a no-op |
| Bot.ReachableStaleMenuStaysDead | bot.py:134-163 | the same for a logout in a state reached from startup |
| Bot.SessionsLeaveMonitorAlone | bot.py:45 | session traffic never changes `last_status` |

## Left out

- Discord transport (`discord.Client`, `on_ready`, `bot.run`, `fetch_user`, `send`, `delete`, `add_reaction`): external I/O; only its results appear, as the parameters above.
- `is_server_online` (bot.py:32-40): a TCP connect with a timeout; its result is the `online` parameter.
- TOTP verification (bot.py:104-105): the time-based check of RFC 6238 is the boolean `codeOk`.
- `asyncio.sleep(5)` and the delayed deletion of the wrong-code message (bot.py:118-123): timing only; the deletion has no state effect and is not listed among the effects.
- Interleaving of other handlers at `await` points inside a handler (for example between bot.py:91 and bot.py:116): each handler is one atomic step, as the cooperative loop runs it when no other event arrives meanwhile.
- Environment loading and `int()` parsing of configuration (bot.py:12-18): configuration plumbing; `ALERT_USERS` and the bot id are parameters.
- The exact message texts, `print` logging, and the 60-second loop interval: only which text is sent (`Notice`, `Delivery.online`) is modelled.
- Sessions.OnText: when the menu is sent but adding a reaction raises, the effect list records only the menu send, not the reactions that went through; the resulting state is modelled exactly.
