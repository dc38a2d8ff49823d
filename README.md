# Proxy relay and levelling engine of a Discord bot, in Dafny

This project models the two cogs of the bot that hold its logic.

- **The proxy cog** (`cogs/proxies.py`) lets a user speak through a named identity, called a *proxy*. A proxy is a display name plus an avatar, stored under a unique key. Access is an access-control list: a `proxy_users` table of (key, user) grants. Whoever creates a proxy is granted it. Any holder of a grant may grant it to someone else. An administrator may delete a proxy together with all its grants. `proxysay` relays a message under a proxy's identity. It creates a webhook, sends through it, deletes it, deletes the invoking message and awards xp.
- **The xp cog** (`cogs/xp.py`) keeps one (xp, level) record per user. Each relay earns 10 xp. The rule is that a user levels up, by one level at most, when the new xp reaches 100 × the level held before. As written, that level-up crashes before anything is saved (see Findings). The `xp` command reads a record and shows (0, 1) for a user who has none.

Files:

- `platform.dfy`, module `Platform`: users, channels and the observable effects. A channel has an optional parent, which is present for threads and forum posts. Every observable step of the relay is one `Effect` value: a reply, a webhook call, a message deletion, the in-process xp award or a level-up notice. The other commands return a `Reply`.
- `proxies.dfy`, module `Proxies`:
  - both tables as a value (`Tables`);
  - the three table updates as functions (`Create`, `GrantAccess`, `Delete`);
  - the invariant `Consistent`: every grant names an existing proxy;
  - the relay's channel choice and effect sequence;
  - the class `ProxyCog`, whose methods update the two table fields in place and return the reply or the effect trace.
- `xp.dfy`, module `Xp`:
  - the award rule as a pure function (`Award`), and the table and notice after an award under the corrected rule (`AwardedRecords`, `LevelUpNotices`);
  - the query (`Query`);
  - lemmas about runs of awards;
  - the source's add_xp exactly as written (`AddXpAsWritten`), see Findings;
  - the class `XpCog`. Its `AddXp` updates its `records` map step by step, in the source's order, but under the corrected rule: on a level-up it still writes the record and then emits the notice (see Findings).

The two tables of the proxy cog are a `map` from key to `Proxy` and a `set` of `Grant` pairs. SQL's composite primary key with `REPLACE` becomes set union. The `xp` table is a `map` from user to `XpRecord`. The relay depends on the xp cog, which may be absent, so `ProxySay` takes it as an `Xp.XpCog?` parameter.

Where the code and the design description of the system differ, the model follows the code:

- **Xp per relay.** The award is a fixed 10 points. The design describes an amount that grows with the message length. The relay does not even pass the text to `add_xp` (cogs/proxies.py:109).
- **Granting an unknown key.** `grantproxy` does not check that the key exists. The design asks for a not-found error. The model proves the check unnecessary: in a consistent store, a grantor's own grant already implies that the proxy exists (`GrantNeverDangles`, first ensures; `ProxySay`, third ensures).
- **Delete result.** `deleteproxy` reports no count of removed grants. It always answers with the same confirmation text.
- **Leaked webhook.** There is no cleanup on failure. If `webhook.send` raises, the webhook is never deleted (cogs/proxies.py:92-100). The model claims no guaranteed release. It describes only the sequence on the path where no call fails.

## Model

| member | source | states |
|---|---|---|
| `Proxies.Create` | cogs/proxies.py:37-47 | A key already in use leaves both tables unchanged. Otherwise exactly the proxy row and the creator's grant are added: every other key keeps its row and no other grant appears. The grant invariant is preserved. |
| `Proxies.GrantAccess` | cogs/proxies.py:50-61 | A grantor without a grant changes nothing. Otherwise the grant set becomes exactly the old set plus (key, member), the proxies are untouched, and the grantor keeps access. The grant invariant is preserved. |
| `Proxies.Delete` | cogs/proxies.py:29-34 | Afterwards the key has no proxy row and no user holds a grant for it. Proxies and grants of every other key are unchanged. The grant invariant is preserved. |
| `Proxies.GrantIdempotent` | cogs/proxies.py:58-59 | Granting the same (key, member) twice gives the same tables as granting it once. |
| `Proxies.GrantNeverDangles` | cogs/proxies.py:52-59 | In a consistent store, a grantor who holds a grant for a key implies that the proxy exists. So a grant that changes anything names an existing proxy, and no dangling edge is created. |
| `Proxies.DeleteUnknownIsNoOp` | cogs/proxies.py:31-32 | In a consistent store, deleting a key with no proxy leaves both tables exactly as they were. |
| `Proxies.CaptainScenario` | cogs/proxies.py:37-61 | After "cap" is created by user 1, user 1 has access and user 2 does not. Granting on a store without "cap" does nothing. Once user 1 grants "cap", user 2 has access. |
| `Proxies.WebhookChannel` | cogs/proxies.py:84-90 | The webhook is created on the parent when the channel has one; the parent is then a different channel. Otherwise it is created on the channel itself. |
| `Proxies.ThreadTarget` | cogs/proxies.py:94-98 | `thread=` is passed exactly when the webhook channel differs from the invoking channel, and it then names the invoking channel. |
| `Proxies.RelayEffects` | cogs/proxies.py:92-103 | The relay makes four effects in this order. (1) Create a webhook named after the proxy on the webhook channel. (2) Send the message with the proxy's name and avatar, into the thread exactly when the channel has a parent. (3) Delete the same webhook. (4) Delete the invoking message. |
| `Proxies.ProxyCog.constructor` | cogs/proxies.py:13-25 | The tables start empty and consistent. |
| `Proxies.ProxyCog.DeleteProxy` | cogs/proxies.py:29-34 | The new tables are `Delete` of the old ones, and the invariant is kept. |
| `Proxies.ProxyCog.CreateProxy` | cogs/proxies.py:37-47 | The new tables are `Create` of the old ones. The reply is DuplicateKey exactly when the key was in use. The invariant is kept. |
| `Proxies.ProxyCog.GrantProxy` | cogs/proxies.py:50-61 | The new tables are `GrantAccess` of the old ones. The reply is NoAccess exactly when the author held no grant. The invariant is kept. |
| `Proxies.ProxyCog.ListProxies` | cogs/proxies.py:116-121 | The rows are exactly the (key, name) pairs of the proxies the user holds a grant for, and no key occurs twice. |
| `Proxies.ProxyCog.ProxySay` | cogs/proxies.py:64-111 | Without a grant, the only effect is the no-access reply. With a grant but no proxy row, the only effect is the not-found reply. In both cases xp is unchanged. A consistent store never reaches the not-found case. On success the trace is `RelayEffects` followed by the xp award to the author, the award's notices and the award's new records (none of this when the xp cog is absent). No webhook, send, deletion or award happens without a grant and a proxy row. |
| `Xp.Query` | cogs/xp.py:44-55 | A user without a record reads as (0, 1); otherwise the stored pair is returned. In a well-formed table xp ≥ 0 and level ≥ 1. |
| `Xp.Award` | cogs/xp.py:29-39 | A user without a record ends at (10, 1). xp rises by exactly 10 over the query's view of the old record. Level rises by exactly 1 if the new xp reaches 100 × the old level, and stays the same otherwise. |
| `Xp.AwardedRecords` | cogs/xp.py:29-42 | Corrected rule (as written, a level-up stores nothing; see `Xp.AddXpAsWritten`). Only the awarded user's record changes; every other user's row is unchanged. That user's xp rises by 10 and their level by at most 1. Well-formedness (xp ≥ 0, level ≥ 1) is preserved. |
| `Xp.LevelUpNotices` | cogs/xp.py:37-40 | Corrected rule (as written, the notice is never sent, because line 40 raises first). There is at most one notice. It exists exactly when the level rose. It is addressed to the awarded user in the given channel and carries the new level. |
| `Xp.RunAwardsMonotone` | cogs/xp.py:32-41 | Across any sequence of awards, no user's xp or level decreases, no record disappears, and level stays ≥ 1. |
| `Xp.RunAwardsOthersUntouched` | cogs/xp.py:41 | A user who receives none of a sequence of awards keeps exactly their row. |
| `Xp.RepeatedAwardsPromote` | cogs/xp.py:37-41 | With the corrected write, once a user's awards add up to their level's threshold, their level has risen. |
| `Xp.AddXpAsWritten` | cogs/xp.py:29-42 | As written, an award raises exactly when it would level the user up. It then stores nothing. Otherwise it stores the awarded record. |
| `Xp.AsWrittenNeverPromotes` | cogs/xp.py:37-41 | As written, a table where everyone is at level 1 below 100 xp stays that way under any sequence of awards. |
| `Xp.AsWrittenLevelStaysOne` | cogs/xp.py:10-16 | As written, starting from the empty table, every user who has a record is at level 1 forever. |
| `Xp.AsWrittenDropsLevelUp` | cogs/xp.py:38-41 | As written, a user at (90, 1) who earns 10 raises, and the table is unchanged. |
| `Xp.CorrectedKeepsLevelUp` | cogs/xp.py:38-41 | Corrected, the same user is stored as (100, 2), and one level-2 notice is emitted in the channel. |
| `Xp.XpCog.constructor` | cogs/xp.py:10-16 | The table starts empty and well formed. |
| `Xp.XpCog.AddXp` | cogs/xp.py:29-42 | Corrected rule: the write is kept on a level-up. The new table is `AwardedRecords` of the old one. The returned notices are `LevelUpNotices`. Well-formedness is kept. |

## Left out

- Discord I/O is represented only as `Effect` values in a returned trace. This covers `ctx.send`, webhook creation, sending and deletion, message deletion, mentions and the formatting of reply texts (including listproxies' two reply texts).
- The sqlite connection, cursor, `commit` and `cog_unload` are left out; the tables are in-memory maps and sets. Both tables start empty in the constructors, standing for a fresh database file.
- The administrator check on deleteproxy (cogs/proxies.py:28) is made by the command framework before the body runs. It is not modelled.
- `async`/`await` are left out, and so is the fire-and-forget `asyncio.create_task` dispatch of the level-up message (cogs/xp.py:40). The notice is a returned event, emitted after the write.
- Failures of Discord calls are not modelled, so neither is the webhook that a failed send leaves behind.
- `XPCog.on_message` (cogs/xp.py:19-27) does nothing and is not modelled. main.py is bot start-up and is not part of this model.
- Logging calls in proxysay are left out.
- Proxies.ProxyCog.CreateProxy: requires the grant invariant. Its second INSERT could only collide on a grant for a key without a proxy. The invariant rules that out, so the source's partial-commit behaviour in that corner is not modelled.
- Xp.XpCog.AddXp: describes the corrected award, not the source as written. As written, a level-up raises NameError at cogs/xp.py:40, so the record is not written and no notice is sent. `Xp.AddXpAsWritten` models that behaviour (see Findings).
- Xp.AwardedRecords, Xp.LevelUpNotices: likewise describe the corrected award.
- Proxies.ProxyCog.ProxySay: describes the corrected xp award. As written, a level-up raises NameError inside `add_xp`, after all relay effects have happened (see Findings).
- User ids are the strings `str(member.id)`; their numeric form is not modelled. Channel identity is an abstract number.

## Findings

| source | as written | input that shows it | evidently intended | confidence | as-written member | corrected member |
|---|---|---|---|---|---|---|
| cogs/xp.py:40 | `asyncio.create_task` is called, but `asyncio` is never imported (cogs/xp.py:1-3). Every award that reaches the threshold raises NameError before the REPLACE on line 41, so the record is never written and nobody leaves level 1. | user "42" stored at (90, 1) earns one award | store (100, 2) and notify the user of level 2 | high; not executed | `Xp.AsWrittenDropsLevelUp` | `Xp.CorrectedKeepsLevelUp` |
