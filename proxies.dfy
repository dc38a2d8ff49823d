/**
 The proxy cog of cogs/proxies.py: a `proxies` table (key to display name and
 avatar) and a `proxy_users` table of grants (key, user), the commands that
 change them, the `listproxies` join, and the decision and effect sequence
 of `proxysay`, which relays a message under a proxy's identity through a
 short-lived webhook and then awards xp.
 */
module Proxies {
  import opened Platform
  import Xp

  /** A row of `proxies`, without its primary key. */
  datatype Proxy = Proxy(name: string, avatarUrl: string)

  /** A row of `proxy_users`; the whole pair is the primary key. */
  datatype Grant = Grant(key: string, user: UserId)

  /** Both tables as one value. */
  datatype Tables = Tables(proxies: map<string, Proxy>, grants: set<Grant>)

  /** The single authorization check: a grant row exists for (key, user). */
  predicate Authorized(t: Tables, key: string, user: UserId)
  {
    Grant(key, user) in t.grants
  }

  /** The store's invariant: every grant names an existing proxy. */
  predicate Consistent(t: Tables)
  {
    forall g :: g in t.grants ==> g.key in t.proxies
  }

  /**
   createproxy: a key already in use changes nothing; otherwise the proxy row
   and a grant for its creator are added, and nothing else.
   */
  function Create(t: Tables, key: string, p: Proxy, creator: UserId): (r: Tables)
    ensures key in t.proxies ==> r == t
    ensures key !in t.proxies ==> key in r.proxies && r.proxies[key] == p && Authorized(r, key, creator)
    ensures forall k :: k != key ==>
      && (k in r.proxies <==> k in t.proxies)
      && (k in r.proxies ==> r.proxies[k] == t.proxies[k])
    ensures forall g :: g in r.grants <==> g in t.grants || (key !in t.proxies && g == Grant(key, creator))
    ensures Consistent(t) ==> Consistent(r)
  {
    if key in t.proxies then t
    else Tables(t.proxies[key := p], t.grants + {Grant(key, creator)})
  }

  /**
   grantproxy: a grantor without a grant for `key` changes nothing; otherwise
   (key, member) is a grant afterwards, and nothing else changes.
   */
  function GrantAccess(t: Tables, key: string, grantor: UserId, member: UserId): (r: Tables)
    ensures !Authorized(t, key, grantor) ==> r == t
    ensures Authorized(t, key, grantor) ==>
      && r.proxies == t.proxies
      && Authorized(r, key, grantor)
      && Authorized(r, key, member)
      && (forall g :: g in r.grants <==> g in t.grants || g == Grant(key, member))
    ensures Consistent(t) ==> Consistent(r)
  {
    if !Authorized(t, key, grantor) then t
    else Tables(t.proxies, t.grants + {Grant(key, member)})
  }

  /**
   deleteproxy: afterwards `key` has neither a proxy row nor any grant, and
   every other key keeps its proxy row and its grants.
   */
  function Delete(t: Tables, key: string): (r: Tables)
    ensures key !in r.proxies
    ensures forall u :: !Authorized(r, key, u)
    ensures forall k :: k != key ==>
      && (k in r.proxies <==> k in t.proxies)
      && (k in r.proxies ==> r.proxies[k] == t.proxies[k])
    ensures forall g: Grant :: g.key != key ==> (g in r.grants <==> g in t.grants)
    ensures Consistent(t) ==> Consistent(r)
  {
    Tables(t.proxies - {key}, set g | g in t.grants && g.key != key)
  }

  /** Granting the same access twice leaves the same tables as granting it once. */
  lemma GrantIdempotent(t: Tables, key: string, grantor: UserId, member: UserId)
    ensures GrantAccess(GrantAccess(t, key, grantor, member), key, grantor, member)
         == GrantAccess(t, key, grantor, member)
  {
  }

  /**
   In a consistent store a grantor's own grant already implies that the proxy
   exists, so a grant is only ever extended to a proxy that exists.
   */
  lemma GrantNeverDangles(t: Tables, key: string, grantor: UserId, member: UserId)
    requires Consistent(t)
    ensures Authorized(t, key, grantor) ==> key in t.proxies
    ensures GrantAccess(t, key, grantor, member) != t ==> key in t.proxies
  {
  }

  /** Deleting a key that has no proxy leaves a consistent store exactly as it was. */
  lemma DeleteUnknownIsNoOp(t: Tables, key: string)
    requires Consistent(t)
    requires key !in t.proxies
    ensures Delete(t, key) == t
  {
  }

  /** The example run: create "cap" as user 1, grant it to user 2. */
  lemma CaptainScenario()
    ensures var t1 := Create(Tables(map[], {}), "cap", Proxy("Captain", "http://x/a.png"), "1");
      && Authorized(t1, "cap", "1")
      && !Authorized(t1, "cap", "2")
      && GrantAccess(Tables(map[], {}), "cap", "1", "2") == Tables(map[], {})
      && Authorized(GrantAccess(t1, "cap", "1", "2"), "cap", "2")
  {
  }

  /** The channel the webhook is created on: a thread's or forum post's parent, else the channel itself. */
  function WebhookChannel(c: Channel): (w: Channel)
    ensures c.parent.Some? ==> w == c.parent.value && w != c
    ensures c.parent.None? ==> w == c
  {
    match c.parent
    case Some(parent) => assert parent < c.parent < c; parent
    case None => c
  }

  /** The `thread=` argument of webhook.send: the channel itself, only when it has a parent. */
  function ThreadTarget(c: Channel): (r: Option<Channel>)
    ensures r.Some? <==> WebhookChannel(c) != c
    ensures r.Some? ==> r.value == c
  {
    if c.parent.Some? then Some(c) else None
  }

  /**
   The effects of a relay through proxy `p`, in order: create a webhook named
   after the proxy on the webhook channel, send the text under the proxy's
   name and avatar (into the thread, for a sub-channel), delete that same
   webhook, delete the invoking message.
   */
  function RelayEffects(p: Proxy, channel: Channel, message: string): (r: seq<Effect>)
    ensures |r| == 4
    ensures r[0] == CreateWebhook(WebhookChannel(channel), p.name)
    ensures r[1].WebhookSend? && r[1].text == message
    ensures r[1].username == p.name && r[1].avatarUrl == p.avatarUrl
    ensures r[1].thread.Some? <==> channel.parent.Some?
    ensures r[1].thread.Some? ==> r[1].thread.value == channel
    ensures r[2] == DeleteWebhook(r[0].on)
    ensures r[3] == DeleteInvokingMessage
  {
    var w := WebhookChannel(channel);
    [CreateWebhook(w, p.name), WebhookSend(message, p.name, p.avatarUrl, ThreadTarget(channel)),
     DeleteWebhook(w), DeleteInvokingMessage]
  }

  /** An effect that touches the platform beyond a plain reply. */
  predicate RelayArtifact(e: Effect)
  {
    e.CreateWebhook? || e.WebhookSend? || e.DeleteWebhook? || e.DeleteInvokingMessage? || e.AwardXp?
  }

  /** The cog that owns the `proxies` and `proxy_users` tables. */
  class ProxyCog {
    var proxies: map<string, Proxy>
    var grants: set<Grant>

    function State(): (t: Tables)
      reads this
    {
      Tables(proxies, grants)
    }

    ghost predicate Valid()
      reads this
    {
      Consistent(State())
    }

    /** `CREATE TABLE IF NOT EXISTS` for both tables: the model starts from empty ones. */
    constructor ()
      ensures Valid() && State() == Tables(map[], {})
    {
      proxies := map[];
      grants := {};
    }

    /** deleteproxy (administrator only): drop the key's grants, then its proxy row. */
    method DeleteProxy(key: string) returns (reply: Reply)
      requires Valid()
      modifies this
      ensures Valid()
      ensures State() == Delete(old(State()), key)
      ensures reply == ProxyDeleted(key)
    {
      grants := set g | g in grants && g.key != key;
      proxies := proxies - {key};
      reply := ProxyDeleted(key);
    }

    /**
     createproxy: insert the proxy row, then the creator's grant; a key in use
     raises IntegrityError on the first insert and nothing is written.  The
     second insert cannot collide in a valid store, since a grant for an
     unused key would dangle.
     */
    method CreateProxy(key: string, name: string, avatarUrl: string, author: UserId) returns (reply: Reply)
      requires Valid()
      modifies this
      ensures Valid()
      ensures State() == Create(old(State()), key, Proxy(name, avatarUrl), author)
      ensures reply == if key in old(proxies) then DuplicateKey else ProxyCreated(name, key)
    {
      if key in proxies {
        reply := DuplicateKey;
        return;
      }
      proxies := proxies[key := Proxy(name, avatarUrl)];
      grants := grants + {Grant(key, author)};
      reply := ProxyCreated(name, key);
    }

    /** grantproxy: only a holder of a grant for `key` may add (key, member); REPLACE makes it idempotent. */
    method GrantProxy(key: string, author: UserId, member: UserId) returns (reply: Reply)
      requires Valid()
      modifies this
      ensures Valid()
      ensures State() == GrantAccess(old(State()), key, author, member)
      ensures reply == if Authorized(old(State()), key, author) then AccessGranted(member, key) else NoAccess
    {
      if Grant(key, author) !in grants {
        reply := NoAccess;
        return;
      }
      grants := grants + {Grant(key, member)};
      reply := AccessGranted(member, key);
    }

    /**
     listproxies: the join of both tables on the key, restricted to `user`'s
     grants.  Each row is (key, name); a key occurs at most once.
     */
    method ListProxies(user: UserId) returns (rows: seq<(string, string)>)
      ensures forall row :: row in rows <==>
        row.0 in proxies && Grant(row.0, user) in grants && row.1 == proxies[row.0].name
      ensures forall i, j :: 0 <= i < j < |rows| ==> rows[i].0 != rows[j].0
    {
      rows := [];
      var pending := proxies.Keys;
      while pending != {}
        invariant pending <= proxies.Keys
        invariant forall row :: row in rows <==>
          row.0 in proxies.Keys - pending && Grant(row.0, user) in grants && row.1 == proxies[row.0].name
        invariant forall i :: 0 <= i < |rows| ==> rows[i].0 !in pending
        invariant forall i, j :: 0 <= i < j < |rows| ==> rows[i].0 != rows[j].0
        decreases pending
      {
        var k :| k in pending;
        if Grant(k, user) in grants {
          rows := rows + [(k, proxies[k].name)];
        }
        pending := pending - {k};
      }
    }

    /**
     proxysay: check the author's grant, look the proxy up, relay the message
     through a webhook, then award xp if the xp cog is loaded.  Returns the
     effects in the order they are made.
     */
    method ProxySay(key: string, author: UserId, channel: Channel, message: string, xpCog: Xp.XpCog?)
      returns (trace: seq<Effect>)
      requires xpCog != null ==> xpCog.Valid()
      modifies xpCog
      ensures xpCog != null ==> xpCog.Valid()
      ensures !Authorized(State(), key, author) ==>
        trace == [Say(NoAccess)] && (xpCog != null ==> xpCog.records == old(xpCog.records))
      ensures Authorized(State(), key, author) && key !in proxies ==>
        trace == [Say(ProxyNotFound)] && (xpCog != null ==> xpCog.records == old(xpCog.records))
      ensures Consistent(State()) && Authorized(State(), key, author) ==> key in proxies
      ensures Authorized(State(), key, author) && key in proxies ==>
        && |trace| >= 4
        && trace[..4] == RelayEffects(proxies[key], channel, message)
        && (xpCog == null ==> |trace| == 4)
        && (xpCog != null ==>
              && trace[4..] == [AwardXp(author, channel)] + Xp.LevelUpNotices(old(xpCog.records), author, channel)
              && xpCog.records == Xp.AwardedRecords(old(xpCog.records), author))
      ensures (forall e :: e in trace && RelayArtifact(e) ==> Authorized(State(), key, author) && key in proxies)
    {
      if Grant(key, author) !in grants {
        trace := [Say(NoAccess)];
        return;
      }
      if key !in proxies {
        trace := [Say(ProxyNotFound)];
        return;
      }
      var p := proxies[key];
      var webhookChannel;
      if channel.parent.Some? {
        webhookChannel := channel.parent.value;
      } else {
        webhookChannel := channel;
      }
      trace := [CreateWebhook(webhookChannel, p.name)];
      if channel.parent.Some? {
        trace := trace + [WebhookSend(message, p.name, p.avatarUrl, Some(channel))];
      } else {
        trace := trace + [WebhookSend(message, p.name, p.avatarUrl, None)];
      }
      trace := trace + [DeleteWebhook(webhookChannel)];
      trace := trace + [DeleteInvokingMessage];
      assert trace == RelayEffects(p, channel, message);
      if xpCog != null {
        var notices := xpCog.AddXp(author, channel);
        trace := trace + [AwardXp(author, channel)] + notices;
      }
    }
  }
}
