// Realtime presence (src/collaboration/realtime.gateway.ts): a reference-counted map from user
// to open sockets that announces a user's first connection and last disconnection.
module Presence {
  import opened Seqs

  datatype Member = Member(tenantId: string, userId: string)

  // An entry of the presence Map, which keeps its entries in insertion order.
  datatype Entry = Entry(key: string, count: int, member: Member)

  datatype Event = Online(member: Member) | Offline(member: Member)

  // sockets: the open connections that have a user attached; log: the events emitted so far.
  datatype Gateway = Gateway(presence: seq<Entry>, sockets: map<string, Member>, log: seq<Event>)

  // How handleConnection can go: the token is refused; a room cannot be joined after the user
  // was attached, so the socket is closed again; or the connection is ready.
  datatype Handshake = Refused | JoinFailed(member: Member) | Ready(member: Member)

  datatype Step = Connect(socket: string, handshake: Handshake) | Disconnect(socket: string)

  function Key(m: Member): string {
    m.tenantId + ":" + m.userId
  }

  function HasKey(key: string): Entry -> bool {
    (e: Entry) => e.key == key
  }

  function MarkOnline(g: Gateway, m: Member): Gateway {
    var i := IndexOf(g.presence, HasKey(Key(m)));
    if i < |g.presence| then g.(presence := g.presence[i := g.presence[i].(count := g.presence[i].count + 1)])
    else g.(presence := g.presence + [Entry(Key(m), 1, m)], log := g.log + [Online(m)])
  }

  function MarkOffline(g: Gateway, m: Member): Gateway {
    var i := IndexOf(g.presence, HasKey(Key(m)));
    if i >= |g.presence| then g
    else if g.presence[i].count - 1 > 0
      then g.(presence := g.presence[i := g.presence[i].(count := g.presence[i].count - 1)])
    else g.(presence := g.presence[..i] + g.presence[i + 1..], log := g.log + [Offline(m)])
  }

  // A socket id is never handed out twice, so a second connect or disconnect of it is no event.
  function After(g: Gateway, step: Step): Gateway {
    match step
    case Connect(socket, handshake) =>
      if socket in g.sockets || handshake.Refused? then g
      else if handshake.JoinFailed? then MarkOffline(g, handshake.member)
      else MarkOnline(g.(sockets := g.sockets[socket := handshake.member]), handshake.member)
    case Disconnect(socket) =>
      if socket !in g.sockets then g
      else MarkOffline(g.(sockets := g.sockets - {socket}), g.sockets[socket])
  }

  function Run(g: Gateway, steps: seq<Step>): Gateway
    decreases |steps|
  {
    if steps == [] then g else Run(After(g, steps[0]), steps[1..])
  }

  function InTenant(tenant: string): Entry -> bool {
    (e: Entry) => e.member.tenantId == tenant
  }

  function UserId(): Entry -> string {
    (e: Entry) => e.member.userId
  }

  function OnlineUserIds(g: Gateway, tenant: string): seq<string> {
    Map(Filter(g.presence, InTenant(tenant)), UserId())
  }

  // ---------- Keys ----------

  // Neither tenant id is the other one extended by a colon.
  predicate Apart(s: string, t: string) {
    s == t || !(s + ":" <= t || t + ":" <= s)
  }

  ghost predicate TenantsApart(ts: set<string>) {
    forall s, t :: s in ts && t in ts ==> Apart(s, t)
  }

  lemma SharedKey(m: Member, n: Member)
    requires Key(m) == Key(n) && m.tenantId != n.tenantId && |m.tenantId| <= |n.tenantId|
    ensures m.tenantId + ":" <= n.tenantId
  {
    var a, b := |m.tenantId|, |n.tenantId|;
    assert m.tenantId == Key(m)[..a] && n.tenantId == Key(n)[..b];
    assert m.tenantId + ":" == Key(m)[..a + 1];
  }

  // A tenant id and one that extends it by a colon share a key.
  lemma ExtensionShares(s: string, t: string) returns (u: string)
    requires s + ":" <= t
    ensures Key(Member(s, u)) == Key(Member(t, ""))
  {
    u := t[|s| + 1..] + ":";
    assert t == s + ":" + t[|s| + 1..];
  }

  // Users of two tenants can share a presence key exactly when one tenant id extends the other
  // by a colon.
  lemma KeysCollideIff(s: string, t: string)
    requires s != t
    ensures (exists u, v :: Key(Member(s, u)) == Key(Member(t, v))) <==> s + ":" <= t || t + ":" <= s
  {
    if u, v :| Key(Member(s, u)) == Key(Member(t, v)) {
      if |s| <= |t| {
        SharedKey(Member(s, u), Member(t, v));
      } else {
        SharedKey(Member(t, v), Member(s, u));
      }
    }
    if s + ":" <= t {
      var u := ExtensionShares(s, t);
    }
    if t + ":" <= s {
      var u := ExtensionShares(t, s);
      assert Key(Member(s, "")) == Key(Member(t, u));
    }
  }

  // So among tenants that are apart a key names one user.
  lemma KeyIsInjective(m: Member, n: Member, ts: set<string>)
    requires TenantsApart(ts) && m.tenantId in ts && n.tenantId in ts && Key(m) == Key(n)
    ensures m == n
  {
    assert Apart(m.tenantId, n.tenantId);
    if m.tenantId == n.tenantId {
      assert m.userId == Key(m)[|m.tenantId| + 1..] && n.userId == Key(n)[|n.tenantId| + 1..];
    } else if |m.tenantId| <= |n.tenantId| {
      SharedKey(m, n);
    } else {
      SharedKey(n, m);
    }
  }

  lemma ExtensionHasColon(s: string, t: string)
    requires s + ":" <= t
    ensures ':' in t
  {
    assert t[|s|] == (s + ":")[|s|];
  }

  // Ids without a colon, such as those the database generates, are apart.
  lemma ColonFreeIsApart(ts: set<string>)
    requires forall t :: t in ts ==> ':' !in t
    ensures TenantsApart(ts)
  {
    forall s, t | s in ts && t in ts
      ensures Apart(s, t)
    {
      if s + ":" <= t { ExtensionHasColon(s, t); }
      if t + ":" <= s { ExtensionHasColon(t, s); }
    }
  }

  // With a colon in a tenant id two users can share one key.
  lemma KeysMayCollide()
    ensures Key(Member("a:b", "c")) == Key(Member("a", "b:c")) && Member("a:b", "c") != Member("a", "b:c")
  {
    assert Key(Member("a:b", "c")) == "a:b:c";
  }

  // ---------- The invariant ----------

  function Live(sockets: map<string, Member>, m: Member): set<string> {
    set s | s in sockets && sockets[s] == m
  }

  function Concerns(m: Member): Event -> bool {
    (e: Event) => e.member == m
  }

  function EventsOf(log: seq<Event>, m: Member): seq<Event> {
    Filter(log, Concerns(m))
  }

  // Online and offline take turns, online first.
  ghost predicate Alternates(events: seq<Event>) {
    forall i :: 0 <= i < |events| ==> (events[i].Online? <==> i % 2 == 0)
  }

  // Each entry counts its user's live sockets; the tenants in use are among ts, which are apart.
  ghost predicate Counted(g: Gateway, ts: set<string>) {
    && TenantsApart(ts)
    && (forall i :: 0 <= i < |g.presence| ==> CountsSockets(g, g.presence[i], ts))
    && (forall i, j :: 0 <= i < j < |g.presence| ==> g.presence[i].key != g.presence[j].key)
  }

  ghost predicate CountsSockets(g: Gateway, e: Entry, ts: set<string>) {
    e.key == Key(e.member) && e.member.tenantId in ts && e.count == |Live(g.sockets, e.member)| && e.count >= 1
  }

  ghost predicate HasEntry(presence: seq<Entry>, m: Member) {
    exists i :: 0 <= i < |presence| && presence[i].member == m
  }

  // A user has an entry exactly when it has a live socket, and exactly then the last of its
  // alternating events is online.
  ghost predicate UserOk(g: Gateway, m: Member) {
    && (HasEntry(g.presence, m) <==> Live(g.sockets, m) != {})
    && Alternates(EventsOf(g.log, m))
    && (Live(g.sockets, m) != {} <==> |EventsOf(g.log, m)| % 2 == 1)
  }

  ghost predicate Inv(g: Gateway, ts: set<string>) {
    && Counted(g, ts)
    && (forall s :: s in g.sockets ==> g.sockets[s].tenantId in ts)
    && (forall m: Member {:trigger UserOk(g, m)} :: UserOk(g, m))
  }

  lemma StartsOk(ts: set<string>)
    requires TenantsApart(ts)
    ensures Inv(Gateway([], map[], []), ts)
  {
    forall m: Member
      ensures UserOk(Gateway([], map[], []), m)
    {
    }
  }

  // IndexOf finds the entry of a user, if it has one.
  lemma FindsEntry(g: Gateway, m: Member, ts: set<string>)
    requires Counted(g, ts) && m.tenantId in ts
    ensures var i := IndexOf(g.presence, HasKey(Key(m)));
            (i < |g.presence| <==> HasEntry(g.presence, m)) && (i < |g.presence| ==> g.presence[i].member == m)
  {
    var i := IndexOf(g.presence, HasKey(Key(m)));
    if i < |g.presence| {
      assert CountsSockets(g, g.presence[i], ts);
      KeyIsInjective(g.presence[i].member, m, ts);
    }
    if HasEntry(g.presence, m) {
      var j :| 0 <= j < |g.presence| && g.presence[j].member == m;
      assert CountsSockets(g, g.presence[j], ts);
      assert HasKey(Key(m))(g.presence[j]);
    }
  }

  lemma LiveAfterConnect(sockets: map<string, Member>, socket: string, m: Member, n: Member)
    requires socket !in sockets
    ensures Live(sockets[socket := m], n) == if n == m then Live(sockets, n) + {socket} else Live(sockets, n)
    ensures |Live(sockets[socket := m], m)| == |Live(sockets, m)| + 1
  {
    assert Live(sockets[socket := m], n) == if n == m then Live(sockets, n) + {socket} else Live(sockets, n);
    assert Live(sockets[socket := m], m) == Live(sockets, m) + {socket};
  }

  lemma LiveAfterDisconnect(sockets: map<string, Member>, socket: string, n: Member)
    requires socket in sockets
    ensures var m := sockets[socket];
            Live(sockets - {socket}, n) == if n == m then Live(sockets, n) - {socket} else Live(sockets, n)
    ensures |Live(sockets - {socket}, sockets[socket])| == |Live(sockets, sockets[socket])| - 1
  {
    var m := sockets[socket];
    assert Live(sockets - {socket}, n) == if n == m then Live(sockets, n) - {socket} else Live(sockets, n);
    assert Live(sockets - {socket}, m) == Live(sockets, m) - {socket};
    assert socket in Live(sockets, m);
  }

  lemma EventsAfter(log: seq<Event>, e: Event, m: Member)
    ensures EventsOf(log + [e], m) == if e.member == m then EventsOf(log, m) + [e] else EventsOf(log, m)
  {
    FilterConcat(log, [e], Concerns(m));
  }

  // Only the entry IndexOf finds belongs to the user.
  lemma OneEntryEach(g: Gateway, j: nat, m: Member, ts: set<string>)
    requires Counted(g, ts) && m.tenantId in ts && j < |g.presence|
    ensures g.presence[j].member == m <==> IndexOf(g.presence, HasKey(Key(m))) == j
  {
    var i := IndexOf(g.presence, HasKey(Key(m)));
    FindsEntry(g, m, ts);
    assert CountsSockets(g, g.presence[j], ts);
    if g.presence[j].member == m {
      assert HasKey(Key(m))(g.presence[j]);
      assert i <= j;
    }
  }

  // t is g with one more socket of m: its entry at i counts one more, or is added and announced.
  ghost predicate Connected(g: Gateway, t: Gateway, socket: string, m: Member, i: nat) {
    && socket !in g.sockets && t.sockets == g.sockets[socket := m]
    && i <= |g.presence| && (i < |g.presence| <==> HasEntry(g.presence, m))
    && (i < |g.presence| ==> g.presence[i].member == m)
    && t.presence == (if i < |g.presence| then g.presence[i := g.presence[i].(count := g.presence[i].count + 1)]
                      else g.presence + [Entry(Key(m), 1, m)])
    && t.log == (if i < |g.presence| then g.log else g.log + [Online(m)])
  }

  lemma CountAfterConnect(g: Gateway, t: Gateway, socket: string, m: Member, i: nat, j: nat, ts: set<string>)
    requires Counted(g, ts) && UserOk(g, m) && m.tenantId in ts && Connected(g, t, socket, m, i) && j < |t.presence|
    requires i == IndexOf(g.presence, HasKey(Key(m)))
    ensures CountsSockets(t, t.presence[j], ts) && (j < |g.presence| ==> t.presence[j].key == g.presence[j].key)
  {
    LiveAfterConnect(g.sockets, socket, m, t.presence[j].member);
    if j < |g.presence| {
      assert CountsSockets(g, g.presence[j], ts);
      OneEntryEach(g, j, m, ts);
    }
  }

  lemma CountedAfterConnect(g: Gateway, t: Gateway, socket: string, m: Member, i: nat, ts: set<string>)
    requires Counted(g, ts) && UserOk(g, m) && m.tenantId in ts && Connected(g, t, socket, m, i)
    requires i == IndexOf(g.presence, HasKey(Key(m)))
    ensures Counted(t, ts)
  {
    forall j | 0 <= j < |t.presence|
      ensures CountsSockets(t, t.presence[j], ts) && (j < |g.presence| ==> t.presence[j].key == g.presence[j].key)
    {
      CountAfterConnect(g, t, socket, m, i, j, ts);
    }
  }

  lemma UserAfterConnect(g: Gateway, t: Gateway, socket: string, m: Member, i: nat, n: Member)
    requires UserOk(g, m) && UserOk(g, n) && Connected(g, t, socket, m, i)
    ensures UserOk(t, n)
  {
    LiveAfterConnect(g.sockets, socket, m, n);
    EventsAfter(g.log, Online(m), n);
    EntriesAfterConnect(g, t, i, m, n);
  }

  lemma ConnectKeepsInv(g: Gateway, socket: string, m: Member, ts: set<string>)
    requires Inv(g, ts) && socket !in g.sockets && m.tenantId in ts
    ensures Inv(After(g, Connect(socket, Ready(m))), ts)
  {
    var t := After(g, Connect(socket, Ready(m)));
    var i := IndexOf(g.presence, HasKey(Key(m)));
    FindsEntry(g, m, ts);
    assert UserOk(g, m) && Connected(g, t, socket, m, i);
    CountedAfterConnect(g, t, socket, m, i, ts);
    forall n: Member
      ensures UserOk(t, n)
    {
      assert UserOk(g, n);
      UserAfterConnect(g, t, socket, m, i, n);
    }
  }

  lemma EntriesAfterConnect(g: Gateway, t: Gateway, i: nat, m: Member, n: Member)
    requires i <= |g.presence| && (i < |g.presence| ==> g.presence[i].member == m)
    requires t.presence == if i < |g.presence| then g.presence[i := g.presence[i].(count := g.presence[i].count + 1)]
                           else g.presence + [Entry(Key(m), 1, m)]
    ensures HasEntry(t.presence, n) <==> HasEntry(g.presence, n) || n == m
  {
    if HasEntry(g.presence, n) {
      var j :| 0 <= j < |g.presence| && g.presence[j].member == n;
      assert t.presence[j].member == n;
    }
    if n == m {
      assert t.presence[i].member == n;
    }
    if HasEntry(t.presence, n) && n != m {
      var j :| 0 <= j < |t.presence| && t.presence[j].member == n;
      assert g.presence[j].member == n;
    }
  }

  // t is g with one socket of m less: its entry at i counts one less, or is removed and announced.
  ghost predicate Disconnected(g: Gateway, t: Gateway, socket: string, m: Member, i: nat) {
    && socket in g.sockets && g.sockets[socket] == m && t.sockets == g.sockets - {socket}
    && i < |g.presence| && g.presence[i].member == m
    && t.presence == (if g.presence[i].count == 1 then g.presence[..i] + g.presence[i + 1..]
                      else g.presence[i := g.presence[i].(count := g.presence[i].count - 1)])
    && t.log == (if g.presence[i].count == 1 then g.log + [Offline(m)] else g.log)
  }

  lemma CountAfterDisconnect(g: Gateway, t: Gateway, socket: string, m: Member, i: nat, j: nat, ts: set<string>)
    requires Counted(g, ts) && m.tenantId in ts && Disconnected(g, t, socket, m, i) && j < |t.presence|
    ensures CountsSockets(t, t.presence[j], ts)
    ensures t.presence[j].key == g.presence[if g.presence[i].count == 1 && j >= i then j + 1 else j].key
  {
    var was := if g.presence[i].count == 1 && j >= i then j + 1 else j;
    assert CountsSockets(g, g.presence[was], ts) && CountsSockets(g, g.presence[i], ts);
    LiveAfterDisconnect(g.sockets, socket, g.presence[was].member);
    OneEntryEach(g, was, m, ts);
    OneEntryEach(g, i, m, ts);
  }

  lemma CountedAfterDisconnect(g: Gateway, t: Gateway, socket: string, m: Member, i: nat, ts: set<string>)
    requires Counted(g, ts) && m.tenantId in ts && Disconnected(g, t, socket, m, i)
    ensures Counted(t, ts)
  {
    forall j | 0 <= j < |t.presence|
      ensures CountsSockets(t, t.presence[j], ts)
      ensures t.presence[j].key == g.presence[if g.presence[i].count == 1 && j >= i then j + 1 else j].key
    {
      CountAfterDisconnect(g, t, socket, m, i, j, ts);
    }
  }

  lemma UserAfterDisconnect(g: Gateway, t: Gateway, socket: string, m: Member, i: nat, n: Member, ts: set<string>)
    requires Counted(g, ts) && m.tenantId in ts && UserOk(g, n) && Disconnected(g, t, socket, m, i)
    ensures UserOk(t, n)
  {
    assert CountsSockets(g, g.presence[i], ts);
    assert socket in Live(g.sockets, m);
    LiveAfterDisconnect(g.sockets, socket, n);
    LiveAfterDisconnect(g.sockets, socket, m);
    EventsAfter(g.log, Offline(m), n);
    EntriesAfterDisconnect(g, t, i, m, n, g.presence[i].count == 1, ts);
  }

  lemma DisconnectKeepsInv(g: Gateway, socket: string, ts: set<string>)
    requires Inv(g, ts) && socket in g.sockets
    ensures Inv(After(g, Disconnect(socket)), ts)
  {
    var m := g.sockets[socket];
    var t := After(g, Disconnect(socket));
    var i := IndexOf(g.presence, HasKey(Key(m)));
    FindsEntry(g, m, ts);
    assert UserOk(g, m) && socket in Live(g.sockets, m);
    assert CountsSockets(g, g.presence[i], ts);
    assert Disconnected(g, t, socket, m, i);
    CountedAfterDisconnect(g, t, socket, m, i, ts);
    forall n: Member
      ensures UserOk(t, n)
    {
      assert UserOk(g, n);
      UserAfterDisconnect(g, t, socket, m, i, n, ts);
    }
  }

  // The place an entry had before the entry at i went.
  function Before(i: nat, last: bool, j: nat): nat {
    if last && j >= i then j + 1 else j
  }

  lemma EntryKept(g: Gateway, t: Gateway, i: nat, last: bool, j: nat)
    requires i < |g.presence| && j < |t.presence|
    requires t.presence == if last then g.presence[..i] + g.presence[i + 1..]
                           else g.presence[i := g.presence[i].(count := g.presence[i].count - 1)]
    ensures Before(i, last, j) < |g.presence| && t.presence[j].member == g.presence[Before(i, last, j)].member
  {
  }

  lemma KeptEntries(g: Gateway, t: Gateway, i: nat, n: Member, last: bool)
    requires i < |g.presence| && HasEntry(g.presence, n) && !(last && n == g.presence[i].member)
    requires t.presence == if last then g.presence[..i] + g.presence[i + 1..]
                           else g.presence[i := g.presence[i].(count := g.presence[i].count - 1)]
    ensures HasEntry(t.presence, n)
  {
    var j :| 0 <= j < |g.presence| && g.presence[j].member == n;
    EntryKept(g, t, i, last, if last && j > i then j - 1 else j);
  }

  lemma EntryOfOther(g: Gateway, i: nat, j: nat, m: Member, ts: set<string>)
    requires Counted(g, ts) && m.tenantId in ts && i < |g.presence| && g.presence[i].member == m && j < |g.presence|
    requires j != i
    ensures g.presence[j].member != m
  {
    OneEntryEach(g, j, m, ts);
    OneEntryEach(g, i, m, ts);
  }

  lemma LeftEntries(g: Gateway, t: Gateway, i: nat, m: Member, n: Member, last: bool, ts: set<string>)
    requires Counted(g, ts) && m.tenantId in ts && i < |g.presence| && g.presence[i].member == m
    requires HasEntry(t.presence, n)
    requires t.presence == if last then g.presence[..i] + g.presence[i + 1..]
                           else g.presence[i := g.presence[i].(count := g.presence[i].count - 1)]
    ensures HasEntry(g.presence, n) && !(last && n == m)
  {
    var j :| 0 <= j < |t.presence| && t.presence[j].member == n;
    EntryKept(g, t, i, last, j);
    if Before(i, last, j) != i {
      EntryOfOther(g, i, Before(i, last, j), m, ts);
    }
  }

  lemma EntriesAfterDisconnect(g: Gateway, t: Gateway, i: nat, m: Member, n: Member, last: bool, ts: set<string>)
    requires Counted(g, ts) && m.tenantId in ts && i < |g.presence| && g.presence[i].member == m
    requires t.presence == if last then g.presence[..i] + g.presence[i + 1..]
                           else g.presence[i := g.presence[i].(count := g.presence[i].count - 1)]
    ensures HasEntry(t.presence, n) <==> HasEntry(g.presence, n) && !(last && n == m)
  {
    if HasEntry(t.presence, n) {
      LeftEntries(g, t, i, m, n, last, ts);
    } else if HasEntry(g.presence, n) && !(last && n == m) {
      KeptEntries(g, t, i, n, last);
    }
  }

  predicate OfTenants(step: Step, ts: set<string>) {
    step.Connect? && !step.handshake.Refused? ==> step.handshake.member.tenantId in ts
  }

  // A join that fails after the user was attached takes back a connection that was never
  // counted: the counts stay right exactly when the user has no live socket.
  lemma FailedJoinKeepsInvIff(g: Gateway, socket: string, m: Member, ts: set<string>)
    requires Inv(g, ts) && m.tenantId in ts && socket !in g.sockets
    ensures Inv(After(g, Connect(socket, JoinFailed(m))), ts) <==> Live(g.sockets, m) == {}
  {
    var t := After(g, Connect(socket, JoinFailed(m)));
    var i := IndexOf(g.presence, HasKey(Key(m)));
    FindsEntry(g, m, ts);
    assert UserOk(g, m);
    if i < |g.presence| {
      assert CountsSockets(g, g.presence[i], ts);
      if g.presence[i].count > 1 {
        assert t.presence[i].count == g.presence[i].count - 1 && t.presence[i].member == m;
        assert !CountsSockets(t, t.presence[i], ts);
      } else {
        EventsAfter(g.log, Offline(m), m);
        assert !UserOk(t, m);
      }
    }
  }

  lemma StepKeepsInv(g: Gateway, step: Step, ts: set<string>)
    requires Inv(g, ts) && OfTenants(step, ts)
    requires step.Connect? && step.handshake.JoinFailed? && step.socket !in g.sockets ==>
               Live(g.sockets, step.handshake.member) == {}
    ensures Inv(After(g, step), ts)
  {
    match step
    case Connect(socket, handshake) =>
      if socket !in g.sockets {
        if handshake.Ready? { ConnectKeepsInv(g, socket, handshake.member, ts); }
        if handshake.JoinFailed? { FailedJoinKeepsInvIff(g, socket, handshake.member, ts); }
      }
    case Disconnect(socket) =>
      if socket in g.sockets { DisconnectKeepsInv(g, socket, ts); }
  }

  // Joins fail only for users that have no live socket at that moment.
  predicate FailedJoinsIdle(g: Gateway, steps: seq<Step>)
    decreases |steps|
  {
    steps == [] ||
    ((steps[0].Connect? && steps[0].handshake.JoinFailed? && steps[0].socket !in g.sockets ==>
        Live(g.sockets, steps[0].handshake.member) == {})
     && FailedJoinsIdle(After(g, steps[0]), steps[1..]))
  }

  // Every run of connects and disconnects, with failed joins only of users without live sockets,
  // keeps counts, entries and announcements right.
  lemma {:induction false} RunKeepsInv(g: Gateway, steps: seq<Step>, ts: set<string>)
    requires Inv(g, ts) && FailedJoinsIdle(g, steps)
    requires forall s :: s in steps ==> OfTenants(s, ts)
    ensures Inv(Run(g, steps), ts)
    decreases |steps|
  {
    if steps != [] {
      assert steps[0] in steps;
      StepKeepsInv(g, steps[0], ts);
      RunKeepsInv(After(g, steps[0]), steps[1..], ts);
    }
  }

  // An instance: the second socket of a user fails to join, and the user is announced offline and
  // leaves the list although the first socket is open.
  lemma FailedJoinExample(m: Member)
    ensures var g := Run(Gateway([], map[], []), [Connect("first", Ready(m)), Connect("second", JoinFailed(m))]);
            Live(g.sockets, m) == {"first"} && OnlineUserIds(g, m.tenantId) == [] && g.log == [Online(m), Offline(m)]
  {
    var start := Gateway([], map[], []);
    var one := After(start, Connect("first", Ready(m)));
    assert HasKey(Key(m))(one.presence[0]);
    assert one.presence == [Entry(Key(m), 1, m)];
    var two := After(one, Connect("second", JoinFailed(m)));
    assert [Connect("first", Ready(m)), Connect("second", JoinFailed(m))][1..] == [Connect("second", JoinFailed(m))];
    assert Run(one, [Connect("second", JoinFailed(m))]) == Run(two, []);
    assert two.presence == [];
  }

  // The online list of a tenant names exactly the users with a live socket, each once.
  lemma OnlineListIsExact(g: Gateway, tenant: string, user: string, ts: set<string>)
    requires Inv(g, ts)
    ensures user in OnlineUserIds(g, tenant) <==> Live(g.sockets, Member(tenant, user)) != {}
    ensures NoDuplicates(OnlineUserIds(g, tenant))
  {
    var m := Member(tenant, user);
    var entries := Filter(g.presence, InTenant(tenant));
    assert UserOk(g, m);
    if user in OnlineUserIds(g, tenant) {
      var i :| 0 <= i < |entries| && UserId()(entries[i]) == user;
      FilterMember(g.presence, InTenant(tenant), entries[i]);
      var j :| 0 <= j < |g.presence| && g.presence[j] == entries[i];
      assert g.presence[j].member == m;
    }
    if HasEntry(g.presence, m) {
      var j :| 0 <= j < |g.presence| && g.presence[j].member == m;
      FilterMember(g.presence, InTenant(tenant), g.presence[j]);
      var i :| 0 <= i < |entries| && entries[i] == g.presence[j];
      assert OnlineUserIds(g, tenant)[i] == user;
    }
    DistinctUsers(g, tenant, ts);
  }

  function EntryKey(): Entry -> string {
    (e: Entry) => e.key
  }

  lemma DistinctUsers(g: Gateway, tenant: string, ts: set<string>)
    requires Inv(g, ts)
    ensures NoDuplicates(OnlineUserIds(g, tenant))
  {
    var entries := Filter(g.presence, InTenant(tenant));
    FilterKeepsDistinct(g.presence, InTenant(tenant), EntryKey());
    forall i, j | 0 <= i < j < |entries|
      ensures OnlineUserIds(g, tenant)[i] != OnlineUserIds(g, tenant)[j]
    {
      FilterMember(g.presence, InTenant(tenant), entries[i]);
      FilterMember(g.presence, InTenant(tenant), entries[j]);
      var a :| 0 <= a < |g.presence| && g.presence[a] == entries[i];
      var b :| 0 <= b < |g.presence| && g.presence[b] == entries[j];
      assert CountsSockets(g, g.presence[a], ts) && CountsSockets(g, g.presence[b], ts);
      assert Map(entries, EntryKey())[i] != Map(entries, EntryKey())[j];
    }
  }

  // ---------- RealtimeGateway ----------

  class RealtimeGateway {
    var presence: seq<Entry>
    var sockets: map<string, Member>
    var log: seq<Event>

    constructor ()
      ensures State() == Gateway([], map[], [])
      ensures forall ts :: TenantsApart(ts) ==> Inv(State(), ts)
    {
      presence, sockets, log := [], map[], [];
      new;
      forall ts | TenantsApart(ts)
        ensures Inv(State(), ts)
      {
        StartsOk(ts);
      }
    }

    function State(): Gateway
      reads this
    {
      Gateway(presence, sockets, log)
    }

    method MarkUserOnline(m: Member)
      modifies this
      ensures State() == MarkOnline(old(State()), m)
    {
      var i := IndexOf(presence, HasKey(Key(m)));
      if i < |presence| {
        presence := presence[i := presence[i].(count := presence[i].count + 1)];
        return;
      }
      presence := presence + [Entry(Key(m), 1, m)];
      log := log + [Online(m)];
    }

    method MarkUserOffline(m: Member)
      modifies this
      ensures State() == MarkOffline(old(State()), m)
    {
      var i := IndexOf(presence, HasKey(Key(m)));
      if i >= |presence| {
        return;
      }
      presence := presence[i := presence[i].(count := presence[i].count - 1)];
      if presence[i].count > 0 {
        return;
      }
      presence := presence[..i] + presence[i + 1..];
      log := log + [Offline(m)];
    }

    method HandleConnection(socket: string, handshake: Handshake) returns (online: seq<string>)
      modifies this
      ensures State() == After(old(State()), Connect(socket, handshake))
      ensures socket !in old(sockets) && handshake.Ready? ==>
                online == OnlineUserIds(State(), handshake.member.tenantId)
    {
      online := [];
      if socket in sockets || handshake.Refused? {
        return;
      }
      if handshake.JoinFailed? {
        // the user is attached, the join throws, and the disconnect handler runs for this socket
        sockets := sockets[socket := handshake.member];
        HandleDisconnect(socket);
        return;
      }
      sockets := sockets[socket := handshake.member];
      MarkUserOnline(handshake.member);
      online := OnlineUserIds(State(), handshake.member.tenantId);
    }

    method HandleDisconnect(socket: string)
      modifies this
      ensures State() == After(old(State()), Disconnect(socket))
    {
      if socket in sockets {
        var m := sockets[socket];
        sockets := sockets - {socket};
        MarkUserOffline(m);
      }
    }
  }
}
