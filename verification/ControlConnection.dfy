/**
 * One socket shared by all invocations and credit-windowed subscriptions of
 * the browser client (frontend/src/api/client.ts, `ControlConnection`).
 *
 * Every method is one turn of the event loop, microtasks included. User
 * callbacks are taken not to call back into the connection, and random
 * identifiers not to repeat.
 */
module ControlConnection {
  import opened Foundation

  datatype Phase = Connecting | Open | Closing

  datatype Socket = Socket(number: nat, phase: Phase)

  datatype Message =
    | Invoke(invocation: nat)
    | Cancel(invocation: nat)
    | Subscribe(id: nat)
    | Unsubscribe(id: nat)
    | GrantCredit(id: nat, events: nat)

  /** A start that waits for the event queue: for one connection only, or for whichever is open then. */
  datatype PendingStart = OnConnection(number: nat) | OnAny

  datatype Subscription = Subscription(
    active: bool,
    attempt: nat,
    id: Option<nat>,
    queue: seq<nat>,           // events delivered and not yet handled, by the id they came under
    starts: seq<PendingStart>, // continuations of the event queue that would start it again
    restart: bool,             // a restart timer is pending
    window: nat,
    reconnectOnComplete: bool)

  function Stopped(s: Subscription): Subscription {
    s.(active := false, restart := false, id := None)
  }

  /** Credit granted and events delivered under one subscription id. */
  datatype Account = Account(granted: nat, delivered: nat)

  predicate AllAre(queue: seq<nat>, id: nat) {
    forall i | 0 <= i < |queue| :: queue[i] == id
  }

  /** Credit still open plus events still unhandled stay within the window. */
  predicate WithinWindow(s: Subscription, a: Account) {
    a.delivered <= a.granted && a.granted - a.delivered + |s.queue| <= s.window
  }

  predicate SubscriptionOk(s: Subscription, h: nat, live: bool, byId: map<nat, nat>, accounts: map<nat, Account>) {
    && |s.queue| <= s.window
    && (s.starts != [] ==> s.queue != [] && s.id.None?)
    && (s.restart ==> s.id.None?)
    && (!s.active ==> s.id.None? && !s.restart)
    && (s.id.Some? ==>
          && live && s.id.value in byId && byId[s.id.value] == h
          && AllAre(s.queue, s.id.value)
          && s.id.value in accounts && WithinWindow(s, accounts[s.id.value]))
  }

  lemma OthersStayOk(s: Subscription, k: nat, live: bool, byId: map<nat, nat>, before: map<nat, Account>,
                     after: map<nat, Account>, id: nat)
    requires SubscriptionOk(s, k, live, byId, before) && s.id != Some(id)
    requires after.Keys == before.Keys && forall other | other in before && other != id :: after[other] == before[other]
    ensures SubscriptionOk(s, k, live, byId, after)
  {
  }

  /** The invocations that went out, in the order they were sent. */
  function Invoked(sent: seq<Message>): seq<nat> {
    if sent == [] then []
    else
      var last := sent[|sent| - 1];
      Invoked(sent[..|sent| - 1]) + if last.Invoke? then [last.invocation] else []
  }

  /** Credit that went out under an id. */
  function Granted(sent: seq<Message>, id: nat): nat {
    if sent == [] then 0
    else
      var last := sent[|sent| - 1];
      Granted(sent[..|sent| - 1], id) + if last.GrantCredit? && last.id == id then last.events else 0
  }

  /** The ledger has the credit that went out under this id. */
  predicate BalancesAt(sent: seq<Message>, accounts: map<nat, Account>, id: nat) {
    Granted(sent, id) == if id in accounts then accounts[id].granted else 0
  }

  ghost predicate Balances(sent: seq<Message>, accounts: map<nat, Account>) {
    forall id: nat :: BalancesAt(sent, accounts, id)
  }

  lemma SentOne(sent: seq<Message>, m: Message, id: nat)
    ensures Invoked(sent + [m]) == Invoked(sent) + if m.Invoke? then [m.invocation] else []
    ensures Granted(sent + [m], id) == Granted(sent, id) + if m.GrantCredit? && m.id == id then m.events else 0
  {
    assert (sent + [m])[..|sent|] == sent;
  }

  /** Other messages leave the balances as they are. */
  lemma BalancesWithout(sent: seq<Message>, m: Message, accounts: map<nat, Account>)
    requires Balances(sent, accounts) && !m.GrantCredit?
    ensures Balances(sent + [m], accounts)
    ensures !m.Invoke? ==> Invoked(sent + [m]) == Invoked(sent)
  {
    forall id: nat
      ensures BalancesAt(sent + [m], accounts, id)
    {
      assert BalancesAt(sent, accounts, id);
      SentOne(sent, m, id);
    }
    SentOne(sent, m, 0);
  }

  lemma BalancesWith(sent: seq<Message>, id: nat, events: nat, accounts: map<nat, Account>)
    requires Balances(sent, accounts) && id in accounts
    ensures Balances(sent + [GrantCredit(id, events)],
                     accounts[id := accounts[id].(granted := accounts[id].granted + events)])
    ensures Invoked(sent + [GrantCredit(id, events)]) == Invoked(sent)
  {
    var m, after := GrantCredit(id, events), accounts[id := accounts[id].(granted := accounts[id].granted + events)];
    forall other: nat
      ensures BalancesAt(sent + [m], after, other)
    {
      assert BalancesAt(sent, accounts, other);
      SentOne(sent, m, other);
    }
    SentOne(sent, m, 0);
  }

  /** Accounts with the same grants balance alike; a new one has none. */
  lemma BalancesStill(sent: seq<Message>, before: map<nat, Account>, after: map<nat, Account>)
    requires Balances(sent, before)
    requires forall id | id in before :: id in after && after[id].granted == before[id].granted
    requires forall id | id in after && id !in before :: after[id].granted == 0
    ensures Balances(sent, after)
  {
    forall id: nat
      ensures BalancesAt(sent, after, id)
    {
      assert BalancesAt(sent, before, id);
    }
  }

  /** The subscription starts as soon as a socket is open. */
  predicate WillStart(s: Subscription) {
    s.active && s.queue == [] && !s.restart
  }

  /** The id that is next once the first `h` subscriptions have been started from `id` on. */
  function NextAfter(subs: seq<Subscription>, h: nat, id: nat): nat
    requires h <= |subs|
  {
    if h == 0 then id else NextAfter(subs, h - 1, id) + if WillStart(subs[h - 1]) then 1 else 0
  }

  /** The subscription once the socket is open: running under `id`, or waiting for its queue, or left alone. */
  function OnOpen(s: Subscription, number: nat, id: nat): Subscription {
    if s.active && s.queue != [] then s.(starts := s.starts + [OnConnection(number)])
    else if WillStart(s) then s.(id := Some(id), attempt := s.attempt + 1)
    else s
  }

  predicate StartedAt(was: seq<Subscription>, now: seq<Subscription>, k: nat, number: nat, first: nat)
    requires k < |was| == |now|
  {
    now[k] == OnOpen(was[k], number, NextAfter(was, k, first))
  }

  /** The first `h` subscriptions were started on the connection, the others are as they were. */
  predicate StartedUpTo(was: seq<Subscription>, now: seq<Subscription>, h: nat, number: nat, first: nat)
    requires h <= |was|
  {
    && |now| == |was|
    && (forall k | 0 <= k < h :: StartedAt(was, now, k, number, first))
    && (forall k | h <= k < |was| :: now[k] == was[k])
  }

  lemma StartedOneMore(was: seq<Subscription>, had: seq<Subscription>, now: seq<Subscription>, h: nat, number: nat, first: nat)
    requires h < |was| && StartedUpTo(was, had, h, number, first) && |now| == |had|
    requires forall k | 0 <= k < |now| && k != h :: now[k] == had[k]
    requires StartedAt(was, now, h, number, first)
    ensures StartedUpTo(was, now, h + 1, number, first)
  {
    forall k | 0 <= k < h + 1
      ensures StartedAt(was, now, k, number, first)
    {
      assert k < h ==> StartedAt(was, had, k, number, first);
    }
  }

  /** If this subscription starts, it was subscribed under its own id and granted a full window, in its turn. */
  predicate Announced(was: seq<Subscription>, k: nat, first: nat, before: seq<Message>, sent: seq<Message>)
    requires k < |was|
  {
    var own := NextAfter(was, k, first);
    var at := |before| + 2 * (own - first);
    WillStart(was[k]) ==>
      |before| <= at && at + 1 < |sent| && sent[at] == Subscribe(own) && sent[at + 1] == GrantCredit(own, was[k].window)
  }

  /** Nothing went out but the messages that start the first `h` subscriptions. */
  predicate OpenedUpTo(was: seq<Subscription>, h: nat, first: nat, next: nat, before: seq<Message>, sent: seq<Message>)
    requires h <= |was|
  {
    && first <= next == NextAfter(was, h, first)
    && before <= sent && |sent| == |before| + 2 * (next - first)
    && forall k | 0 <= k < h :: Announced(was, k, first, before, sent)
  }

  lemma OpenNext(was: seq<Subscription>, h: nat, first: nat, next: nat, before: seq<Message>, sent: seq<Message>,
                 next': nat, sent': seq<Message>)
    requires h < |was| && OpenedUpTo(was, h, first, next, before, sent)
    requires if WillStart(was[h])
             then next' == next + 1 && sent' == sent + [Subscribe(next), GrantCredit(next, was[h].window)]
             else next' == next && sent' == sent
    ensures OpenedUpTo(was, h + 1, first, next', before, sent')
  {
    forall k | 0 <= k < h + 1
      ensures Announced(was, k, first, before, sent')
    {
      assert k < h ==> Announced(was, k, first, before, sent);
    }
  }

  /** What went out was invocations only. */
  predicate OnlyInvoked(before: seq<Message>, sent: seq<Message>) {
    before <= sent && forall i | |before| <= i < |sent| :: sent[i].Invoke?
  }

  predicate Distinct(s: seq<nat>) {
    forall i, j | 0 <= i < j < |s| :: s[i] != s[j]
  }

  class Connection {
    var socket: Option<Socket>
    var retry: bool
    var invocations: map<nat, bool> // the registered invocations, and whether each was sent
    var subs: seq<Subscription>
    var byId: map<nat, nat>
    var nextId: nat
    var nextInvocation: nat
    var nextConnection: nat
    var sent: seq<Message>
    var accounts: map<nat, Account> // the server's ledger, kept in step with the messages
    ghost var invoked: seq<nat>
    ghost var settled: seq<nat>

    /** The socket has been opened, so subscriptions may be running on it. */
    predicate Live()
      reads this`socket
    {
      socket.Some? && !socket.value.phase.Connecting?
    }

    predicate Ready()
      reads this`socket
    {
      socket.Some? && socket.value.phase.Open?
    }

    ghost predicate SubscriptionsOk()
      reads this`socket, this`subs, this`byId, this`accounts, this`nextId
    {
      && (forall h | 0 <= h < |subs| :: SubscriptionOk(subs[h], h, Live(), byId, accounts))
      && (forall id | id in byId :: byId[id] < |subs| && subs[byId[id]].id == Some(id))
      && (forall id | id in accounts :: id < nextId)
    }

    /** Every invocation is registered or settled, never both, and was sent at most once. */
    ghost predicate InvocationsOk()
      reads this`invocations, this`invoked, this`settled, this`nextInvocation
    {
      && Distinct(invoked) && Distinct(settled)
      && (forall i | i in invocations :: i < nextInvocation && (invocations[i] <==> i in invoked))
      && (forall i | i in invoked :: i < nextInvocation)
      && (forall i: nat :: i < nextInvocation && i !in invocations <==> i in settled)
    }

    /** The ledgers agree with the messages that went out. */
    ghost predicate LedgersOk()
      reads this`sent, this`accounts, this`invoked
    {
      && invoked == Invoked(sent)
      && Balances(sent, accounts)
    }

    ghost predicate SocketOk()
      reads this`socket, this`nextConnection, this`retry
    {
      (socket.Some? ==> socket.value.number < nextConnection) && (retry ==> socket.None?)
    }

    ghost predicate Valid()
      reads this
    {
      SubscriptionsOk() && InvocationsOk() && LedgersOk() && SocketOk()
    }

    constructor ()
      ensures Valid() && sent == [] && invoked == [] && settled == [] && accounts == map[]
    {
      socket, retry, invocations, subs, byId := None, false, map[], [], map[];
      nextId, nextInvocation, nextConnection, sent := 0, 0, 0, [];
      accounts, invoked, settled := map[], [], [];
    }

    // ---- Sending --------------------------------------------------------

    method Send(m: Message) returns (ok: bool)
      modifies this`sent
      ensures ok == Ready()
      ensures sent == if ok then old(sent) + [m] else old(sent)
    {
      ok := socket.Some? && socket.value.phase.Open?;
      if ok {
        sent := sent + [m];
      }
    }

    /** Sends what neither invokes nor grants credit. */
    method SendControl(m: Message) returns (ok: bool)
      requires Valid() && !m.Invoke? && !m.GrantCredit?
      modifies this`sent
      ensures Valid() && ok == Ready()
      ensures sent == old(sent) + if ok then [m] else []
    {
      BalancesWithout(sent, m, accounts);
      assert sent + [] == sent;
      ok := Send(m);
    }

    /** Grants credit under an id, if the socket is open. */
    method Grant(id: nat, events: nat)
      requires LedgersOk() && id in accounts
      modifies this`sent, this`accounts
      ensures LedgersOk()
      ensures sent == old(sent) + if Ready() then [GrantCredit(id, events)] else []
      ensures accounts == if Ready()
                          then old(accounts)[id := old(accounts)[id].(granted := old(accounts)[id].granted + events)]
                          else old(accounts)
    {
      BalancesWith(sent, id, events, accounts);
      assert sent + [] == sent;
      var ok := Send(GrantCredit(id, events));
      if ok {
        accounts := accounts[id := accounts[id].(granted := accounts[id].granted + events)];
      }
    }

    // ---- Subscriptions --------------------------------------------------

    predicate Startable(h: nat)
      requires h < |subs|
      reads this
    {
      subs[h].active && subs[h].id.None? && !subs[h].restart && Ready()
    }

    /** Subscribes under a new id with a full window, if the subscription is waiting for that. */
    method StartSubscription(h: nat)
      requires Valid() && h < |subs| && subs[h].queue == [] && subs[h].starts == []
      modifies this`subs, this`byId, this`nextId, this`sent, this`accounts
      ensures Valid() && |subs| == |old(subs)|
      ensures forall k | 0 <= k < |subs| && k != h :: subs[k] == old(subs)[k]
      ensures !old(Startable(h)) ==> unchanged(this)
      ensures old(Startable(h)) ==>
                && subs[h] == old(subs)[h].(id := Some(old(nextId)), attempt := old(subs)[h].attempt + 1)
                && sent == old(sent) + [Subscribe(old(nextId)), GrantCredit(old(nextId), subs[h].window)]
                && nextId == old(nextId) + 1
      ensures forall id | id in old(accounts) :: id in accounts && accounts[id] == old(accounts)[id]
      ensures byId.Keys <= old(byId).Keys + {old(nextId)}
    {
      if !subs[h].active || subs[h].id.Some? || subs[h].restart { return; }
      if socket.None? || !socket.value.phase.Open? { return; }
      var id := Register(h);
      Announce(h, id);
    }

    /** Subscribes under the id and grants it a full window. */
    method Announce(h: nat, id: nat)
      requires Valid() && h < |subs| && subs[h].id == Some(id) && subs[h].queue == [] && accounts[id] == Account(0, 0)
      modifies this`sent, this`accounts
      ensures Valid()
      ensures Ready() ==> sent == old(sent) + [Subscribe(id), GrantCredit(id, subs[h].window)]
      ensures accounts.Keys == old(accounts).Keys && forall k | k in accounts && k != id :: accounts[k] == old(accounts)[k]
    {
      var ok := SendControl(Subscribe(id));
      if !ok { return; }
      Credit(h, id, subs[h].window);
    }

    /** Gives the subscription a new id. */
    method Register(h: nat) returns (id: nat)
      requires Valid() && h < |subs| && subs[h].queue == [] && subs[h].starts == [] && Startable(h)
      modifies this`subs, this`byId, this`nextId, this`accounts
      ensures Valid()
      ensures id == old(nextId) && nextId == id + 1 && id !in old(accounts)
      ensures subs == old(subs)[h := old(subs)[h].(id := Some(id), attempt := old(subs)[h].attempt + 1)]
      ensures byId == old(byId)[id := h] && accounts == old(accounts)[id := Account(0, 0)]
    {
      id := nextId;
      nextId := nextId + 1;
      subs := subs[h := subs[h].(id := Some(id), attempt := subs[h].attempt + 1)];
      byId := byId[id := h];
      BalancesStill(sent, accounts, accounts[id := Account(0, 0)]);
      accounts := accounts[id := Account(0, 0)];
    }

    /** Ends a subscription for good; its queued events are still handled, but earn nothing. */
    method StopSubscription(h: nat, sendUnsubscribe: bool)
      requires Valid() && h < |subs|
      modifies this`subs, this`byId, this`sent
      ensures Valid() && |subs| == |old(subs)|
      ensures subs == old(subs)[h := Stopped(old(subs)[h])]
      ensures byId == if old(subs)[h].id.Some? then old(byId) - {old(subs)[h].id.value} else old(byId)
      ensures sent == old(sent) + if old(subs)[h].id.Some? && sendUnsubscribe && Ready()
                                  then [Unsubscribe(old(subs)[h].id.value)] else []
    {
      if !subs[h].active {
        assert subs[h] == Stopped(subs[h]);
        return;
      }
      var id := subs[h].id;
      Deactivate(h);
      if id.None? { return; }
      if sendUnsubscribe {
        var _ := SendControl(Unsubscribe(id.value));
      }
    }

    method Deactivate(h: nat)
      requires Valid() && h < |subs|
      modifies this`subs, this`byId
      ensures Valid()
      ensures subs == old(subs)[h := Stopped(old(subs)[h])]
      ensures byId == if old(subs)[h].id.Some? then old(byId) - {old(subs)[h].id.value} else old(byId)
    {
      var id := subs[h].id;
      subs := subs[h := subs[h].(active := false, restart := false, id := None)];
      if id.Some? {
        byId := byId - {id.value};
      }
    }

    /** Ids that are no longer in use never come back, and keep the credit they had. */
    twostate predicate RetiredFrozen()
      reads this`accounts, this`byId
    {
      forall id | id in old(accounts) && id !in old(byId) ::
        id !in byId && id in accounts && accounts[id] == old(accounts[id])
    }

    predicate IsCurrent(number: nat)
      reads this`socket
    {
      socket.Some? && socket.value.number == number
    }

    /** The server has not used up the credit of this id. */
    predicate HasCredit(id: nat)
      reads this`accounts
    {
      id in accounts && accounts[id].delivered < accounts[id].granted
    }

    /** An event arrives; it joins the queue of the subscription that owns the id, if any. */
    method HandleEvent(number: nat, id: nat)
      requires Valid() && (id in byId ==> HasCredit(id))
      modifies this`subs, this`accounts
      ensures Valid() && RetiredFrozen() && |subs| == |old(subs)|
      ensures !IsCurrent(number) || id !in byId ==> unchanged(this)
      ensures IsCurrent(number) && id in byId ==>
                && subs == old(subs)[byId[id] := old(subs)[byId[id]].(queue := old(subs)[byId[id]].queue + [id])]
                && accounts == old(accounts)[id := old(accounts)[id].(delivered := old(accounts)[id].delivered + 1)]
    {
      if socket.None? || socket.value.number != number || id !in byId { return; }
      var h := byId[id];
      subs := subs[h := subs[h].(queue := subs[h].queue + [id])];
      ghost var before := accounts;
      accounts := accounts[id := accounts[id].(delivered := accounts[id].delivered + 1)];
      BalancesStill(sent, before, accounts);
    }

    /**
     * The handler of the oldest queued event finishes. Success earns one credit
     * if the event's id is still the subscription's, failure ends it.
     */
    method CompleteHandler(h: nat, ok: bool)
      requires Valid() && h < |subs| && subs[h].queue != []
      modifies this`subs, this`byId, this`nextId, this`sent, this`accounts
      ensures Valid() && RetiredFrozen() && |subs| == |old(subs)|
      ensures forall k | 0 <= k < |subs| && k != h :: subs[k] == old(subs)[k]
      ensures subs[h].queue == old(subs)[h].queue[1..]
      ensures subs[h].active == (old(subs)[h].active && ok)
      ensures old(subs)[h].id == Some(old(subs)[h].queue[0]) && ok && Ready() ==>
                sent == old(sent) + [GrantCredit(old(subs)[h].queue[0], 1)]
    {
      var waiting := subs[h].starts;
      SettleEvent(h, ok);
      if subs[h].queue != [] {
        subs := subs[h := subs[h].(starts := waiting)];
      } else {
        DrainStarts(h, waiting);
      }
    }

    /** Takes the oldest event off the queue and settles it, leaving waiting starts aside. */
    method SettleEvent(h: nat, ok: bool)
      requires Valid() && h < |subs| && subs[h].queue != []
      modifies this`subs, this`byId, this`sent, this`accounts
      ensures Valid() && RetiredFrozen() && |subs| == |old(subs)|
      ensures forall k | 0 <= k < |subs| && k != h :: subs[k] == old(subs)[k]
      ensures subs[h].queue == old(subs)[h].queue[1..] && subs[h].starts == [] && subs[h].window == old(subs)[h].window
      ensures subs[h].active == (old(subs)[h].active && ok)
      ensures old(subs)[h].id.None? ==> subs[h].id.None?
      ensures forall id | id in old(accounts) :: id in accounts
      ensures byId.Keys <= old(byId).Keys
      ensures old(subs)[h].id == Some(old(subs)[h].queue[0]) && ok && Ready() ==>
                sent == old(sent) + [GrantCredit(old(subs)[h].queue[0], 1)]
      ensures old(subs)[h].id != Some(old(subs)[h].queue[0]) && ok ==> sent == old(sent) && accounts == old(accounts)
    {
      var id := TakeEvent(h);
      if ok {
        if subs[h].active && subs[h].id == Some(id) {
          Credit(h, id, 1);
        }
      } else if subs[h].active {
        StopSubscription(h, true);
      }
    }

    method TakeEvent(h: nat) returns (id: nat)
      requires Valid() && h < |subs| && subs[h].queue != []
      modifies this`subs
      ensures Valid() && id == old(subs)[h].queue[0]
      ensures subs == old(subs)[h := old(subs)[h].(queue := old(subs)[h].queue[1..], starts := [])]
    {
      id := subs[h].queue[0];
      subs := subs[h := subs[h].(queue := subs[h].queue[1..], starts := [])];
    }

    /** Grants credit that leaves the subscription within its window. */
    method Credit(h: nat, id: nat, events: nat)
      requires Valid() && h < |subs| && subs[h].id == Some(id)
      requires accounts[id].granted - accounts[id].delivered + |subs[h].queue| + events <= subs[h].window
      modifies this`sent, this`accounts
      ensures Valid()
      ensures sent == old(sent) + if Ready() then [GrantCredit(id, events)] else []
      ensures accounts.Keys == old(accounts).Keys && forall k | k in accounts && k != id :: accounts[k] == old(accounts)[k]
    {
      ghost var before := accounts;
      Grant(id, events);
      forall k | 0 <= k < |subs|
        ensures SubscriptionOk(subs[k], k, Live(), byId, accounts)
      {
        assert old(SubscriptionOk(subs[k], k, Live(), byId, accounts));
        if k != h {
          assert subs[k].id != Some(id);
          OthersStayOk(subs[k], k, Live(), byId, before, accounts, id);
        }
      }
    }

    /** Runs the starts that waited for the queue, in order; at most one takes effect. */
    method DrainStarts(h: nat, waiting: seq<PendingStart>)
      requires Valid() && h < |subs| && subs[h].queue == [] && subs[h].starts == []
      modifies this`subs, this`byId, this`nextId, this`sent, this`accounts
      ensures Valid() && |subs| == |old(subs)|
      ensures forall k | 0 <= k < |subs| && k != h :: subs[k] == old(subs)[k]
      ensures subs[h].queue == [] && subs[h].active == old(subs)[h].active
      ensures old(subs)[h].id.Some? || waiting == [] ==> unchanged(this)
      ensures forall id | id in old(accounts) :: id in accounts && accounts[id] == old(accounts)[id]
      ensures RetiredFrozen()
    {
      for i := 0 to |waiting|
        invariant Valid() && |subs| == |old(subs)| && subs[h].queue == [] && subs[h].starts == []
        invariant forall k | 0 <= k < |subs| && k != h :: subs[k] == old(subs)[k]
        invariant subs[h].active == old(subs)[h].active
        invariant old(subs)[h].id.Some? || i == 0 ==> unchanged(this)
        invariant forall id | id in old(accounts) :: id in accounts && accounts[id] == old(accounts)[id]
        invariant RetiredFrozen()
      {
        if waiting[i].OnAny? || (socket.Some? && socket.value.number == waiting[i].number) {
          StartSubscription(h);
        }
      }
    }

    /** Starts the subscription once its queue is empty. */
    method StartAfterQueue(h: nat, start: PendingStart)
      requires Valid() && h < |subs| && subs[h].id.None? && (start.OnConnection? ==> IsCurrent(start.number))
      modifies this`subs, this`byId, this`nextId, this`sent, this`accounts
      ensures Valid() && |subs| == |old(subs)|
      ensures forall k | 0 <= k < |subs| && k != h :: subs[k] == old(subs)[k]
      ensures forall id | id in old(accounts) :: id in accounts && accounts[id] == old(accounts)[id]
      ensures RetiredFrozen()
      ensures old(subs)[h].queue != [] ==>
                && subs[h] == old(subs)[h].(starts := old(subs)[h].starts + [start])
                && sent == old(sent) && nextId == old(nextId)
      ensures old(subs)[h].queue == [] && old(Startable(h)) ==>
                && subs[h] == old(subs)[h].(id := Some(old(nextId)), attempt := old(subs)[h].attempt + 1)
                && sent == old(sent) + [Subscribe(old(nextId)), GrantCredit(old(nextId), subs[h].window)]
                && nextId == old(nextId) + 1
      ensures old(subs)[h].queue == [] && !old(Startable(h)) ==> unchanged(this)
    {
      if subs[h].queue == [] {
        StartSubscription(h);
      } else {
        subs := subs[h := subs[h].(starts := subs[h].starts + [start])];
      }
    }

    method HandleCompleted(number: nat, id: nat)
      requires Valid()
      modifies this`subs, this`byId, this`sent
      ensures Valid() && RetiredFrozen() && |subs| == |old(subs)|
      ensures !IsCurrent(number) || id !in old(byId) ==> unchanged(this)
      ensures IsCurrent(number) && id in old(byId) ==>
                var h := old(byId)[id];
                && byId == old(byId) - {id} && sent == old(sent)
                && subs == old(subs)[h := if old(subs)[h].reconnectOnComplete
                                          then old(subs)[h].(id := None, restart := true)
                                          else old(subs)[h].(id := None, active := false)]
    {
      if socket.None? || socket.value.number != number || id !in byId { return; }
      var h := Retire(id);
      if subs[h].reconnectOnComplete {
        AwaitRestart(h);
      } else {
        StopSubscription(h, false);
      }
    }

    /** Sets the timer after which the subscription starts again. */
    method AwaitRestart(h: nat)
      requires Valid() && h < |subs| && subs[h].active && subs[h].id.None?
      modifies this`subs
      ensures Valid() && subs == old(subs)[h := old(subs)[h].(restart := true)]
    {
      subs := subs[h := subs[h].(restart := true)];
    }

    /** Takes the id off its subscription. */
    method Retire(id: nat) returns (h: nat)
      requires Valid() && id in byId
      modifies this`subs, this`byId
      ensures Valid() && h == old(byId)[id] && h < |subs|
      ensures byId == old(byId) - {id} && subs == old(subs)[h := old(subs)[h].(id := None)]
      ensures !subs[h].restart && old(subs)[h].active
    {
      h := byId[id];
      byId := byId - {id};
      subs := subs[h := subs[h].(id := None)];
    }

    method HandleFailed(number: nat, id: nat)
      requires Valid()
      modifies this`subs, this`byId, this`sent
      ensures Valid() && RetiredFrozen() && |subs| == |old(subs)|
      ensures !IsCurrent(number) || id !in old(byId) ==> unchanged(this)
      ensures IsCurrent(number) && id in old(byId) ==>
                var h := old(byId)[id];
                && byId == old(byId) - {id} && sent == old(sent)
                && subs == old(subs)[h := Stopped(old(subs)[h])]
    {
      if socket.None? || socket.value.number != number || id !in byId { return; }
      StopSubscription(byId[id], false);
    }

    /** A restart timer fires. */
    method RestartFired(h: nat, opens: bool)
      requires Valid() && h < |subs| && subs[h].restart
      modifies this
      ensures Valid() && RetiredFrozen() && |subs| == |old(subs)|
      ensures forall k | 0 <= k < |subs| && k != h :: subs[k] == old(subs)[k]
      ensures var was := old(subs)[h].(restart := false);
              if !old(Ready()) then subs[h] == was && sent == old(sent)
              else if was.queue != [] then subs[h] == was.(starts := was.starts + [OnAny]) && sent == old(sent)
              else && subs[h] == was.(id := Some(old(nextId)), attempt := was.attempt + 1)
                   && sent == old(sent) + [Subscribe(old(nextId)), GrantCredit(old(nextId), was.window)]
    {
      subs := subs[h := subs[h].(restart := false)];
      if socket.Some? && socket.value.phase.Open? {
        StartAfterQueue(h, OnAny);
      } else {
        EnsureConnected(opens);
      }
    }

    method AddSubscription(window: nat, reconnectOnComplete: bool, opens: bool) returns (h: nat)
      requires Valid()
      modifies this
      ensures Valid() && RetiredFrozen()
      ensures h == |old(subs)| && |subs| == h + 1 && subs[..h] == old(subs)
      ensures old(Ready()) ==>
                && subs[h] == Subscription(true, 1, Some(old(nextId)), [], [], false, window, reconnectOnComplete)
                && sent == old(sent) + [Subscribe(old(nextId)), GrantCredit(old(nextId), window)]
      ensures !old(Ready()) ==>
                && subs[h] == Subscription(true, 0, None, [], [], false, window, reconnectOnComplete)
                && sent == old(sent)
    {
      h := |subs|;
      subs := subs + [Subscription(true, 0, None, [], [], false, window, reconnectOnComplete)];
      if socket.Some? && socket.value.phase.Open? {
        StartSubscription(h);
      } else {
        EnsureConnected(opens);
      }
    }

    // ---- The socket -----------------------------------------------------

    method EnsureConnected(opens: bool)
      requires Valid()
      modifies this`socket, this`retry, this`nextConnection, this`invocations, this`settled
      ensures Valid() && nextInvocation == old(nextInvocation)
      ensures old(socket.Some?) ==> socket == old(socket)
      ensures old(socket.Some? || retry) ==> unchanged(this)
      ensures old(socket.None?) ==> !Live()
      ensures old(socket.None? && !retry) && opens ==> socket == Some(Socket(old(nextConnection), Connecting))
      ensures old(socket.None? && !retry) && !opens ==> socket.None? && invocations == map[]
      ensures invocations.Keys <= old(invocations).Keys
    {
      if socket.Some? || retry { return; }
      Connect(opens);
    }

    /** Opens a socket, or fails everything registered if none can be created. */
    method Connect(opens: bool)
      requires Valid() && socket.None? && !retry
      modifies this`socket, this`retry, this`nextConnection, this`invocations, this`settled
      ensures Valid() && !Live()
      ensures opens ==> socket == Some(Socket(old(nextConnection), Connecting)) && invocations == old(invocations)
      ensures !opens ==> socket.None? && invocations == map[] && retry == AnyActive()
      ensures opens ==> !retry
      ensures invocations.Keys <= old(invocations).Keys
    {
      if !opens {
        FailInvocations();
        ScheduleReconnect();
        return;
      }
      socket := Some(Socket(nextConnection, Connecting));
      nextConnection := nextConnection + 1;
    }

    predicate AnyActive()
      reads this`subs
    {
      exists h | 0 <= h < |subs| :: subs[h].active
    }

    method HasActive() returns (yes: bool)
      ensures yes == AnyActive()
    {
      for h := 0 to |subs|
        invariant forall k | 0 <= k < h :: !subs[k].active
      {
        if subs[h].active { return true; }
      }
      return false;
    }

    method ScheduleReconnect()
      modifies this`retry
      ensures retry == (old(retry) || (socket.None? && AnyActive()))
    {
      if socket.Some? || retry { return; }
      retry := HasActive();
    }

    method RetryFired(opens: bool)
      requires Valid() && retry
      modifies this`socket, this`retry, this`nextConnection, this`invocations, this`settled
      ensures Valid()
      ensures AnyActive() && opens ==> socket == Some(Socket(old(nextConnection), Connecting)) && !retry
      ensures AnyActive() && !opens ==> socket.None? && retry && invocations == map[]
      ensures !AnyActive() ==> socket.None? && !retry
    {
      retry := false;
      var active := HasActive();
      if active {
        Connect(opens);
      }
    }

    /** The socket opens: what was not sent yet is sent, and subscriptions start once their queues are empty. */
    method HandleOpen(number: nat)
      requires Valid() && (IsCurrent(number) ==> socket.value.phase.Connecting?)
      modifies this
      ensures Valid() && RetiredFrozen() && |subs| == |old(subs)|
      ensures !old(IsCurrent(number)) ==> unchanged(this)
      ensures old(IsCurrent(number)) ==>
                && Ready() && IsCurrent(number)
                && (forall i | i in invocations :: invocations[i])
                && invocations.Keys == old(invocations).Keys && settled == old(settled)
                && StartedUpTo(old(subs), subs, |subs|, number, old(nextId))
                && old(nextId) <= nextId && 2 * (nextId - old(nextId)) <= |sent|
                && (var pending := sent[..|sent| - 2 * (nextId - old(nextId))];
                    && OnlyInvoked(old(sent), pending)
                    && OpenedUpTo(old(subs), |subs|, old(nextId), nextId, pending, sent))
    {
      if socket.None? || socket.value.number != number { return; }
      socket := Some(Socket(number, Open));
      SendPending();
      ghost var pending := sent;
      StartAll(number);
      assert sent[..|pending|] == pending;
    }

    /** Starts every active subscription, each once its queue is empty. */
    method StartAll(number: nat)
      requires Valid() && IsCurrent(number) && Ready() && forall k | 0 <= k < |subs| :: subs[k].id.None?
      modifies this`subs, this`byId, this`nextId, this`sent, this`accounts
      ensures Valid() && RetiredFrozen() && |subs| == |old(subs)|
      ensures StartedUpTo(old(subs), subs, |subs|, number, old(nextId))
      ensures OpenedUpTo(old(subs), |subs|, old(nextId), nextId, old(sent), sent)
    {
      ghost var was, first, before := subs, nextId, sent;
      var h := 0;
      while h < |subs|
        invariant 0 <= h <= |was| == |subs| && Valid() && RetiredFrozen()
        invariant StartedUpTo(was, subs, h, number, first) && OpenedUpTo(was, h, first, nextId, before, sent)
        invariant forall id | id in old(accounts) :: id in accounts && accounts[id] == old(accounts)[id]
      {
        StartInTurn(h, number, was, first, before);
        h := h + 1;
      }
    }

    method StartInTurn(h: nat, number: nat, ghost was: seq<Subscription>, ghost first: nat, ghost before: seq<Message>)
      requires Valid() && IsCurrent(number) && Ready() && h < |was| && was[h].id.None?
      requires StartedUpTo(was, subs, h, number, first) && OpenedUpTo(was, h, first, nextId, before, sent)
      modifies this`subs, this`byId, this`nextId, this`sent, this`accounts
      ensures Valid() && RetiredFrozen()
      ensures StartedUpTo(was, subs, h + 1, number, first) && OpenedUpTo(was, h + 1, first, nextId, before, sent)
      ensures forall id | id in old(accounts) :: id in accounts && accounts[id] == old(accounts)[id]
    {
      ghost var had, next, messages := subs, nextId, sent;
      StartNext(h, number);
      OpenNext(was, h, first, next, before, messages, nextId, sent);
      StartedOneMore(was, had, subs, h, number, first);
    }

    /** Starts one subscription on the socket that just opened, unless it is not active. */
    method StartNext(h: nat, number: nat)
      requires Valid() && IsCurrent(number) && Ready() && h < |subs| && subs[h].id.None?
      modifies this`subs, this`byId, this`nextId, this`sent, this`accounts
      ensures Valid() && RetiredFrozen() && |subs| == |old(subs)|
      ensures forall k | 0 <= k < |subs| && k != h :: subs[k] == old(subs)[k]
      ensures subs[h] == OnOpen(old(subs)[h], number, old(nextId))
      ensures forall id | id in old(accounts) :: id in accounts && accounts[id] == old(accounts)[id]
      ensures if WillStart(old(subs)[h])
              then && nextId == old(nextId) + 1
                   && sent == old(sent) + [Subscribe(old(nextId)), GrantCredit(old(nextId), old(subs)[h].window)]
              else nextId == old(nextId) && sent == old(sent)
    {
      if subs[h].active {
        StartAfterQueue(h, OnConnection(number));
      }
    }

    /** The socket stops taking messages; its close event is still to come. */
    method SocketClosing()
      requires Valid()
      modifies this`socket
      ensures Valid() && !Ready()
      ensures old(socket.Some?) ==> socket.Some? && socket.value.number == old(socket).value.number
    {
      if socket.Some? {
        socket := Some(socket.value.(phase := Closing));
      }
    }

    method HandleError(number: nat)
      requires Valid()
      modifies this`invocations, this`settled
      ensures Valid()
      ensures IsCurrent(number) ==> invocations == map[]
      ensures !IsCurrent(number) ==> unchanged(this)
    {
      if socket.None? || socket.value.number != number { return; }
      FailInvocations();
    }

    /** The socket is gone: no id is current any more, and every open invocation fails. */
    method HandleClose(number: nat)
      requires Valid()
      modifies this`socket, this`retry, this`byId, this`subs, this`invocations, this`settled
      ensures Valid() && |subs| == |old(subs)|
      ensures !old(IsCurrent(number)) ==> unchanged(this)
      ensures old(IsCurrent(number)) ==>
                && socket.None? && byId == map[] && invocations == map[]
                && (forall h | 0 <= h < |subs| :: subs[h] == old(subs)[h].(id := None, restart := false))
    {
      if socket.None? || socket.value.number != number { return; }
      socket := None;
      byId := map[];
      subs := seq(|subs|, h requires 0 <= h < |subs| reads this => subs[h].(id := None, restart := false));
      FailInvocations();
      ScheduleReconnect();
    }

    // ---- Invocations ----------------------------------------------------

    /** Registers a new invocation and sends it if the socket is open. */
    method ExecuteInvocation(aborted: bool, opens: bool) returns (i: nat)
      requires Valid()
      modifies this
      ensures Valid() && unchanged(this`subs) && unchanged(this`accounts) && unchanged(this`byId)
      ensures i == old(nextInvocation) && nextInvocation == i + 1
      ensures i in settled || i in invocations
      ensures aborted ==> i in settled && i !in invoked && sent == old(sent)
      ensures !aborted && old(Ready()) ==> sent == old(sent) + [Invoke(i)] && i in invocations && invocations[i]
      ensures !old(Ready()) ==> sent == old(sent)
    {
      i := RegisterInvocation();
      if aborted {
        Abort(i);
        return;
      }
      Dispatch(i, opens);
    }

    /** Sends a new invocation if the socket is open, and sees to a connection if there is none. */
    method Dispatch(i: nat, opens: bool)
      requires Valid() && i in invocations && !invocations[i]
      modifies this
      ensures Valid() && unchanged(this`subs) && unchanged(this`accounts) && unchanged(this`byId)
      ensures nextInvocation == old(nextInvocation) && (i in settled || i in invocations)
      ensures old(Ready()) ==> sent == old(sent) + [Invoke(i)] && i in invocations && invocations[i]
      ensures !old(Ready()) ==> sent == old(sent)
    {
      EnsureConnected(opens);
      SendInvocation(i);
    }

    method RegisterInvocation() returns (i: nat)
      requires InvocationsOk()
      modifies this`invocations, this`nextInvocation
      ensures InvocationsOk() && i == old(nextInvocation) && nextInvocation == i + 1
      ensures i !in old(invocations) && invocations == old(invocations)[i := false]
    {
      i := nextInvocation;
      nextInvocation := nextInvocation + 1;
      invocations := invocations[i := false];
    }

    method SendInvocation(i: nat)
      requires Valid()
      modifies this`invocations, this`sent, this`invoked
      ensures Valid() && invocations.Keys == old(invocations).Keys
      ensures i in invocations && Ready() ==> invocations[i]
      ensures i in old(invocations) && !old(invocations)[i] && Ready() ==>
                && sent == old(sent) + [Invoke(i)] && invoked == old(invoked) + [i]
                && invocations == old(invocations)[i := true]
      ensures !(i in old(invocations) && !old(invocations)[i] && Ready()) ==> unchanged(this)
    {
      if i !in invocations || invocations[i] { return; }
      BalancesWithout(sent, Invoke(i), accounts);
      SentOne(sent, Invoke(i), 0);
      var ok := Send(Invoke(i));
      MarkSent(i, ok);
      if !ok {
        assert sent == old(sent) && invoked == old(invoked);
      }
    }

    method MarkSent(i: nat, ok: bool)
      requires InvocationsOk() && i in invocations && !invocations[i]
      modifies this`invocations, this`invoked
      ensures InvocationsOk()
      ensures invocations == old(invocations)[i := ok]
      ensures !ok ==> invocations == old(invocations)
      ensures invoked == old(invoked) + if ok then [i] else []
    {
      invocations := invocations[i := ok];
      if ok {
        invoked := invoked + [i];
      }
    }

    method SendPending()
      requires Valid() && Ready()
      modifies this`invocations, this`sent, this`invoked
      ensures Valid() && invocations.Keys == old(invocations).Keys
      ensures forall i | i in invocations :: invocations[i]
      ensures OnlyInvoked(old(sent), sent)
    {
      for i := 0 to nextInvocation
        invariant Valid() && invocations.Keys == old(invocations).Keys && OnlyInvoked(old(sent), sent)
        invariant forall k | k in invocations && k < i :: invocations[k]
      {
        SendInvocation(i);
      }
    }

    method FinishInvocation(i: nat)
      requires Valid()
      modifies this`invocations, this`settled
      ensures Valid() && invocations == old(invocations) - {i}
      ensures settled == old(settled) + if i in old(invocations) then [i] else []
    {
      if i !in invocations { return; }
      invocations := invocations - {i};
      settled := settled + [i];
    }

    method FailInvocations()
      requires Valid()
      modifies this`invocations, this`settled
      ensures Valid() && invocations == map[]
    {
      for i := 0 to nextInvocation
        invariant Valid()
        invariant forall k | k in invocations :: i <= k
      {
        FinishInvocation(i);
      }
    }

    method Abort(i: nat)
      requires Valid()
      modifies this`invocations, this`settled, this`sent
      ensures Valid() && invocations == old(invocations) - {i}
      ensures settled == old(settled) + if i in old(invocations) then [i] else []
      ensures sent == old(sent) + if i in old(invocations) && old(invocations)[i] && Ready() then [Cancel(i)] else []
    {
      if i !in invocations { return; }
      if invocations[i] {
        var _ := SendControl(Cancel(i));
      }
      FinishInvocation(i);
    }

    /** A completion, failure or cancellation arrives. */
    method HandleRpc(number: nat, i: nat)
      requires Valid()
      modifies this`invocations, this`settled
      ensures Valid()
      ensures IsCurrent(number) ==>
                && invocations == old(invocations) - {i}
                && settled == old(settled) + if i in old(invocations) then [i] else []
      ensures !IsCurrent(number) ==> unchanged(this)
    {
      if socket.None? || socket.value.number != number { return; }
      FinishInvocation(i);
    }
  }

  // ---- Every interleaving -----------------------------------------------

  datatype Action =
    | DoSubscribe(window: nat, reconnectOnComplete: bool, opens: bool)
    | DoUnsubscribe(h: nat)
    | DoExecute(aborted: bool, opens: bool)
    | DoAbort(i: nat)
    | EventArrives(number: nat, id: nat)
    | CompletedArrives(number: nat, id: nat)
    | FailedArrives(number: nat, id: nat)
    | ReplyArrives(number: nat, i: nat)
    | HandlerEnds(h: nat, ok: bool)
    | RestartTimer(h: nat, opens: bool)
    | RetryTimer(opens: bool)
    | SocketOpens(number: nat)
    | SocketCloses(number: nat)
    | SocketStopsSending
    | SocketErrs(number: nat)

  /** One turn, if it can happen; a server sends events only within the credit it was granted. */
  method Turn(c: Connection, a: Action)
    requires c.Valid()
    requires a.EventArrives? && a.id in c.byId ==> c.HasCredit(a.id)
    modifies c
    ensures c.Valid() && |old(c.subs)| <= |c.subs|
    ensures c.RetiredFrozen()
  {
    match a {
      case DoSubscribe(_, _, _) => CallerTurn(c, a);
      case DoUnsubscribe(_) => CallerTurn(c, a);
      case DoExecute(_, _) => CallerTurn(c, a);
      case DoAbort(_) => CallerTurn(c, a);
      case HandlerEnds(_, _) => CallerTurn(c, a);
      case EventArrives(number, id) => c.HandleEvent(number, id);
      case CompletedArrives(number, id) => c.HandleCompleted(number, id);
      case FailedArrives(number, id) => c.HandleFailed(number, id);
      case ReplyArrives(number, i) => c.HandleRpc(number, i);
      case _ => SocketTurn(c, a);
    }
  }

  /** A turn in which the caller acts or an event handler ends; any other action does nothing here. */
  method CallerTurn(c: Connection, a: Action)
    requires c.Valid()
    modifies c
    ensures c.Valid() && |old(c.subs)| <= |c.subs|
    ensures c.RetiredFrozen()
  {
    match a {
      case DoSubscribe(window, again, opens) => var _ := c.AddSubscription(window, again, opens);
      case DoUnsubscribe(h) => if h < |c.subs| { c.StopSubscription(h, true); }
      case DoExecute(aborted, opens) => var _ := c.ExecuteInvocation(aborted, opens);
      case DoAbort(i) => c.Abort(i);
      case HandlerEnds(h, ok) => if h < |c.subs| && c.subs[h].queue != [] { c.CompleteHandler(h, ok); }
      case _ =>
    }
  }

  /** A turn of the socket or of a timer; any other action does nothing here. */
  method SocketTurn(c: Connection, a: Action)
    requires c.Valid()
    modifies c
    ensures c.Valid() && |old(c.subs)| <= |c.subs|
    ensures c.RetiredFrozen()
  {
    match a {
      case RestartTimer(h, opens) => if h < |c.subs| && c.subs[h].restart { c.RestartFired(h, opens); }
      case RetryTimer(opens) => if c.retry { c.RetryFired(opens); }
      case SocketOpens(number) =>
        if c.socket.Some? && c.socket.value.phase.Connecting? { c.HandleOpen(number); }
      case SocketCloses(number) => c.HandleClose(number);
      case SocketStopsSending => c.SocketClosing();
      case SocketErrs(number) => c.HandleError(number);
      case _ =>
    }
  }

  /**
   * Any number of turns in any order. `Valid` holds throughout: no subscription
   * has more unhandled events than its window, ids and subscriptions agree one
   * to one, and no invocation is sent or settled twice.
   */
  method Interleave(actions: seq<Action>) returns (c: Connection)
    ensures fresh(c) && c.Valid()
    ensures forall h | 0 <= h < |c.subs| :: |c.subs[h].queue| <= c.subs[h].window
    ensures Distinct(Invoked(c.sent)) && Distinct(c.settled)
    ensures forall id | id in c.byId :: c.byId[id] < |c.subs| && c.subs[c.byId[id]].id == Some(id)
    ensures forall h | 0 <= h < |c.subs| && c.subs[h].id.Some? ::
              c.subs[h].id.value in c.byId && c.byId[c.subs[h].id.value] == h
  {
    c := new Connection();
    Continue(c, actions);
  }

  /** More turns from any state: what holds goes on to hold, and ids that are retired by then stay so. */
  method Continue(c: Connection, actions: seq<Action>)
    requires c.Valid()
    modifies c
    ensures c.Valid() && |old(c.subs)| <= |c.subs|
    ensures c.RetiredFrozen()
  {
    for n := 0 to |actions|
      invariant c.Valid() && |old(c.subs)| <= |c.subs|
      invariant c.RetiredFrozen()
    {
      var a := actions[n];
      if !a.EventArrives? || a.id !in c.byId || c.HasCredit(a.id) {
        Turn(c, a);
      }
    }
  }
}
