/** The notification client (frontend/src/helper/websocket.js): the module-level STOMP client
    and its `subscriptions` table, filled by role when the connection succeeds and emptied on
    disconnect. */
module WebSocket {

  import opened Common
  import opened JsString

  /** The keys of the `subscriptions` object. */
  datatype Topic = Public | UserQueue | Spaces | Contracts

  /** One property of `subscriptions`: its key and the destination the subscription listens on. */
  datatype Entry = Entry(topic: Topic, destination: string)

  /** The table as a JavaScript object holds it: properties in insertion order, each key once. */
  type Table = seq<Entry>

  predicate UniqueTopics(t: Table)
  {
    forall i, j :: 0 <= i < j < |t| ==> t[i].topic != t[j].topic
  }

  function Topics(t: Table): set<Topic>
  {
    if t == [] then {} else {t[0].topic} + Topics(t[1..])
  }

  /** The destination stored under `k`, if any. */
  function Lookup(t: Table, k: Topic): Option<string>
  {
    if t == [] then None
    else if t[0].topic == k then Some(t[0].destination)
    else Lookup(t[1..], k)
  }

  /** `subscriptions.k = s`: overwrite the property in place when it exists, append it
      otherwise. */
  function Put(t: Table, k: Topic, dest: string): (r: Table)
    ensures |r| == if k in Topics(t) then |t| else |t| + 1
  {
    if t == [] then [Entry(k, dest)]
    else if t[0].topic == k then [Entry(k, dest)] + t[1..]
    else [t[0]] + Put(t[1..], k, dest)
  }

  /** The values of the table, in property order. */
  function Destinations(t: Table): (r: seq<string>)
    ensures |r| == |t|
    ensures forall i :: 0 <= i < |t| ==> r[i] == t[i].destination
  {
    if t == [] then [] else [t[0].destination] + Destinations(t[1..])
  }

  lemma {:induction false} LookupIffTopic(t: Table, k: Topic)
    ensures Lookup(t, k).Some? <==> k in Topics(t)
  {
    if t != [] {
      LookupIffTopic(t[1..], k);
    }
  }

  lemma {:induction false} LookupInDestinations(t: Table, k: Topic)
    requires Lookup(t, k).Some?
    ensures Lookup(t, k).value in Destinations(t)
  {
    if t[0].topic != k {
      LookupInDestinations(t[1..], k);
      assert Destinations(t) == [t[0].destination] + Destinations(t[1..]);
    }
  }

  lemma {:induction false} TopicsOfUnique(t: Table)
    requires UniqueTopics(t) && t != []
    ensures UniqueTopics(t[1..]) && t[0].topic !in Topics(t[1..])
  {
    if t[0].topic in Topics(t[1..]) {
      TopicAt(t[1..], t[0].topic);
    }
  }

  lemma {:induction false} TopicAt(t: Table, k: Topic)
    requires k in Topics(t)
    ensures exists i :: 0 <= i < |t| && t[i].topic == k
  {
    if t[0].topic != k {
      TopicAt(t[1..], k);
      var i :| 0 <= i < |t[1..]| && t[1..][i].topic == k;
      assert t[i + 1].topic == k;
    }
  }

  /** `Put` adds its key to the keys and keeps them unique. */
  lemma {:induction false} PutTopics(t: Table, k: Topic, dest: string)
    requires UniqueTopics(t)
    ensures Topics(Put(t, k, dest)) == Topics(t) + {k}
    ensures UniqueTopics(Put(t, k, dest))
  {
    if t != [] {
      TopicsOfUnique(t);
      var r := Put(t, k, dest);
      if t[0].topic == k {
        assert r[1..] == t[1..];
      } else {
        PutTopics(t[1..], k, dest);
        assert r[1..] == Put(t[1..], k, dest);
        assert forall j :: 0 < j < |r| ==> r[j] == r[1..][j - 1];
        forall j | 0 < j < |r| ensures r[j].topic != t[0].topic {
          assert r[1..][j - 1].topic in Topics(r[1..]) by {
            TopicIn(r[1..], j - 1);
          }
        }
      }
    }
  }

  lemma {:induction false} TopicIn(t: Table, i: int)
    requires 0 <= i < |t|
    ensures t[i].topic in Topics(t)
  {
    if i > 0 {
      TopicIn(t[1..], i - 1);
    }
  }

  /** After `Put`, `k` holds the new destination and every other key keeps its own. */
  lemma {:induction false} PutLookup(t: Table, k: Topic, dest: string)
    ensures Lookup(Put(t, k, dest), k) == Some(dest)
    ensures forall k' :: k' != k ==> Lookup(Put(t, k, dest), k') == Lookup(t, k')
  {
    if t != [] && t[0].topic != k {
      PutLookup(t[1..], k, dest);
    }
  }

  const PublicDestination := "/topic/public"
  const SpacesDestination := "/topic/spaces"
  const ContractsDestination := "/topic/contracts"

  function UserDestination(userId: int): string
  {
    "/queue/user." + IntToString(userId)
  }

  /** Two different users listen on two different queues. */
  lemma {:induction false} UserDestinationInjective(a: int, b: int)
    requires UserDestination(a) == UserDestination(b)
    ensures a == b
  {
    var p := "/queue/user.";
    assert UserDestination(a)[|p|..] == IntToString(a);
    assert UserDestination(b)[|p|..] == IntToString(b);
    ParseIntOfIntToString(a);
    ParseIntOfIntToString(b);
  }

  /** The topics `onConnectSuccess` subscribes for the user found in storage: public always, the
      user's queue when the user has a (non-zero) id, then spaces for a tenant, contracts for an
      owner, and both for an administrator. */
  function ExpectedTopics(user: Option<User>): set<Topic>
  {
    {Public}
    + (if user.Some? && user.value.id != 0 then {UserQueue} else {})
    + (if HasRole(user, Tenant) || HasRole(user, Admin) then {Spaces} else {})
    + (if HasRole(user, Owner) || HasRole(user, Admin) then {Contracts} else {})
  }

  function Destination(k: Topic, user: Option<User>): string
  {
    match k
    case Public => PublicDestination
    case UserQueue => if user.Some? then UserDestination(user.value.id) else ""
    case Spaces => SpacesDestination
    case Contracts => ContractsDestination
  }

  /** The role table of `onConnectSuccess`, spelled out per role: a readable unfolding of
      `ExpectedTopics`, not a separate fact. */
  lemma ExpectedTopicsByRole(user: Option<User>)
    ensures Public in ExpectedTopics(user)
    ensures UserQueue in ExpectedTopics(user) <==> user.Some? && user.value.id != 0
    ensures user.None? ==> ExpectedTopics(user) == {Public}
    ensures HasRole(user, Tenant) ==> Spaces in ExpectedTopics(user) && Contracts !in ExpectedTopics(user)
    ensures HasRole(user, Owner) ==> Contracts in ExpectedTopics(user) && Spaces !in ExpectedTopics(user)
    ensures HasRole(user, Admin) ==> Spaces in ExpectedTopics(user) && Contracts in ExpectedTopics(user)
    ensures HasRole(user, OtherRole) ==> Spaces !in ExpectedTopics(user) && Contracts !in ExpectedTopics(user)
  {
  }

  /** The table after the subscribe calls of `onConnectSuccess` on a connected client. */
  function ConnectTable(t: Table, user: Option<User>): Table
  {
    var t1 := Put(t, Public, PublicDestination);
    if user.None? then t1
    else
      var u := user.value;
      var t2 := if u.id != 0 then Put(t1, UserQueue, UserDestination(u.id)) else t1;
      match u.role
      case Tenant => Put(t2, Spaces, SpacesDestination)
      case Owner => Put(t2, Contracts, ContractsDestination)
      case Admin => Put(Put(t2, Spaces, SpacesDestination), Contracts, ContractsDestination)
      case OtherRole => t2
  }

  /** Subscribing one topic, as a step of the connect sequence: the invariant of that
      sequence (keys unique, the keys so far, each on its destination) carries over. */
  lemma {:induction false} PutStep(t: Table, old_t: Table, done: set<Topic>, user: Option<User>, k: Topic)
    requires UniqueTopics(t)
    requires Topics(t) == Topics(old_t) + done
    requires forall k' :: k' in done ==> Lookup(t, k') == Some(Destination(k', user))
    requires forall k' :: k' !in done ==> Lookup(t, k') == Lookup(old_t, k')
    ensures var r := Put(t, k, Destination(k, user));
      && UniqueTopics(r)
      && Topics(r) == Topics(old_t) + (done + {k})
      && (forall k' :: k' in done + {k} ==> Lookup(r, k') == Some(Destination(k', user)))
      && (forall k' :: k' !in done + {k} ==> Lookup(r, k') == Lookup(old_t, k'))
  {
    PutTopics(t, k, Destination(k, user));
    PutLookup(t, k, Destination(k, user));
  }

  /** Whatever the table held before, connecting leaves exactly the expected topics added, each
      on its destination, with keys unique and the other entries as they were. */
  lemma {:induction false} ConnectTableSpec(t: Table, user: Option<User>)
    requires UniqueTopics(t)
    ensures var r := ConnectTable(t, user);
      && UniqueTopics(r)
      && Topics(r) == Topics(t) + ExpectedTopics(user)
      && (forall k :: k in ExpectedTopics(user) ==> Lookup(r, k) == Some(Destination(k, user)))
      && (forall k :: k !in ExpectedTopics(user) ==> Lookup(r, k) == Lookup(t, k))
  {
    PutStep(t, t, {}, user, Public);
    var t1 := Put(t, Public, PublicDestination);
    if user.Some? {
      var u := user.value;
      var t2 := t1;
      var done := {Public};
      if u.id != 0 {
        PutStep(t1, t, done, user, UserQueue);
        t2 := Put(t1, UserQueue, UserDestination(u.id));
        done := done + {UserQueue};
      }
      match u.role
      case Tenant =>
        PutStep(t2, t, done, user, Spaces);
        assert done + {Spaces} == ExpectedTopics(user);
      case Owner =>
        PutStep(t2, t, done, user, Contracts);
        assert done + {Contracts} == ExpectedTopics(user);
      case Admin =>
        PutStep(t2, t, done, user, Spaces);
        var t3 := Put(t2, Spaces, SpacesDestination);
        PutStep(t3, t, done + {Spaces}, user, Contracts);
        assert done + {Spaces} + {Contracts} == ExpectedTopics(user);
      case OtherRole =>
        assert done == ExpectedTopics(user);
    }
  }

  /** The module state: whether `stompClient` is set, whether it reports itself connected, the
      `subscriptions` table, and the destinations unsubscribed so far. */
  class StompSession {
    var hasClient: bool
    var connected: bool
    var subscriptions: Table
    var unsubscribed: seq<string>

    predicate Valid()
      reads this
    {
      UniqueTopics(subscriptions)
    }

    /** The module's initial values: no client and an empty table. */
    constructor ()
      ensures Valid()
      ensures !hasClient && !connected && subscriptions == [] && unsubscribed == []
    {
      hasClient, connected := false, false;
      subscriptions, unsubscribed := [], [];
    }

    /** `connect`: a fresh client that is not yet connected; the table is kept. */
    method Connect()
      modifies this`hasClient, this`connected
      ensures hasClient && !connected
    {
      hasClient, connected := true, false;
    }

    /** One subscribe helper: a no-op unless a connected client exists. */
    method Subscribe(k: Topic, dest: string)
      requires Valid()
      modifies this`subscriptions
      ensures Valid()
      ensures hasClient && connected ==> subscriptions == Put(old(subscriptions), k, dest)
      ensures !(hasClient && connected) ==> subscriptions == old(subscriptions)
    {
      if hasClient && connected {
        PutTopics(subscriptions, k, dest);
        subscriptions := Put(subscriptions, k, dest);
      }
    }

    method SubscribeToPublic()
      requires Valid()
      modifies this`subscriptions
      ensures Valid()
      ensures hasClient && connected ==> subscriptions == Put(old(subscriptions), Public, PublicDestination)
      ensures !(hasClient && connected) ==> subscriptions == old(subscriptions)
    {
      Subscribe(Public, PublicDestination);
    }

    /** Also a no-op for a falsy (zero) id. */
    method SubscribeToUser(userId: int)
      requires Valid()
      modifies this`subscriptions
      ensures Valid()
      ensures hasClient && connected && userId != 0 ==>
        subscriptions == Put(old(subscriptions), UserQueue, UserDestination(userId))
      ensures !(hasClient && connected && userId != 0) ==> subscriptions == old(subscriptions)
    {
      if userId != 0 {
        Subscribe(UserQueue, UserDestination(userId));
      }
    }

    method SubscribeToSpaces()
      requires Valid()
      modifies this`subscriptions
      ensures Valid()
      ensures hasClient && connected ==> subscriptions == Put(old(subscriptions), Spaces, SpacesDestination)
      ensures !(hasClient && connected) ==> subscriptions == old(subscriptions)
    {
      Subscribe(Spaces, SpacesDestination);
    }

    method SubscribeToContracts()
      requires Valid()
      modifies this`subscriptions
      ensures Valid()
      ensures hasClient && connected ==> subscriptions == Put(old(subscriptions), Contracts, ContractsDestination)
      ensures !(hasClient && connected) ==> subscriptions == old(subscriptions)
    {
      Subscribe(Contracts, ContractsDestination);
    }

    /** `onConnectSuccess`, which the client calls once it has marked itself connected, with the
        user found in storage. */
    method OnConnectSuccess(user: Option<User>)
      requires Valid() && hasClient
      modifies this`connected, this`subscriptions
      ensures Valid() && connected
      ensures subscriptions == ConnectTable(old(subscriptions), user)
    {
      connected := true;
      SubscribeToPublic();
      if user.Some? {
        var u := user.value;
        SubscribeToUser(u.id);
        if u.role == Tenant {
          SubscribeToSpaces();
        } else if u.role == Owner {
          SubscribeToContracts();
        } else if u.role == Admin {
          SubscribeToSpaces();
          SubscribeToContracts();
        }
      }
    }

    /** `disconnect`: with a client, unsubscribe every entry in property order, empty the
        table and disconnect; without one, nothing happens. */
    method Disconnect()
      requires Valid()
      modifies this`subscriptions, this`unsubscribed, this`connected
      ensures Valid()
      ensures old(hasClient) ==>
        && unsubscribed == old(unsubscribed) + Destinations(old(subscriptions))
        && subscriptions == [] && !connected
      ensures !old(hasClient) ==>
        unsubscribed == old(unsubscribed) && subscriptions == old(subscriptions) && connected == old(connected)
    {
      if hasClient {
        var i := 0;
        while i < |subscriptions|
          invariant 0 <= i <= |subscriptions|
          invariant subscriptions == old(subscriptions)
          invariant unsubscribed == old(unsubscribed) + Destinations(subscriptions[..i])
        {
          assert subscriptions[..i + 1] == subscriptions[..i] + [subscriptions[i]];
          DestinationsAppend(subscriptions[..i], subscriptions[i]);
          unsubscribed := unsubscribed + [subscriptions[i].destination];
          i := i + 1;
        }
        assert subscriptions[..i] == subscriptions;
        subscriptions := [];
        connected := false;
      }
    }
  }

  lemma DestinationsAppend(t: Table, e: Entry)
    ensures Destinations(t + [e]) == Destinations(t) + [e.destination]
  {
  }

  /** In a table with unique keys there is one entry per key. */
  lemma {:induction false} TopicsCount(t: Table)
    requires UniqueTopics(t)
    ensures |Topics(t)| == |t|
  {
    if t != [] {
      TopicsOfUnique(t);
      TopicsCount(t[1..]);
    }
  }

  /** A session that connects from the initial state: connected, with one subscription per
      expected topic, the public destination among them, and nothing unsubscribed yet. */
  method FirstConnection(user: Option<User>) returns (s: StompSession)
    ensures fresh(s) && s.Valid() && s.hasClient && s.connected && s.unsubscribed == []
    ensures Topics(s.subscriptions) == ExpectedTopics(user)
    ensures |Destinations(s.subscriptions)| == |Topics(s.subscriptions)|
    ensures PublicDestination in Destinations(s.subscriptions)
  {
    s := new StompSession();
    s.Connect();
    s.OnConnectSuccess(user);
    FreshConnectTable(user, s.subscriptions);
  }

  /** A disconnect after the first connection unsubscribes one destination per expected topic,
      the public one among them, and leaves no subscription behind. */
  method ConnectThenDisconnect(user: Option<User>) returns (subscribed: set<Topic>, unsubscribed: seq<string>, left: Table)
    ensures subscribed == ExpectedTopics(user)
    ensures |unsubscribed| == |subscribed|
    ensures PublicDestination in unsubscribed
    ensures left == []
  {
    var s := FirstConnection(user);
    var table := s.subscriptions;
    subscribed := Topics(table);
    s.Disconnect();
    assert s.unsubscribed == [] + Destinations(table);
    unsubscribed, left := s.unsubscribed, s.subscriptions;
  }

  /** The table a first connection builds: one entry per expected topic, the public
      destination among them. */
  lemma FreshConnectTable(user: Option<User>, r: Table)
    requires r == ConnectTable([], user)
    ensures Topics(r) == ExpectedTopics(user)
    ensures |Destinations(r)| == |Topics(r)|
    ensures PublicDestination in Destinations(r)
  {
    ConnectTableSpec([], user);
    TopicsCount(r);
    LookupInDestinations(r, Public);
  }
}

/** The notification list of NotificationCenter (the second half of the same file): newest
    first, at most ten entries, with dismiss and clear. */
module NotificationCenter {

  import opened Seqs

  datatype Notification = Notification(id: int, kind: string, message: string, timestamp: int)

  const MaxNotifications := 10

  function Min(a: int, b: int): int
  {
    if a <= b then a else b
  }

  /** `[notification, ...prev].slice(0, 10)` */
  function Receive(inbox: seq<Notification>, n: Notification): seq<Notification>
  {
    ([n] + inbox)[..Min(MaxNotifications, |inbox| + 1)]
  }

  /** `prev.filter(notification => notification.id !== id)` */
  function Dismiss(inbox: seq<Notification>, id: int): seq<Notification>
  {
    Filter(inbox, (x: Notification) => x.id != id)
  }

  /** The newest entry comes first, the older ones follow in their order, and at most ten are
      kept: the oldest falls off when the list was full. */
  lemma ReceiveSpec(inbox: seq<Notification>, n: Notification)
    ensures var r := Receive(inbox, n);
      && |r| == Min(MaxNotifications, |inbox| + 1)
      && |r| <= MaxNotifications
      && r[0] == n
      && r[1..] == inbox[..|r| - 1]
  {
  }

  /** Receiving into a list that already holds at most ten entries: what `Receive` keeps is the
      first ten of the whole history. */
  lemma {:induction false} ReceiveTruncated(history: seq<Notification>, n: Notification)
    ensures Receive(history[..Min(MaxNotifications, |history|)], n) == ([n] + history)[..Min(MaxNotifications, |history| + 1)]
  {
    var k := Min(MaxNotifications, |history|);
    var r := Receive(history[..k], n);
    var h := ([n] + history)[..Min(MaxNotifications, |history| + 1)];
    assert |r| == |h|;
    forall i | 0 <= i < |r| ensures r[i] == h[i] {
      if i > 0 {
        assert r[i] == history[i - 1];
      }
    }
  }

  function Reverse<T>(s: seq<T>): (r: seq<T>)
    ensures |r| == |s|
  {
    if s == [] then [] else Reverse(s[1..]) + [s[0]]
  }

  /** The list after the notifications `ns` arrive one after another. */
  function ReceiveAll(inbox: seq<Notification>, ns: seq<Notification>): seq<Notification>
    decreases |ns|
  {
    if ns == [] then inbox else ReceiveAll(Receive(inbox, ns[0]), ns[1..])
  }

  /** After a run of arrivals the list is the ten newest of them, newest first, followed by the
      old entries while room is left. */
  lemma {:induction false} ReceiveAllSpec(history: seq<Notification>, ns: seq<Notification>)
    ensures ReceiveAll(history[..Min(MaxNotifications, |history|)], ns) ==
      (Reverse(ns) + history)[..Min(MaxNotifications, |ns| + |history|)]
    decreases |ns|
  {
    if ns == [] {
      assert Reverse(ns) + history == history;
    } else {
      var h' := [ns[0]] + history;
      ReceiveTruncated(history, ns[0]);
      assert Receive(history[..Min(MaxNotifications, |history|)], ns[0]) == h'[..Min(MaxNotifications, |h'|)];
      ReceiveAllSpec(h', ns[1..]);
      assert Reverse(ns) + history == Reverse(ns[1..]) + h';
    }
  }

  /** Dismissing removes every entry with that id and keeps the others in their order. */
  lemma {:induction false} DismissSpec(inbox: seq<Notification>, id: int)
    ensures forall x :: x in Dismiss(inbox, id) ==> x.id != id
    ensures forall x :: x in inbox && x.id != id ==> x in Dismiss(inbox, id)
    ensures IsSubsequence(Dismiss(inbox, id), inbox)
    ensures |Dismiss(inbox, id)| <= |inbox|
  {
    FilterIsSubsequence(inbox, (x: Notification) => x.id != id);
  }

  /** Dismissing an id twice is the same as once. */
  lemma DismissIdempotent(inbox: seq<Notification>, id: int)
    ensures Dismiss(Dismiss(inbox, id), id) == Dismiss(inbox, id)
  {
    FilterIdempotent(inbox, (x: Notification) => x.id != id);
  }

  /** The component's state. */
  class Center {
    var notifications: seq<Notification>
    var connected: bool
    var error: string

    predicate Valid()
      reads this
    {
      |notifications| <= MaxNotifications
    }

    constructor ()
      ensures Valid() && notifications == [] && !connected && error == ""
    {
      notifications, connected, error := [], false, "";
    }

    /** The connected callback. */
    method OnConnected()
      modifies this`connected, this`error
      ensures connected && error == ""
    {
      connected, error := true, "";
    }

    /** The error callback. */
    method OnError()
      modifies this`connected, this`error
      ensures !connected && error == "Failed to connect to notification service"
    {
      connected, error := false, "Failed to connect to notification service";
    }

    /** `handleNotification` */
    method HandleNotification(n: Notification)
      requires Valid()
      modifies this`notifications
      ensures Valid()
      ensures notifications == Receive(old(notifications), n)
    {
      notifications := Receive(notifications, n);
    }

    /** `dismissNotification` */
    method DismissNotification(id: int)
      requires Valid()
      modifies this`notifications
      ensures Valid()
      ensures notifications == Dismiss(old(notifications), id)
    {
      notifications := Dismiss(notifications, id);
    }

    /** `clearNotifications` */
    method ClearNotifications()
      modifies this`notifications
      ensures Valid() && notifications == []
    {
      notifications := [];
    }
  }
}
