/**
 Waiters for RabbitMQ messages.  The manager lock covers registering, the two halves of
 a removal and closing; routing a message takes only the consumer's lock, so it may run
 between the two halves of a removal.
 */
module WaitManager {
  import opened Wrappers

  type WaiterId = nat

  type ConsumerId = nat

  datatype Key = Key(url: string, queue: string)

  /** `fields` maps a dotted path to its printed value; an absent path reads as the empty string. */
  datatype Message = Message(tag: nat, fields: map<string, string>)

  /**
   `home` is the consumer the waiter was registered with, `box` its one-slot channel and
   `got` everything ever sent on it.  An unregistered waiter was returned a closed channel.
   */
  datatype Waiter = Waiter(
    key: Key, field: string, value: string, live: bool,
    registered: bool, home: ConsumerId, cleaned: bool, box: Option<Message>, got: seq<Message>)

  datatype Loop = Receiving | Throttled | Stopped

  datatype Consumer = Consumer(waiters: seq<WaiterId>, cancelled: bool, loop: Loop)

  /** `acks` and `nacks` are the attempts made; `routed` every message taken from a queue. */
  datatype State = State(
    conns: set<string>, current: map<Key, ConsumerId>, consumers: seq<Consumer>, waiters: seq<Waiter>,
    removing: Option<Key>, closed: bool,
    acks: multiset<Message>, nacks: multiset<Message>, routed: multiset<Message>)

  datatype Action =
    | Register(key: Key, field: string, value: string, dialOk: bool, channelOk: bool)
    | Expire(waiter: WaiterId)       // its context is done
    | Remove(waiter: WaiterId)       // removeWaiter up to the end of the consumer's lock
    | FinishRemove                   // the rest, for an empty consumer
    | Route(consumer: ConsumerId, message: Message)
    | Resume(consumer: ConsumerId)
    | Stop(consumer: ConsumerId)
    | Take(waiter: WaiterId)         // the client reads its channel
    | Close

  const INITIAL := State({}, map[], [], [], None, false, multiset{}, multiset{}, multiset{})

  // ---- routing ----

  function FieldOf(m: Message, field: string): string {
    if field in m.fields then m.fields[field] else ""
  }

  predicate Matches(w: Waiter, m: Message) {
    w.live && (w.field == "" || FieldOf(m, w.field) == w.value)
  }

  /** A waiter without a field takes anything; else the field has the value, or is absent and the value is empty. */
  lemma MatchesExactly(w: Waiter, m: Message)
    ensures Matches(w, m) <==>
            && w.live
            && (|| w.field == ""
                || (w.field in m.fields && m.fields[w.field] == w.value)
                || (w.field !in m.fields && w.value == ""))
  {
  }

  function FirstMatch(ids: seq<WaiterId>, ws: seq<Waiter>, m: Message): (r: Option<nat>)
    ensures r.Some? ==> r.value < |ids| && ids[r.value] < |ws| && Matches(ws[ids[r.value]], m)
    ensures r.Some? ==> forall i | 0 <= i < r.value && ids[i] < |ws| :: !Matches(ws[ids[i]], m)
    ensures r.None? ==> forall i | 0 <= i < |ids| && ids[i] < |ws| :: !Matches(ws[ids[i]], m)
  {
    if ids == [] then None
    else if ids[0] < |ws| && Matches(ws[ids[0]], m) then Some(0)
    else
      var r := FirstMatch(ids[1..], ws, m);
      if r.Some? then Some(r.value + 1) else None
  }

  /** The first position whose waiter is live and whose field, if it has one, has its value in the message. */
  lemma FirstMatchExactly(ids: seq<WaiterId>, ws: seq<Waiter>, m: Message)
    requires forall i | 0 <= i < |ids| :: ids[i] < |ws|
    ensures var r, bound := FirstMatch(ids, ws, m), if FirstMatch(ids, ws, m).Some? then FirstMatch(ids, ws, m).value else |ids|;
            && (r.Some? ==>
                  && ws[ids[r.value]].live
                  && (|| ws[ids[r.value]].field == ""
                      || (ws[ids[r.value]].field in m.fields && m.fields[ws[ids[r.value]].field] == ws[ids[r.value]].value)
                      || (ws[ids[r.value]].field !in m.fields && ws[ids[r.value]].value == "")))
            && (forall i | 0 <= i < bound && ws[ids[i]].live ::
                  && ws[ids[i]].field != ""
                  && (if ws[ids[i]].field in m.fields then m.fields[ws[ids[i]].field] != ws[ids[i]].value
                      else ws[ids[i]].value != ""))
  {
    var r := FirstMatch(ids, ws, m);
    forall i | 0 <= i < |ids|
      ensures Matches(ws[ids[i]], m) <==>
              && ws[ids[i]].live
              && (|| ws[ids[i]].field == ""
                  || (ws[ids[i]].field in m.fields && m.fields[ws[ids[i]].field] == ws[ids[i]].value)
                  || (ws[ids[i]].field !in m.fields && ws[ids[i]].value == ""))
    {
      MatchesExactly(ws[ids[i]], m);
    }
    hide FirstMatch, Matches, FieldOf;
  }

  /** The position whose waiter takes the message; a full channel takes nothing. */
  function Recipient(c: Consumer, ws: seq<Waiter>, m: Message): (r: Option<nat>)
    ensures r.Some? ==> r.value < |c.waiters| && c.waiters[r.value] < |ws| && ws[c.waiters[r.value]].box.None?
  {
    var i := FirstMatch(c.waiters, ws, m);
    if i.Some? && ws[c.waiters[i.value]].box.None? then i else None
  }

  function Delivered(w: Waiter, m: Message): Waiter {
    w.(box := Some(m), got := w.got + [m])
  }

  function DropAt(ids: seq<WaiterId>, i: nat): seq<WaiterId>
    requires i < |ids|
  {
    ids[..i] + ids[i + 1..]
  }

  function DropId(ids: seq<WaiterId>, id: WaiterId): seq<WaiterId> {
    if ids == [] then [] else if ids[0] == id then ids[1..] else [ids[0]] + DropId(ids[1..], id)
  }

  // ---- steps ----

  predicate UrlInUse(current: map<Key, ConsumerId>, url: string) {
    exists k | k in current :: k.url == url
  }

  function Registered(s: State, key: Key, field: string, value: string, c: ConsumerId): State {
    s.(waiters := s.waiters + [Waiter(key, field, value, true, true, c, false, None, [])],
       consumers := if c < |s.consumers| then s.consumers[c := s.consumers[c].(waiters := s.consumers[c].waiters + [|s.waiters|])]
                    else s.consumers)
  }

  function Rejected(s: State, key: Key, field: string, value: string): State {
    s.(waiters := s.waiters + [Waiter(key, field, value, true, false, 0, false, None, [])])
  }

  predicate Enabled(s: State, a: Action) {
    match a
    case Register(_, _, _, _, _) => s.removing.None?
    case Expire(w) => w < |s.waiters|
    case Remove(w) => s.removing.None? && w < |s.waiters| && s.waiters[w].registered
    case FinishRemove => s.removing.Some? && s.removing.value in s.current && s.current[s.removing.value] < |s.consumers|
    case Route(c, _) => c < |s.consumers| && s.consumers[c].loop == Receiving
    case Resume(c) => c < |s.consumers| && s.consumers[c].loop == Throttled
    case Stop(c) => c < |s.consumers| && s.consumers[c].cancelled && s.consumers[c].loop != Stopped
    case Take(w) => w < |s.waiters| && s.waiters[w].box.Some?
    case Close => s.removing.None?
  }

  /** The maps hold a connection and a consumer for the key. */
  function Admitted(s: State, key: Key): (r: State)
    ensures key in r.current && s.conns <= r.conns
    ensures r == s.(conns := r.conns, current := r.current, consumers := r.consumers)
  {
    var s1 := s.(conns := s.conns + {key.url});
    if key in s.current then s1
    else s1.(current := s.current[key := |s.consumers|], consumers := s.consumers + [Consumer([], false, Receiving)])
  }

  function DoRegister(s: State, key: Key, field: string, value: string, dialOk: bool, channelOk: bool): State {
    if key.url !in s.conns && !dialOk then Rejected(s, key, field, value)
    else if key !in s.current && !channelOk then Rejected(s.(conns := s.conns + {key.url}), key, field, value)
    else Registered(Admitted(s, key), key, field, value, Admitted(s, key).current[key])
  }

  function DoRemove(s: State, w: WaiterId): State
    requires w < |s.waiters|
  {
    var key := s.waiters[w].key;
    var s1 := s.(waiters := s.waiters[w := s.waiters[w].(cleaned := true)]);
    if key !in s.current || s.current[key] >= |s.consumers| then s1
    else
      var c := s.current[key];
      var left := DropId(s.consumers[c].waiters, w);
      s1.(consumers := s.consumers[c := s.consumers[c].(waiters := left)],
          removing := if left == [] then Some(key) else None)
  }

  function DoFinish(s: State): State
    requires Enabled(s, FinishRemove)
  {
    var key := s.removing.value;
    var c := s.current[key];
    var current := s.current - {key};
    s.(removing := None, current := current,
       consumers := s.consumers[c := s.consumers[c].(cancelled := true)],
       conns := if UrlInUse(current, key.url) then s.conns else s.conns - {key.url})
  }

  function DoRoute(s: State, c: ConsumerId, m: Message): State
    requires c < |s.consumers|
  {
    var q := s.consumers[c];
    var r := Recipient(q, s.waiters, m);
    var s1 := s.(routed := s.routed + multiset{m});
    if r.Some? then
      var w := q.waiters[r.value];
      s1.(waiters := s.waiters[w := Delivered(s.waiters[w], m)],
          consumers := s.consumers[c := q.(waiters := DropAt(q.waiters, r.value))],
          acks := s.acks + multiset{m})
    else
      s1.(consumers := s.consumers[c := q.(loop := Throttled)], nacks := s.nacks + multiset{m})
  }

  function Cancelled(consumers: seq<Consumer>, ids: set<ConsumerId>): (r: seq<Consumer>)
    ensures |r| == |consumers|
  {
    seq(|consumers|, i requires 0 <= i < |consumers| =>
      if i in ids then consumers[i].(cancelled := true) else consumers[i])
  }

  function Do(s: State, a: Action): State
    requires Enabled(s, a)
  {
    match a
    case Register(key, field, value, dialOk, channelOk) => DoRegister(s, key, field, value, dialOk, channelOk)
    case Expire(w) => s.(waiters := s.waiters[w := s.waiters[w].(live := false)])
    case Remove(w) => DoRemove(s, w)
    case FinishRemove => DoFinish(s)
    case Route(c, m) => DoRoute(s, c, m)
    case Resume(c) => s.(consumers := s.consumers[c := s.consumers[c].(loop := Receiving)])
    case Stop(c) => s.(consumers := s.consumers[c := s.consumers[c].(loop := Stopped)])
    case Take(w) => s.(waiters := s.waiters[w := s.waiters[w].(box := None)])
    case Close => s.(closed := true, consumers := Cancelled(s.consumers, s.current.Values), current := map[], conns := {})
  }

  ghost predicate IsRun(states: seq<State>, actions: seq<Action>) {
    && |states| == |actions| + 1 && states[0] == INITIAL
    && forall i {:trigger actions[i]} | 0 <= i < |actions| :: Enabled(states[i], actions[i]) && states[i + 1] == Do(states[i], actions[i])
  }

  // ---- the invariant ----

  predicate Listed(s: State, c: ConsumerId, w: WaiterId) {
    c < |s.consumers| && w in s.consumers[c].waiters
  }

  /** Waiters get their ids in the order in which they register. */
  ghost predicate InOrder(ids: seq<WaiterId>) {
    forall i, j | 0 <= i < j < |ids| :: ids[i] < ids[j]
  }

  /** Each key has its own, running consumer. */
  ghost predicate CurrentOk(s: State) {
    && (forall k | k in s.current :: s.current[k] < |s.consumers| && !s.consumers[s.current[k]].cancelled && k.url in s.conns)
    && (forall k, l | k in s.current && l in s.current && s.current[k] == s.current[l] :: k == l)
    && (s.removing.Some? ==> s.removing.value in s.current && s.consumers[s.current[s.removing.value]].waiters == [])
  }

  /** Lists are in registration order; a listed waiter is registered with that consumer and has never been sent anything. */
  ghost predicate ListedOk(s: State) {
    && (forall c: nat | c < |s.consumers| :: InOrder(s.consumers[c].waiters))
    && (forall c: ConsumerId, w: WaiterId | Listed(s, c, w) ::
          && w < |s.waiters| && s.waiters[w].registered && s.waiters[w].home == c
          && s.waiters[w].got == [] && s.waiters[w].box == None)
  }

  /** Before Close only current consumers have waiters. */
  ghost predicate HomesCurrent(s: State) {
    !s.closed ==> forall c: ConsumerId, w: WaiterId | Listed(s, c, w) ::
      w < |s.waiters| && s.waiters[w].key in s.current && s.current[s.waiters[w].key] == c
  }

  ghost predicate Expecting(s: State, w: WaiterId) {
    w < |s.waiters| && s.waiters[w].registered && !s.waiters[w].cleaned && s.waiters[w].got == []
  }

  /** Nobody is orphaned: who still expects a message is listed with the consumer in the maps. */
  ghost predicate NoOrphans(s: State) {
    !s.closed ==> forall w: WaiterId | Expecting(s, w) ::
      s.waiters[w].key in s.current && Listed(s, s.current[s.waiters[w].key], w)
  }

  ghost predicate AtMostOne(s: State) {
    forall w: nat | w < |s.waiters| :: |s.waiters[w].got| <= 1 && (s.waiters[w].box.Some? ==> s.waiters[w].got == [s.waiters[w].box.value])
  }

  /** How often `m` was delivered. */
  function Deliveries(ws: seq<Waiter>, m: Message): nat {
    if ws == [] then 0 else multiset(ws[0].got)[m] + Deliveries(ws[1..], m)
  }

  /** Acknowledged as often as delivered, requeued otherwise. */
  ghost predicate Acknowledged(s: State, m: Message) {
    s.acks[m] == Deliveries(s.waiters, m) && s.routed[m] == s.acks[m] + s.nacks[m]
  }

  ghost predicate Inv(s: State) {
    CurrentOk(s) && ListedOk(s) && HomesCurrent(s) && NoOrphans(s) && AtMostOne(s) && forall m :: Acknowledged(s, m)
  }

  // ---- lists and sums ----

  lemma HeadIsFirst(ids: seq<WaiterId>)
    requires InOrder(ids) && ids != []
    ensures InOrder(ids[1..]) && forall m :: m in ids[1..] ==> ids[0] < m
    ensures forall m :: m in ids <==> m == ids[0] || m in ids[1..]
  {
    assert ids == [ids[0]] + ids[1..];
  }

  lemma PutFirst(id: WaiterId, ids: seq<WaiterId>)
    requires InOrder(ids) && forall m :: m in ids ==> id < m
    ensures InOrder([id] + ids)
    ensures forall m :: m in [id] + ids <==> m == id || m in ids
  {
    assert forall j | 0 <= j < |ids| :: ids[j] in ids;
  }

  lemma {:induction false} DropIdExact(ids: seq<WaiterId>, id: WaiterId)
    requires InOrder(ids)
    ensures InOrder(DropId(ids, id))
    ensures forall m :: m in DropId(ids, id) <==> m in ids && m != id
  {
    hide InOrder;
    if ids != [] {
      HeadIsFirst(ids);
      DropIdExact(ids[1..], id);
      if ids[0] != id {
        PutFirst(ids[0], DropId(ids[1..], id));
      }
    }
  }

  lemma DropAtExact(ids: seq<WaiterId>, i: nat)
    requires InOrder(ids) && i < |ids|
    ensures InOrder(DropAt(ids, i))
    ensures forall m :: m in DropAt(ids, i) <==> m in ids && m != ids[i]
  {
    var r := DropAt(ids, i);
    forall m
      ensures m in r <==> m in ids && m != ids[i]
    {
      if m in ids && m != ids[i] {
        var j :| 0 <= j < |ids| && ids[j] == m;
        assert r[if j < i then j else j - 1] == m;
      }
    }
  }

  lemma {:induction false} DeliveriesUpdate(ws: seq<Waiter>, i: nat, w: Waiter, m: Message)
    requires i < |ws|
    ensures Deliveries(ws[i := w], m) + multiset(ws[i].got)[m] == Deliveries(ws, m) + multiset(w.got)[m]
  {
    if i == 0 {
      assert ws[i := w][1..] == ws[1..];
    } else {
      assert ws[i := w][1..] == ws[1..][i - 1 := w];
      DeliveriesUpdate(ws[1..], i - 1, w, m);
    }
  }

  lemma {:induction false} DeliveriesAppend(ws: seq<Waiter>, w: Waiter, m: Message)
    requires w.got == []
    ensures Deliveries(ws + [w], m) == Deliveries(ws, m)
  {
    if ws == [] {
      assert ws + [w] == [w];
    } else {
      assert (ws + [w])[1..] == ws[1..] + [w];
      DeliveriesAppend(ws[1..], w, m);
    }
  }

  // ---- every step keeps the invariant ----

  /** Steps that change neither the lists nor what waiters were sent. */
  ghost predicate SameLists(s: State, s': State) {
    && |s'.consumers| == |s.consumers| && |s'.waiters| == |s.waiters|
    && (forall c | 0 <= c < |s.consumers| :: s'.consumers[c].waiters == s.consumers[c].waiters)
    && (forall w | 0 <= w < |s.waiters| ::
          var x, y := s.waiters[w], s'.waiters[w];
          y.key == x.key && y.registered == x.registered && y.home == x.home && y.got == x.got
          && (x.cleaned ==> y.cleaned) && (y.box == x.box || y.box == None))
  }

  lemma QuietKeepsLists(s: State, s': State)
    requires SameLists(s, s') && ListedOk(s) && AtMostOne(s)
    ensures ListedOk(s') && AtMostOne(s')
    ensures forall c: ConsumerId, w: WaiterId :: Listed(s', c, w) <==> Listed(s, c, w)
    ensures forall w: WaiterId | Expecting(s', w) :: Expecting(s, w)
  {
    forall c: ConsumerId, w: WaiterId | Listed(s', c, w)
      ensures Listed(s, c, w)
    {
    }
  }

  lemma {:induction false} SameDeliveries(ws: seq<Waiter>, ws': seq<Waiter>, m: Message)
    requires |ws| == |ws'| && forall i | 0 <= i < |ws| :: ws[i].got == ws'[i].got
    ensures Deliveries(ws, m) == Deliveries(ws', m)
  {
    if ws != [] {
      SameDeliveries(ws[1..], ws'[1..], m);
    }
  }

  lemma QuietKeeps(s: State, s': State)
    requires Inv(s) && SameLists(s, s') && s'.current == s.current && s'.conns == s.conns && s'.removing == s.removing
    requires s'.closed == s.closed && s'.acks == s.acks && s'.nacks == s.nacks && s'.routed == s.routed
    requires forall c | 0 <= c < |s.consumers| :: s'.consumers[c].cancelled == s.consumers[c].cancelled
    ensures Inv(s')
  {
    QuietKeepsLists(s, s');
    hide Listed, Expecting, ListedOk, AtMostOne, Deliveries;
    forall m
      ensures Acknowledged(s', m)
    {
      assert Acknowledged(s, m);
      SameDeliveries(s.waiters, s'.waiters, m);
    }
  }

  lemma CloseKeeps(s: State)
    requires Inv(s) && Enabled(s, Close)
    ensures Inv(Do(s, Close))
  {
    var s' := Do(s, Close);
    QuietKeepsLists(s, s');
    hide Listed, Expecting, ListedOk, AtMostOne, Deliveries, InOrder;
    forall m
      ensures Acknowledged(s', m)
    {
      assert Acknowledged(s, m);
    }
  }

  /** Only the empty consumer leaves the maps. */
  lemma FinishRest(s: State)
    requires CurrentOk(s) && Enabled(s, FinishRemove)
    ensures var s', key := Do(s, FinishRemove), s.removing.value;
            && CurrentOk(s') && SameLists(s, s')
            && s'.current == s.current - {key} && s.consumers[s.current[key]].waiters == []
            && s'.closed == s.closed && s'.waiters == s.waiters
            && s'.acks == s.acks && s'.nacks == s.nacks && s'.routed == s.routed
  {
    hide UrlInUse;
    var s', key := Do(s, FinishRemove), s.removing.value;
    forall k | k in s'.current
      ensures k.url in s'.conns
    {
      if k.url == key.url {
        StillInUse(s'.current, k);
      }
    }
  }

  lemma StillInUse(current: map<Key, ConsumerId>, k: Key)
    requires k in current
    ensures UrlInUse(current, k.url)
  {
  }

  lemma FinishKeeps(s: State)
    requires Inv(s) && Enabled(s, FinishRemove)
    ensures Inv(Do(s, FinishRemove))
  {
    var s', key := Do(s, FinishRemove), s.removing.value;
    FinishRest(s);
    QuietKeepsLists(s, s');
    assert forall w: WaiterId :: !Listed(s, s.current[key], w);
    hide ListedOk, AtMostOne, Deliveries, InOrder, Do, CurrentOk, SameLists, Listed;
    forall m
      ensures Acknowledged(s', m)
    {
      assert Acknowledged(s, m);
    }
  }

  // ---- removing ----

  lemma RemoveLists(s: State, w: WaiterId)
    requires ListedOk(s) && CurrentOk(s) && Enabled(s, Remove(w))
    ensures var s', key := Do(s, Remove(w)), s.waiters[w].key;
            && ListedOk(s')
            && forall c: ConsumerId, x: WaiterId ::
                 Listed(s', c, x) <==> Listed(s, c, x) && !(x == w && key in s.current && s.current[key] == c)
  {
    var s', key := Do(s, Remove(w)), s.waiters[w].key;
    if key in s.current {
      DropIdExact(s.consumers[s.current[key]].waiters, w);
      hide DropId, InOrder;
      forall c: ConsumerId, x: WaiterId
        ensures Listed(s', c, x) <==> Listed(s, c, x) && !(x == w && s.current[key] == c)
      {
      }
    } else {
      QuietKeepsListing(s, s');
    }
  }

  lemma QuietKeepsListing(s: State, s': State)
    requires ListedOk(s) && SameLists(s, s')
    ensures ListedOk(s')
    ensures forall c: ConsumerId, w: WaiterId :: Listed(s', c, w) <==> Listed(s, c, w)
  {
    forall c: ConsumerId, w: WaiterId | Listed(s', c, w)
      ensures Listed(s, c, w)
    {
    }
  }

  /** A removal touches nothing but one list and the cleaned mark. */
  lemma RemoveRest(s: State, w: WaiterId)
    requires CurrentOk(s) && Enabled(s, Remove(w))
    ensures var s' := Do(s, Remove(w));
            && s'.current == s.current && s'.conns == s.conns && s'.closed == s.closed
            && s'.acks == s.acks && s'.nacks == s.nacks && s'.routed == s.routed
            && s'.waiters == s.waiters[w := s.waiters[w].(cleaned := true)]
            && CurrentOk(s')
  {
    hide DropId;
  }

  lemma RemoveKeeps(s: State, w: WaiterId)
    requires Inv(s) && Enabled(s, Remove(w))
    ensures Inv(Do(s, Remove(w)))
  {
    var s' := Do(s, Remove(w));
    RemoveLists(s, w);
    RemoveRest(s, w);
    hide Listed, ListedOk, CurrentOk, Deliveries, InOrder, Do;
    forall m
      ensures Acknowledged(s', m)
    {
      assert Acknowledged(s, m);
      SameDeliveries(s.waiters, s'.waiters, m);
    }
    forall x: WaiterId | Expecting(s', x)
      ensures Expecting(s, x) && x != w
    {
    }
  }

  // ---- routing ----

  lemma RouteLists(s: State, c: ConsumerId, m: Message)
    requires ListedOk(s) && Enabled(s, Route(c, m))
    ensures var s', r := Do(s, Route(c, m)), Recipient(s.consumers[c], s.waiters, m);
            && ListedOk(s')
            && (forall d: ConsumerId, x: WaiterId ::
                 Listed(s', d, x) <==> Listed(s, d, x) && !(r.Some? && x == s.consumers[c].waiters[r.value]))
  {
    var s', r := Do(s, Route(c, m)), Recipient(s.consumers[c], s.waiters, m);
    if r.Some? {
      var w := s.consumers[c].waiters[r.value];
      assert Listed(s, c, w);
      DropAtExact(s.consumers[c].waiters, r.value);
      hide DropAt, InOrder, Recipient;
      forall d: ConsumerId, x: WaiterId
        ensures Listed(s', d, x) <==> Listed(s, d, x) && x != w
      {
        assert Listed(s, d, w) ==> d == c;
      }
    } else {
      QuietKeepsListing(s, s');
    }
  }

  lemma RouteAcknowledges(s: State, c: ConsumerId, m: Message, n: Message)
    requires Enabled(s, Route(c, m)) && Acknowledged(s, n)
    ensures Acknowledged(Do(s, Route(c, m)), n)
  {
    hide FirstMatch, Matches, Recipient, DropAt, Deliveries;
    var r := Recipient(s.consumers[c], s.waiters, m);
    if r.Some? {
      var w := s.consumers[c].waiters[r.value];
      DeliveriesUpdate(s.waiters, w, Delivered(s.waiters[w], m), n);
    }
  }

  /** Before the route a recipient was listed, so nothing had been sent to it. */
  lemma RouteOnce(s: State, c: ConsumerId, m: Message)
    requires ListedOk(s) && AtMostOne(s) && Enabled(s, Route(c, m))
    ensures AtMostOne(Do(s, Route(c, m)))
    ensures forall x: WaiterId | Expecting(Do(s, Route(c, m)), x) :: Expecting(s, x)
    ensures var r := Recipient(s.consumers[c], s.waiters, m);
            r.Some? ==> !Expecting(Do(s, Route(c, m)), s.consumers[c].waiters[r.value])
  {
    hide FirstMatch, Matches, InOrder, Recipient;
    var r := Recipient(s.consumers[c], s.waiters, m);
    if r.Some? {
      assert Listed(s, c, s.consumers[c].waiters[r.value]);
    }
  }

  /** The maps stay in order when only lists and loops change and an empty list stays empty. */
  lemma SameCurrent(s: State, s': State)
    requires CurrentOk(s) && s'.current == s.current && s'.removing == s.removing && s.conns <= s'.conns
    requires |s'.consumers| == |s.consumers|
    requires forall c | 0 <= c < |s.consumers| :: s'.consumers[c].cancelled == s.consumers[c].cancelled
    requires s.removing.Some? ==>
               forall c | 0 <= c < |s.consumers| && s.consumers[c].waiters == [] :: s'.consumers[c].waiters == []
    ensures CurrentOk(s')
  {
  }

  lemma RouteCurrent(s: State, c: ConsumerId, m: Message)
    requires CurrentOk(s) && Enabled(s, Route(c, m))
    ensures CurrentOk(Do(s, Route(c, m)))
  {
    hide Recipient, FirstMatch, Matches, CurrentOk, Delivered;
    var s' := Do(s, Route(c, m));
    assert |s'.consumers| == |s.consumers| && s'.consumers == s.consumers[c := s'.consumers[c]];
    SameCurrent(s, s');
  }

  lemma RouteKeeps(s: State, c: ConsumerId, m: Message)
    requires Inv(s) && Enabled(s, Route(c, m))
    ensures Inv(Do(s, Route(c, m)))
  {
    var s' := Do(s, Route(c, m));
    RouteLists(s, c, m);
    RouteOnce(s, c, m);
    RouteCurrent(s, c, m);
    hide Listed, ListedOk, AtMostOne, CurrentOk, Deliveries, InOrder, Recipient, DropAt, Expecting, Acknowledged;
    forall n
      ensures Acknowledged(s', n)
    {
      RouteAcknowledges(s, c, m, n);
    }
  }

  // ---- registering ----

  lemma AdmittedLists(s: State, key: Key)
    requires ListedOk(s)
    ensures ListedOk(Admitted(s, key))
    ensures forall c: ConsumerId, x: WaiterId :: Listed(Admitted(s, key), c, x) <==> Listed(s, c, x)
  {
    forall c: ConsumerId, x: WaiterId
      ensures Listed(Admitted(s, key), c, x) <==> Listed(s, c, x)
    {
    }
  }

  lemma NewWaiterListed(s: State, key: Key, field: string, value: string, c: ConsumerId)
    requires ListedOk(s) && c < |s.consumers|
    ensures var s', n := Registered(s, key, field, value, c), |s.waiters|;
            && ListedOk(s')
            && forall d: ConsumerId, x: WaiterId :: Listed(s', d, x) <==> Listed(s, d, x) || (x == n && d == c)
  {
    var s', n := Registered(s, key, field, value, c), |s.waiters|;
    var ids := s.consumers[c].waiters;
    assert forall i | 0 <= i < |ids| :: Listed(s, c, ids[i]);
    assert InOrder(ids + [n]);
    hide InOrder;
    forall d: ConsumerId, x: WaiterId
      ensures Listed(s', d, x) <==> Listed(s, d, x) || (x == n && d == c)
    {
    }
  }

  lemma RejectedLists(s: State, key: Key, field: string, value: string)
    requires ListedOk(s)
    ensures ListedOk(Rejected(s, key, field, value))
    ensures forall c: ConsumerId, x: WaiterId :: Listed(Rejected(s, key, field, value), c, x) <==> Listed(s, c, x)
  {
    forall c: ConsumerId, x: WaiterId
      ensures Listed(Rejected(s, key, field, value), c, x) <==> Listed(s, c, x)
    {
    }
  }

  lemma RegisterLists(s: State, a: Action)
    requires ListedOk(s) && CurrentOk(s) && Enabled(s, a) && a.Register?
    ensures var s' := Do(s, a);
            && ListedOk(s') && |s'.waiters| == |s.waiters| + 1
            && (forall c: ConsumerId, x: WaiterId ::
                 Listed(s', c, x) <==> Listed(s, c, x) || (x == |s.waiters| && s'.waiters[x].registered && s'.waiters[x].home == c))
            && (forall x: WaiterId | x < |s.waiters| :: s'.waiters[x] == s.waiters[x])
  {
    AdmittedCurrent(s, a.key);
    AdmittedLists(s, a.key);
    RejectedLists(s, a.key, a.field, a.value);
    var tried := s.(conns := s.conns + {a.key.url});
    QuietKeepsListing(s, tried);
    RejectedLists(tried, a.key, a.field, a.value);
    var ready := Admitted(s, a.key);
    assert ready.current[a.key] < |ready.consumers|;
    NewWaiterListed(ready, a.key, a.field, a.value, ready.current[a.key]);
    hide ListedOk, Listed, CurrentOk, Admitted;
  }

  lemma NewConsumer(s: State, key: Key)
    requires CurrentOk(s) && key !in s.current && s.removing.None?
    ensures CurrentOk(s.(conns := s.conns + {key.url}, current := s.current[key := |s.consumers|],
                         consumers := s.consumers + [Consumer([], false, Receiving)]))
  {
    var s' := s.(conns := s.conns + {key.url}, current := s.current[key := |s.consumers|],
                 consumers := s.consumers + [Consumer([], false, Receiving)]);
    forall k | k in s'.current
      ensures k != key ==> k in s.current && s'.current[k] == s.current[k] < |s.consumers|
    {
    }
  }

  lemma AdmittedCurrent(s: State, key: Key)
    requires CurrentOk(s) && s.removing.None?
    ensures CurrentOk(Admitted(s, key))
    ensures forall k | k in s.current :: k in Admitted(s, key).current && Admitted(s, key).current[k] == s.current[k]
  {
    hide CurrentOk;
    if key in s.current {
      SameCurrent(s, Admitted(s, key));
    } else {
      NewConsumer(s, key);
    }
  }

  lemma RegisterCurrent(s: State, a: Action)
    requires CurrentOk(s) && Enabled(s, a) && a.Register?
    ensures CurrentOk(Do(s, a))
    ensures forall k | k in s.current :: k in Do(s, a).current && Do(s, a).current[k] == s.current[k]
    ensures var w := Do(s, a).waiters[|Do(s, a).waiters| - 1];
            w.registered ==> w.key in Do(s, a).current && Do(s, a).current[w.key] == w.home
  {
    hide CurrentOk, Admitted;
    var s' := Do(s, a);
    AdmittedCurrent(s, a.key);
    if s'.waiters[|s'.waiters| - 1].registered {
      SameCurrent(Admitted(s, a.key), s');
    } else {
      SameCurrent(s, s');
    }
  }

  lemma RegisterKeeps(s: State, a: Action)
    requires Inv(s) && Enabled(s, a) && a.Register?
    ensures Inv(Do(s, a))
  {
    var s' := Do(s, a);
    RegisterLists(s, a);
    RegisterCurrent(s, a);
    RegisterRest(s, a);
    hide Listed, ListedOk, CurrentOk, Deliveries, InOrder, Do, Acknowledged;
    forall n
      ensures Acknowledged(s', n)
    {
      RegisterAcknowledges(s, a, n);
    }
  }

  lemma RegisterRest(s: State, a: Action)
    requires Enabled(s, a) && a.Register?
    ensures Do(s, a).closed == s.closed
    ensures Do(s, a).waiters[|Do(s, a).waiters| - 1].got == [] && Do(s, a).waiters[|Do(s, a).waiters| - 1].box == None
  {
  }

  lemma RegisterAcknowledges(s: State, a: Action, m: Message)
    requires Enabled(s, a) && a.Register? && Acknowledged(s, m)
    ensures Acknowledged(Do(s, a), m)
  {
    var s' := Do(s, a);
    var w := s'.waiters[|s.waiters|];
    assert s'.waiters == s.waiters + [w];
    DeliveriesAppend(s.waiters, w, m);
  }

  lemma StepKeeps(s: State, a: Action)
    requires Inv(s) && Enabled(s, a)
    ensures Inv(Do(s, a))
  {
    hide Inv;
    match a {
      case Register(_, _, _, _, _) => RegisterKeeps(s, a);
      case Remove(w) => RemoveKeeps(s, w);
      case FinishRemove => FinishKeeps(s);
      case Route(c, m) => RouteKeeps(s, c, m);
      case Close => CloseKeeps(s);
      case Expire(_) => QuietKeeps(s, Do(s, a));
      case Resume(_) => QuietKeeps(s, Do(s, a));
      case Stop(_) => QuietKeeps(s, Do(s, a));
      case Take(_) => QuietKeeps(s, Do(s, a));
    }
  }

  lemma {:induction false} RunKeeps(states: seq<State>, actions: seq<Action>, k: nat)
    requires IsRun(states, actions) && k <= |actions|
    ensures Inv(states[k])
  {
    hide Do, Enabled;
    if k > 0 {
      hide Inv;
      RunKeeps(states, actions, k - 1);
      StepKeeps(states[k - 1], actions[k - 1]);
    }
  }

  // ---- main results ----

  /** Before Close a registered waiter that was neither served nor cleaned up is listed with the consumer in the maps. */
  lemma NobodyIsOrphaned(states: seq<State>, actions: seq<Action>, k: nat, w: WaiterId)
    requires IsRun(states, actions) && k <= |actions| && Expecting(states[k], w) && !states[k].closed
    ensures var s := states[k];
            s.waiters[w].key in s.current && Listed(s, s.current[s.waiters[w].key], w)
            && !s.consumers[s.current[s.waiters[w].key]].cancelled
  {
    RunKeeps(states, actions, k);
  }

  /** Every waiter is sent at most one message, and a listed one none so far: its channel has room. */
  lemma AtMostOneMessage(states: seq<State>, actions: seq<Action>, k: nat, w: WaiterId)
    requires IsRun(states, actions) && k <= |actions| && w < |states[k].waiters|
    ensures |states[k].waiters[w].got| <= 1
    ensures forall c: ConsumerId | Listed(states[k], c, w) :: states[k].waiters[w].got == [] && states[k].waiters[w].box == None
  {
    RunKeeps(states, actions, k);
  }

  /** A cleanup that leaves nobody listed starts dropping the consumer; one that leaves somebody does not. */
  lemma EmptyConsumerGoes(states: seq<State>, actions: seq<Action>, k: nat, w: WaiterId)
    requires IsRun(states, actions) && k < |actions| && actions[k] == Remove(w)
    ensures w < |states[k].waiters|
    ensures var s, s', key := states[k], states[k + 1], states[k].waiters[w].key;
            && (key !in s.current ==> s'.removing == None && s'.consumers == s.consumers)
            && (key in s.current ==>
                  && (s'.removing == Some(key) <==> forall x :: Listed(s, s.current[key], x) ==> x == w)
                  && (s'.removing == None <==> exists x :: Listed(s, s.current[key], x) && x != w))
  {
    var s, key := states[k], states[k].waiters[w].key;
    RunKeeps(states, actions, k);
    RemoveLists(s, w);
    if key in s.current {
      var c := s.current[key];
      var left := DropId(s.consumers[c].waiters, w);
      DropIdExact(s.consumers[c].waiters, w);
      hide DropId, InOrder;
      if left != [] {
        assert left[0] in left;
        assert Listed(s, c, left[0]) && left[0] != w;
      }
    }
  }

  lemma FirstIsEarliest(ids: seq<WaiterId>, ws: seq<Waiter>, m: Message)
    requires InOrder(ids) && FirstMatch(ids, ws, m).Some?
    ensures forall w | w in ids && w < |ws| && Matches(ws[w], m) :: ids[FirstMatch(ids, ws, m).value] <= w
  {
    hide FirstMatch, Matches;
    var i := FirstMatch(ids, ws, m).value;
    forall w | w in ids && w < |ws| && Matches(ws[w], m)
      ensures ids[i] <= w
    {
      var j :| 0 <= j < |ids| && ids[j] == w;
      assert j >= i;
    }
  }

  /**
   A routed message goes to the listed waiter that registered first among those that are
   live and whose field, if they have one, has their value in the message.  It is sent the
   message and taken off the list, and the message is acknowledged.  The message is
   requeued only if nobody listed is like that.
   */
  lemma FirstMatchIsServed(states: seq<State>, actions: seq<Action>, k: nat, c: ConsumerId, m: Message)
    returns (served: Option<WaiterId>)
    requires IsRun(states, actions) && k < |actions| && actions[k] == Route(c, m)
    ensures c < |states[k].consumers| && c < |states[k + 1].consumers|
    ensures forall w | w in states[k].consumers[c].waiters :: w < |states[k].waiters|
    ensures var s, s', ids := states[k], states[k + 1], states[k].consumers[c].waiters;
            match served
            case Some(w) =>
              && w in ids && s.waiters[w].live
              && (|| s.waiters[w].field == ""
                  || (s.waiters[w].field in m.fields && m.fields[s.waiters[w].field] == s.waiters[w].value)
                  || (s.waiters[w].field !in m.fields && s.waiters[w].value == ""))
              && (forall x | x in ids && x < w && s.waiters[x].live ::
                    && s.waiters[x].field != ""
                    && (if s.waiters[x].field in m.fields then m.fields[s.waiters[x].field] != s.waiters[x].value
                        else s.waiters[x].value != ""))
              && s'.waiters == s.waiters[w := s.waiters[w].(box := Some(m), got := [m])]
              && (forall x :: x in s'.consumers[c].waiters <==> x in ids && x != w)
              && s'.acks == s.acks + multiset{m} && s'.nacks == s.nacks && s'.consumers[c].loop == Receiving
            case None =>
              && (forall x | x in ids && s.waiters[x].live ::
                    && s.waiters[x].field != ""
                    && (if s.waiters[x].field in m.fields then m.fields[s.waiters[x].field] != s.waiters[x].value
                        else s.waiters[x].value != ""))
              && s'.waiters == s.waiters && s'.consumers[c].waiters == ids
              && s'.nacks == s.nacks + multiset{m} && s'.acks == s.acks && s'.consumers[c].loop == Throttled
  {
    RunKeeps(states, actions, k);
    var s := states[k];
    var ids := s.consumers[c].waiters;
    assert Enabled(s, Route(c, m));
    ListedInRange(s, c);
    FirstMatchExactly(ids, s.waiters, m);
    hide IsRun, FirstMatch, Matches, FieldOf, CurrentOk, HomesCurrent, NoOrphans, AtMostOne, Acknowledged, InOrder;
    var r := FirstMatch(ids, s.waiters, m);
    if r.Some? {
      assert Listed(s, c, ids[r.value]);
      FirstIsEarliest(ids, s.waiters, m);
      DropAtExact(ids, r.value);
      served := Some(ids[r.value]);
      assert s.waiters[ids[r.value]].got + [m] == [m];
    } else {
      assert Recipient(s.consumers[c], s.waiters, m) == None;
      served := None;
    }
  }

  /** Only resuming lets a consumer receive again. */
  lemma LoopKept(s: State, a: Action, c: ConsumerId)
    requires Enabled(s, a) && c < |s.consumers| && s.consumers[c].loop != Receiving && a != Resume(c)
    ensures c < |Do(s, a).consumers| && Do(s, a).consumers[c].loop != Receiving
  {
    match a {
      case Register(_, _, _, _, _) => hide Enabled; RegisterLoop(s, a, c);
      case Remove(_) => hide DropId, Enabled;
      case FinishRemove => hide UrlInUse;
      case Route(d, m) => hide Recipient, Delivered, DropAt; RouteLoop(s, d, m, c);
      case _ =>
    }
  }

  lemma RegisterLoop(s: State, a: Action, c: ConsumerId)
    requires Enabled(s, a) && a.Register? && c < |s.consumers|
    ensures c < |Do(s, a).consumers| && Do(s, a).consumers[c].loop == s.consumers[c].loop
  {
  }

  lemma RouteLoop(s: State, d: ConsumerId, m: Message, c: ConsumerId)
    requires Enabled(s, Route(d, m)) && c < |s.consumers|
    ensures c < |Do(s, Route(d, m)).consumers|
    ensures c != d ==> Do(s, Route(d, m)).consumers[c] == s.consumers[c]
  {
    hide Recipient, Delivered, DropAt;
  }

  /** After a requeue the consumer pauses: it takes no message before its pause is over. */
  lemma {:induction false} PausesAfterRequeue(states: seq<State>, actions: seq<Action>, k: nat, j: nat, c: ConsumerId)
    requires IsRun(states, actions) && k < j <= |actions|
    requires c < |states[k + 1].consumers| && states[k + 1].consumers[c].loop == Throttled
    requires forall i | k < i < j :: actions[i] != Resume(c)
    ensures c < |states[j].consumers| && states[j].consumers[c].loop != Receiving
    ensures j < |actions| ==> !actions[j].Route? || actions[j].consumer != c
  {
    hide Do, Enabled;
    if j > k + 1 {
      PausesAfterRequeue(states, actions, k, j - 1, c);
      LoopKept(states[j - 1], actions[j - 1], c);
    }
    if j < |actions| && actions[j].Route? {
      RouteReceives(states[j], actions[j]);
    }
  }

  lemma RouteReceives(s: State, a: Action)
    requires Enabled(s, a) && a.Route?
    ensures a.consumer < |s.consumers| && s.consumers[a.consumer].loop == Receiving
  {
  }

  // ---- what a waiter registered with ----

  /** `y` is what became of `x`. */
  predicate SameRegistration(x: Waiter, y: Waiter) {
    y.key == x.key && y.field == x.field && y.value == x.value && y.registered == x.registered && y.home == x.home
  }

  lemma RouteWaiters(s: State, c: ConsumerId, m: Message, w: WaiterId)
    requires Enabled(s, Route(c, m)) && w < |s.waiters|
    ensures w < |Do(s, Route(c, m)).waiters|
    ensures var x, y := s.waiters[w], Do(s, Route(c, m)).waiters[w];
            SameRegistration(x, y) && y.live == x.live
  {
    hide FirstMatch, Matches, Recipient, DropAt;
  }

  /** A waiter keeps what it registered with; only routing sends it anything, and only its context ends it. */
  lemma WaiterKept(s: State, a: Action, w: WaiterId)
    requires CurrentOk(s) && ListedOk(s) && Enabled(s, a) && w < |s.waiters|
    ensures w < |Do(s, a).waiters|
    ensures var x, y := s.waiters[w], Do(s, a).waiters[w];
            && SameRegistration(x, y)
            && (y.live <==> x.live && a != Expire(w))
            && (y.got != x.got ==> a.Route?)
  {
    match a {
      case Register(_, _, _, _, _) => RegisterLists(s, a);
      case Remove(v) => RemoveRest(s, v);
      case Route(c, m) => RouteWaiters(s, c, m, w);
      case _ => QuietWaiters(s, a);
    }
    hide CurrentOk, ListedOk, Do;
  }

  lemma QuietWaiters(s: State, a: Action)
    requires Enabled(s, a) && !a.Register? && !a.Remove? && !a.Route?
    ensures |Do(s, a).waiters| == |s.waiters|
    ensures forall w | 0 <= w < |s.waiters| ::
              var x, y := s.waiters[w], Do(s, a).waiters[w];
              SameRegistration(x, y) && y.got == x.got && (y.live <==> x.live && a != Expire(w))
  {
    hide UrlInUse, Cancelled;
  }

  lemma {:induction false} WaiterStays(states: seq<State>, actions: seq<Action>, i: nat, j: nat, w: WaiterId)
    requires IsRun(states, actions) && i <= j <= |actions| && w < |states[i].waiters|
    ensures w < |states[j].waiters|
    ensures var x, y := states[i].waiters[w], states[j].waiters[w];
            && SameRegistration(x, y)
            && (y.live <==> x.live && forall k | i <= k < j :: actions[k] != Expire(w))
  {
    hide Do, Enabled;
    if i < j {
      WaiterStays(states, actions, i, j - 1, w);
      RunKeeps(states, actions, j - 1);
      hide Inv;
      WaiterKept(states[j - 1], actions[j - 1], w);
    }
  }

  /** A new waiter has the arguments of its registration; when it is registered its home is the consumer of its key. */
  lemma RegisterAppends(s: State, a: Action)
    requires CurrentOk(s) && ListedOk(s) && Enabled(s, a) && a.Register?
    ensures var s', n := Do(s, a), |s.waiters|;
            && |s'.waiters| == n + 1
            && s'.waiters[n].key == a.key && s'.waiters[n].field == a.field && s'.waiters[n].value == a.value
            && s'.waiters[n].live && s'.waiters[n].got == [] && s'.waiters[n].box == None
            && (s'.waiters[n].registered <==> (a.key.url in s.conns || a.dialOk) && (a.key in s.current || a.channelOk))
            && (s'.waiters[n].registered ==>
                  a.key in s'.current && s'.current[a.key] == s'.waiters[n].home && Listed(s', s'.current[a.key], n))
  {
    var s', n := Do(s, a), |s.waiters|;
    RegisterLists(s, a);
    RegisterNew(s, a);
    RegisterCurrent(s, a);
    hide CurrentOk, Enabled, Do, Listed;
  }

  lemma RegisterNew(s: State, a: Action)
    requires Enabled(s, a) && a.Register?
    ensures var s', n := Do(s, a), |s.waiters|;
            && |s'.waiters| == n + 1
            && s'.waiters[n].key == a.key && s'.waiters[n].field == a.field && s'.waiters[n].value == a.value
            && s'.waiters[n].live && s'.waiters[n].got == [] && s'.waiters[n].box == None
            && (s'.waiters[n].registered <==> (a.key.url in s.conns || a.dialOk) && (a.key in s.current || a.channelOk))
  {
  }

  /**
   Whoever is sent a message registered for it: the message came from the queue of its
   registration and met the field and value given then, and its context was not done.
   */
  lemma ServedAsRegistered(states: seq<State>, actions: seq<Action>, i: nat, j: nat)
    requires IsRun(states, actions) && i < j < |actions| && actions[i].Register?
    requires |states[i].waiters| < |states[j].waiters| && |states[i].waiters| < |states[j + 1].waiters|
    requires states[j + 1].waiters[|states[i].waiters|].got != states[j].waiters[|states[i].waiters|].got
    ensures actions[j].Route?
    ensures actions[i].key in states[i + 1].current && states[i + 1].current[actions[i].key] == actions[j].consumer
    ensures var field, value, m := actions[i].field, actions[i].value, actions[j].message;
            && states[j + 1].waiters[|states[i].waiters|].got == [m]
            && (|| field == "" || (field in m.fields && m.fields[field] == value) || (field !in m.fields && value == ""))
    ensures forall k | i < k < j :: actions[k] != Expire(|states[i].waiters|)
  {
    var w := |states[i].waiters|;
    RegisteredHome(states, actions, i, j);
    assert Enabled(states[j], actions[j]);
    RunKeeps(states, actions, j);
    InvParts(states[j]);
    hide IsRun, Inv, CurrentOk, ListedOk, Do, Enabled, Listed;
    WaiterKept(states[j], actions[j], w);
    var served := FirstMatchIsServed(states, actions, j, actions[j].consumer, actions[j].message);
    assert served == Some(w);
    ListedHome(states[j], actions[j].consumer, w);
  }

  lemma InvParts(s: State)
    requires Inv(s)
    ensures CurrentOk(s) && ListedOk(s)
  {
  }

  lemma ListedHome(s: State, c: ConsumerId, w: WaiterId)
    requires ListedOk(s) && c < |s.consumers| && w in s.consumers[c].waiters
    ensures w < |s.waiters| && s.waiters[w].registered && s.waiters[w].home == c && s.waiters[w].got == []
  {
    assert Listed(s, c, w);
  }

  /** From its registration on a waiter has the field and value given there, and if it is registered the consumer of that key. */
  lemma RegisteredHome(states: seq<State>, actions: seq<Action>, i: nat, j: nat)
    requires IsRun(states, actions) && i < j < |actions| && actions[i].Register?
    ensures |states[i].waiters| < |states[j].waiters|
    ensures var a, x := actions[i], states[j].waiters[|states[i].waiters|];
            && x.field == a.field && x.value == a.value
            && (x.live <==> forall k | i < k < j :: actions[k] != Expire(|states[i].waiters|))
            && (x.registered ==> a.key in states[i + 1].current && states[i + 1].current[a.key] == x.home)
  {
    var w := |states[i].waiters|;
    assert Enabled(states[i], actions[i]);
    RunKeeps(states, actions, i);
    InvParts(states[i]);
    RegisterAppends(states[i], actions[i]);
    WaiterStays(states, actions, i + 1, j, w);
    hide Do, Enabled, Inv, CurrentOk, ListedOk, Listed;
  }

  /** Acknowledgements are attempted exactly for deliveries, requeues exactly for the rest. */
  lemma AcksAreDeliveries(states: seq<State>, actions: seq<Action>, k: nat, m: Message)
    requires IsRun(states, actions) && k <= |actions|
    ensures states[k].acks[m] == Deliveries(states[k].waiters, m)
    ensures states[k].routed[m] == states[k].acks[m] + states[k].nacks[m]
  {
    RunKeeps(states, actions, k);
    assert Acknowledged(states[k], m);
  }

  // ---- the object ----

  lemma {:induction false} DropIdAt(ids: seq<WaiterId>, id: WaiterId, i: nat)
    requires i < |ids| && ids[i] == id && id !in ids[..i]
    ensures DropId(ids, id) == DropAt(ids, i)
  {
    if i > 0 {
      assert ids[0] == ids[..i][0];
      assert ids[1..][..i - 1] == ids[..i][1..];
      DropIdAt(ids[1..], id, i - 1);
      assert ids == [ids[0]] + ids[1..];
    }
  }

  lemma {:induction false} DropIdNone(ids: seq<WaiterId>, id: WaiterId)
    requires id !in ids
    ensures DropId(ids, id) == ids
  {
    if ids != [] {
      DropIdNone(ids[1..], id);
    }
  }

  lemma RegisterCases(s: State, key: Key, field: string, value: string, dialOk: bool, channelOk: bool)
    ensures var s', n := DoRegister(s, key, field, value, dialOk, channelOk), |s.waiters|;
            var connected, admitted := key.url in s.conns || dialOk, key in s.current || channelOk;
            && n < |s'.waiters| && (s'.waiters[n].registered <==> connected && admitted)
            && (!connected ==> s' == Rejected(s, key, field, value))
            && (connected && !admitted ==> s' == Rejected(s.(conns := s.conns + {key.url}), key, field, value))
            && (connected && admitted ==>
                  s' == Registered(Admitted(s, key), key, field, value, Admitted(s, key).current[key]))
  {
  }

  lemma AdmittedCases(s: State, key: Key)
    requires CurrentOk(s) && s.removing.None?
    ensures var r := Admitted(s, key);
            && r.conns == s.conns + {key.url} && r.waiters == s.waiters && r.acks == s.acks && r.nacks == s.nacks
            && r.current[key] < |r.consumers|
            && (key in s.current ==> r.current == s.current && r.consumers == s.consumers)
            && (key !in s.current ==>
                  && r.current == s.current[key := |s.consumers|]
                  && r.consumers == s.consumers + [Consumer([], false, Receiving)])
  {
  }

  /** A registered waiter is the last on the list of its key's consumer. */
  lemma RegisterLast(s: State, key: Key, field: string, value: string, dialOk: bool, channelOk: bool)
    requires CurrentOk(s) && s.removing.None?
    ensures var s', n := DoRegister(s, key, field, value, dialOk, channelOk), |s.waiters|;
            n < |s'.waiters| && s'.waiters[n].registered ==>
              && key in s'.current && s'.current[key] < |s'.consumers|
              && s'.consumers[s'.current[key]].waiters ==
                 (if key in s.current then s.consumers[s.current[key]].waiters else []) + [n]
  {
    AdmittedCases(s, key);
    RegisterCases(s, key, field, value, dialOk, channelOk);
    hide DoRegister, CurrentOk;
  }

  class WaitManager {
    var conns: set<string>
    var current: map<Key, ConsumerId>
    var consumers: seq<Consumer>
    var waiters: seq<Waiter>
    var acks: multiset<Message>
    var nacks: multiset<Message>

    ghost predicate Agrees(s: State)
      reads this
    {
      && conns == s.conns && current == s.current && consumers == s.consumers && waiters == s.waiters
      && acks == s.acks && nacks == s.nacks
    }

    constructor ()
      ensures Agrees(INITIAL)
    {
      conns, current, consumers, waiters := {}, map[], [], [];
      acks, nacks := multiset{}, multiset{};
    }

    method GetOrCreateConnection(url: string, dialOk: bool) returns (ok: bool)
      modifies this`conns
      ensures ok <==> url in old(conns) || dialOk
      ensures conns == if ok then old(conns) + {url} else old(conns)
    {
      if url in conns {
        return true;
      }
      if !dialOk {
        return false;
      }
      conns := conns + {url};
      ok := true;
    }

    method GetOrCreateConsumer(key: Key, channelOk: bool) returns (c: Option<ConsumerId>)
      modifies this`current, this`consumers
      ensures c.Some? <==> key in old(current) || channelOk
      ensures c.Some? ==> key in current && current[key] == c.value
      ensures key in old(current) || c.None? ==> current == old(current) && consumers == old(consumers)
      ensures key !in old(current) && c.Some? ==>
                c.value == |old(consumers)| && current == old(current)[key := c.value]
                && consumers == old(consumers) + [Consumer([], false, Receiving)]
    {
      if key in current {
        return Some(current[key]);
      }
      if !channelOk {
        return None;
      }
      c := Some(|consumers|);
      current := current[key := c.value];
      consumers := consumers + [Consumer([], false, Receiving)];
    }

    method Register(key: Key, field: string, value: string, dialOk: bool, channelOk: bool, ghost s: State)
      returns (w: WaiterId, registered: bool)
      requires Agrees(s) && CurrentOk(s) && Enabled(s, Action.Register(key, field, value, dialOk, channelOk))
      modifies this
      ensures var s' := Do(s, Action.Register(key, field, value, dialOk, channelOk));
              Agrees(s') && w == |s.waiters| && registered == s'.waiters[w].registered
      ensures registered <==> (key.url in old(conns) || dialOk) && (key in old(current) || channelOk)
      ensures |waiters| == w + 1 && waiters[w].field == field && waiters[w].value == value
      ensures registered ==>
                && key in current && current[key] < |consumers|
                && consumers[current[key]].waiters ==
                   (if key in old(current) then old(consumers)[old(current)[key]].waiters else []) + [w]
    {
      hide CurrentOk, DoRegister, Admitted, Registered, Rejected;
      assert Do(s, Action.Register(key, field, value, dialOk, channelOk)) == DoRegister(s, key, field, value, dialOk, channelOk);
      AdmittedCases(s, key);
      RegisterNew(s, Action.Register(key, field, value, dialOk, channelOk));
      RegisterLast(s, key, field, value, dialOk, channelOk);
      RegisterCases(s, key, field, value, dialOk, channelOk);
      hide Enabled, Do;
      ghost var ready := Admitted(s, key);
      w := |waiters|;
      var connected := GetOrCreateConnection(key.url, dialOk);
      if !connected {
        RejectWaiter(key, field, value, s);
        return w, false;
      }
      var c := GetOrCreateConsumer(key, channelOk);
      if c.None? {
        RejectWaiter(key, field, value, s.(conns := s.conns + {key.url}));
        return w, false;
      }
      AddWaiter(key, field, value, c.value, ready);
      registered := true;
    }

    method RejectWaiter(key: Key, field: string, value: string, ghost s: State)
      requires Agrees(s)
      modifies this`waiters
      ensures Agrees(Rejected(s, key, field, value))
    {
      waiters := waiters + [Waiter(key, field, value, true, false, 0, false, None, [])];
    }

    method AddWaiter(key: Key, field: string, value: string, c: ConsumerId, ghost s: State)
      requires Agrees(s) && c < |consumers|
      modifies this`waiters, this`consumers
      ensures Agrees(Registered(s, key, field, value, c))
    {
      consumers := consumers[c := consumers[c].(waiters := consumers[c].waiters + [|waiters|])];
      waiters := waiters + [Waiter(key, field, value, true, true, c, false, None, [])];
    }

    /** The send on the waiter's channel, the acknowledgement and the removal from the list. */
    method DeliverToWaiter(c: ConsumerId, idx: nat, m: Message) returns (delivered: bool)
      requires c < |consumers| && idx < |consumers[c].waiters| && consumers[c].waiters[idx] < |waiters|
      modifies this`consumers, this`waiters, this`acks
      ensures delivered <==> old(waiters)[old(consumers)[c].waiters[idx]].box.None?
      ensures !delivered ==> consumers == old(consumers) && waiters == old(waiters) && acks == old(acks)
      ensures delivered ==>
                var ids, w := old(consumers)[c].waiters, old(waiters)[old(consumers)[c].waiters[idx]];
                && waiters == old(waiters)[ids[idx] := w.(box := Some(m), got := w.got + [m])]
                && consumers == old(consumers)[c := old(consumers)[c].(waiters := ids[..idx] + ids[idx + 1..])]
                && acks == old(acks) + multiset{m}
    {
      var ids := consumers[c].waiters;
      var w := ids[idx];
      if waiters[w].box.Some? {
        return false;
      }
      waiters := waiters[w := waiters[w].(box := Some(m), got := waiters[w].got + [m])];
      acks := acks + multiset{m};
      consumers := consumers[c := consumers[c].(waiters := ids[..idx] + ids[idx + 1..])];
      delivered := true;
    }

    /**
     Goes through the waiters in registration order and delivers to the first that is live
     and whose field has its value; nobody before it is like that, and if every channel has
     room nobody at all is when nothing is delivered.
     */
    method RouteMessage(c: ConsumerId, m: Message) returns (routed: bool)
      requires c < |consumers| && forall i | 0 <= i < |consumers[c].waiters| :: consumers[c].waiters[i] < |waiters|
      modifies this`consumers, this`waiters, this`acks
      ensures routed <==> Recipient(old(consumers)[c], old(waiters), m).Some?
      ensures routed ==>
                var q, ws, i := old(consumers)[c], old(waiters), Recipient(old(consumers)[c], old(waiters), m).value;
                && ws[q.waiters[i]].live
                && (|| ws[q.waiters[i]].field == ""
                    || (ws[q.waiters[i]].field in m.fields && m.fields[ws[q.waiters[i]].field] == ws[q.waiters[i]].value)
                    || (ws[q.waiters[i]].field !in m.fields && ws[q.waiters[i]].value == ""))
                && (forall j {:trigger Matches(ws[q.waiters[j]], m)} | 0 <= j < i && ws[q.waiters[j]].live ::
                      && ws[q.waiters[j]].field != ""
                      && (if ws[q.waiters[j]].field in m.fields
                          then m.fields[ws[q.waiters[j]].field] != ws[q.waiters[j]].value
                          else ws[q.waiters[j]].value != ""))
                && waiters == ws[q.waiters[i] := Delivered(ws[q.waiters[i]], m)]
                && consumers == old(consumers)[c := q.(waiters := DropAt(q.waiters, i))]
                && acks == old(acks) + multiset{m}
      ensures !routed ==> waiters == old(waiters) && consumers == old(consumers) && acks == old(acks)
      ensures var q, ws := old(consumers)[c], old(waiters);
              !routed && (forall j | 0 <= j < |q.waiters| :: ws[q.waiters[j]].box.None?) ==>
                forall j {:trigger Matches(ws[q.waiters[j]], m)} | 0 <= j < |q.waiters| && ws[q.waiters[j]].live ::
                  && ws[q.waiters[j]].field != ""
                  && (if ws[q.waiters[j]].field in m.fields
                      then m.fields[ws[q.waiters[j]].field] != ws[q.waiters[j]].value
                      else ws[q.waiters[j]].value != "")
    {
      var ids := consumers[c].waiters;
      FirstMatchExactly(ids, waiters, m);
      for i := 0 to |ids|
        invariant consumers == old(consumers) && waiters == old(waiters) && acks == old(acks)
        invariant forall j | 0 <= j < i :: !Matches(waiters[ids[j]], m)
      {
        var w := waiters[ids[i]];
        if w.live {
          if w.field == "" || FieldOf(m, w.field) == w.value {
            routed := DeliverToWaiter(c, i, m);
            return;
          }
        }
      }
      routed := false;
    }

    /** One message in the consumer's loop. */
    method Consume(c: ConsumerId, m: Message, ghost s: State)
      requires Agrees(s) && ListedOk(s) && Enabled(s, Route(c, m))
      modifies this
      ensures Agrees(Do(s, Route(c, m)))
    {
      hide ListedOk, FirstMatch, Recipient, Matches, Delivered, DropAt, Enabled, Do, DoRoute;
      RouteCases(s, c, m);
      ListedInRange(s, c);
      var routed := RouteMessage(c, m);
      if !routed {
        nacks := nacks + multiset{m};
        consumers := consumers[c := consumers[c].(loop := Throttled)];
      }
    }

    /** removeWaiter under the consumer's lock; `empty` when the consumer has to go. */
    method RemoveFromList(w: WaiterId, ghost s: State) returns (empty: bool)
      requires Agrees(s) && CurrentOk(s) && Enabled(s, Remove(w))
      modifies this`consumers, this`waiters
      ensures Agrees(Do(s, Remove(w)))
      ensures empty <==> Do(s, Remove(w)).removing.Some?
      ensures waiters[w].key in current ==> current[waiters[w].key] < |consumers|
      ensures empty <==> waiters[w].key in current && consumers[current[waiters[w].key]].waiters == []
    {
      CurrentInRange(s);
      var key := waiters[w].key;
      waiters := waiters[w := waiters[w].(cleaned := true)];
      if key !in current {
        return false;
      }
      var c := current[key];
      var ids := consumers[c].waiters;
      for i := 0 to |ids|
        invariant consumers == s.consumers && w !in ids[..i]
      {
        if ids[i] == w {
          DropIdAt(ids, w, i);
          consumers := consumers[c := consumers[c].(waiters := ids[..i] + ids[i + 1..])];
          empty := |consumers[c].waiters| == 0;
          return;
        }
      }
      assert ids[..|ids|] == ids;
      DropIdNone(ids, w);
      assert consumers[c := consumers[c].(waiters := ids)] == consumers;
      empty := |ids| == 0;
    }

    /** The rest of removeWaiter: the consumer goes, and its connection with the last one. */
    method DropConsumer(ghost s: State, key: Key)
      requires Agrees(s) && CurrentOk(s) && s.removing == Some(key)
      modifies this`consumers, this`current, this`conns
      ensures Enabled(s, FinishRemove) && Agrees(Do(s, FinishRemove))
      ensures current == old(current) - {key} && old(current)[key] < |consumers| == |old(consumers)|
      ensures consumers[old(current)[key]].cancelled
      ensures conns == if exists k | k in current :: k.url == key.url then old(conns) else old(conns) - {key.url}
    {
      CurrentInRange(s);
      var c := current[key];
      consumers := consumers[c := consumers[c].(cancelled := true)];
      current := current - {key};
      if !UrlInUse(current, key.url) {
        conns := conns - {key.url};
      }
    }

    /** Cancels every consumer and empties the maps. */
    method Close(ghost s: State)
      requires Agrees(s) && CurrentOk(s) && Enabled(s, Action.Close)
      modifies this`consumers, this`current, this`conns
      ensures Agrees(Do(s, Action.Close))
      ensures conns == {} && current == map[] && |consumers| == |old(consumers)|
      ensures forall c | 0 <= c < |consumers| ::
                && consumers[c].waiters == old(consumers)[c].waiters
                && (consumers[c].cancelled <==> old(consumers)[c].cancelled || c in old(current).Values)
    {
      CurrentInRange(s);
      hide CurrentOk;
      var open := current.Keys;
      ghost var done: set<ConsumerId> := {};
      while open != {}
        invariant open <= current.Keys && current == s.current
        invariant forall k | k in current && k !in open :: current[k] in done
        invariant done <= s.current.Values && consumers == Cancelled(s.consumers, done)
        decreases open
      {
        var key :| key in open;
        var c := current[key];
        CancelledAdd(s.consumers, done, c);
        consumers := consumers[c := consumers[c].(cancelled := true)];
        open := open - {key};
        done := done + {c};
      }
      current := map[];
      conns := {};
    }
  }

  lemma CancelledAdd(consumers: seq<Consumer>, ids: set<ConsumerId>, c: ConsumerId)
    requires c < |consumers|
    ensures Cancelled(consumers, ids + {c}) ==
            Cancelled(consumers, ids)[c := Cancelled(consumers, ids)[c].(cancelled := true)]
  {
  }

  lemma RouteCases(s: State, c: ConsumerId, m: Message)
    requires Enabled(s, Route(c, m))
    ensures c < |s.consumers|
    ensures var s', q := Do(s, Route(c, m)), s.consumers[c];
            && s'.conns == s.conns && s'.current == s.current
            && match Recipient(q, s.waiters, m)
               case Some(i) =>
                 && s'.waiters == s.waiters[q.waiters[i] := Delivered(s.waiters[q.waiters[i]], m)]
                 && s'.consumers == s.consumers[c := q.(waiters := DropAt(q.waiters, i))]
                 && s'.acks == s.acks + multiset{m} && s'.nacks == s.nacks
               case None =>
                 && s'.waiters == s.waiters && s'.consumers == s.consumers[c := q.(loop := Throttled)]
                 && s'.acks == s.acks && s'.nacks == s.nacks + multiset{m}
  {
    hide Recipient, Delivered, DropAt;
  }

  lemma ListedInRange(s: State, c: ConsumerId)
    requires ListedOk(s) && c < |s.consumers|
    ensures forall i | 0 <= i < |s.consumers[c].waiters| :: s.consumers[c].waiters[i] < |s.waiters|
  {
    assert forall i | 0 <= i < |s.consumers[c].waiters| :: Listed(s, c, s.consumers[c].waiters[i]);
  }

  lemma CurrentInRange(s: State)
    requires CurrentOk(s)
    ensures forall k | k in s.current :: s.current[k] < |s.consumers|
    ensures s.removing.Some? ==> s.removing.value in s.current
  {
  }
}
