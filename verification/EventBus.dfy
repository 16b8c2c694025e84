/**
 The event bus.  Any number of Publish calls run side by side under the read lock, one
 send at a time; subscribing, unsubscribing and closing take the write lock.  A channel
 keeps, besides its buffer, the history of what it was offered, what it accepted, what
 was dropped and what its subscriber has read.
 */
module EventBus {
  type SubId = nat

  datatype Event = Event(seqNo: nat, data: string)

  /** `waiting` receivers take a send directly; otherwise it needs room in the buffer. */
  datatype Chan = Chan(
    lossy: bool, capacity: nat, buffer: seq<Event>, waiting: nat, closed: bool,
    offered: multiset<Event>, sent: seq<Event>, lost: multiset<Event>, got: seq<Event>)

  /** One call of Publish: its event and the subscribers it has still to serve. */
  datatype Call =
    | Started(event: Event)
    | Inside(event: Event, rest: seq<SubId>)
    | Finished(event: Event)

  /** `panicked`: a send on a closed channel or a second close has happened. */
  datatype State = State(
    subscribers: seq<SubId>, chans: seq<Chan>, closed: bool, seqNo: nat, dropped: nat,
    calls: seq<Call>, panicked: bool)

  datatype Action =
    | Subscribe(capacity: nat, lossy: bool)
    | Unsubscribe(id: SubId)
    | Close
    | Publish(data: string)   // the event gets its sequence number
    | Enter(call: nat)        // the read lock is taken and the closed flag read
    | Send(call: nat)         // one turn of the loop over the subscribers
    | Leave(call: nat)        // the read lock is released
    | Read(id: SubId)         // the subscriber receives from its channel

  const INITIAL := State([], [], false, 0, 0, [], false)

  function NewChan(capacity: nat, lossy: bool): Chan {
    Chan(lossy, capacity, [], 0, false, multiset{}, [], multiset{}, [])
  }

  predicate HasRoom(ch: Chan) {
    ch.waiting > 0 || |ch.buffer| < ch.capacity
  }

  function Accept(ch: Chan, e: Event): Chan {
    if ch.waiting > 0 then ch.(waiting := ch.waiting - 1, got := ch.got + [e], sent := ch.sent + [e])
    else ch.(buffer := ch.buffer + [e], sent := ch.sent + [e])
  }

  function Offer(chans: seq<Chan>, ids: seq<SubId>, e: Event): (r: seq<Chan>)
    ensures |r| == |chans|
  {
    seq(|chans|, i requires 0 <= i < |chans| =>
      if i in ids then chans[i].(offered := chans[i].offered + multiset{e}) else chans[i])
  }

  /** Closing marks the channel. */
  function Shut(chans: seq<Chan>, ids: seq<SubId>): (r: seq<Chan>)
    ensures |r| == |chans|
  {
    seq(|chans|, i requires 0 <= i < |chans| => if i in ids then chans[i].(closed := true) else chans[i])
  }

  predicate NoneInside(s: State) {
    forall i | 0 <= i < |s.calls| :: !s.calls[i].Inside?
  }

  function Remove(ids: seq<SubId>, id: SubId): seq<SubId> {
    if ids == [] then [] else if ids[0] == id then ids[1..] else [ids[0]] + Remove(ids[1..], id)
  }

  predicate Enabled(s: State, a: Action) {
    match a
    case Subscribe(_, _) => NoneInside(s)
    case Unsubscribe(id) => NoneInside(s) && id < |s.chans|
    case Close => NoneInside(s)
    case Publish(_) => true
    case Enter(i) => i < |s.calls| && s.calls[i].Started?
    case Send(i) =>
      && i < |s.calls| && s.calls[i].Inside? && s.calls[i].rest != [] && s.calls[i].rest[0] < |s.chans|
      && (s.chans[s.calls[i].rest[0]].lossy || s.chans[s.calls[i].rest[0]].closed || HasRoom(s.chans[s.calls[i].rest[0]]))
    case Leave(i) => i < |s.calls| && s.calls[i].Inside? && s.calls[i].rest == []
    case Read(id) => id < |s.chans|
  }

  function Do(s: State, a: Action): State
    requires Enabled(s, a)
  {
    match a
    case Subscribe(capacity, lossy) =>
      s.(subscribers := s.subscribers + [|s.chans|], chans := s.chans + [NewChan(capacity, lossy)])
    case Unsubscribe(id) =>
      if id !in s.subscribers then s
      else s.(subscribers := Remove(s.subscribers, id), chans := Shut(s.chans, [id]),
              panicked := s.panicked || s.chans[id].closed)
    case Close =>
      if s.closed then s
      else s.(closed := true, subscribers := [], chans := Shut(s.chans, s.subscribers),
              panicked := s.panicked || exists id | id in s.subscribers && id < |s.chans| :: s.chans[id].closed)
    case Publish(data) => s.(seqNo := s.seqNo + 1, calls := s.calls + [Started(Event(s.seqNo + 1, data))])
    case Enter(i) =>
      var e := s.calls[i].event;
      if s.closed then s.(calls := s.calls[i := Finished(e)])
      else s.(calls := s.calls[i := Inside(e, s.subscribers)], chans := Offer(s.chans, s.subscribers, e))
    case Send(i) =>
      var e, id := s.calls[i].event, s.calls[i].rest[0];
      var s1 := s.(calls := s.calls[i := Inside(e, s.calls[i].rest[1..])]);
      var ch := s.chans[id];
      if ch.closed then s1.(panicked := true)
      else if HasRoom(ch) then s1.(chans := s.chans[id := Accept(ch, e)])
      else s1.(chans := s.chans[id := ch.(lost := ch.lost + multiset{e})], dropped := s.dropped + 1)
    case Leave(i) => s.(calls := s.calls[i := Finished(s.calls[i].event)])
    case Read(id) =>
      var ch := s.chans[id];
      if ch.buffer != [] then s.(chans := s.chans[id := ch.(buffer := ch.buffer[1..], got := ch.got + [ch.buffer[0]])])
      else if ch.closed then s
      else s.(chans := s.chans[id := ch.(waiting := ch.waiting + 1)])
  }

  ghost predicate IsRun(states: seq<State>, actions: seq<Action>) {
    && |states| == |actions| + 1 && states[0] == INITIAL
    && forall i {:trigger actions[i]} | 0 <= i < |actions| :: Enabled(states[i], actions[i]) && states[i + 1] == Do(states[i], actions[i])
  }

  // ---- the locks keep channels open ----

  ghost predicate Distinct(ids: seq<SubId>) {
    forall i, j | 0 <= i < j < |ids| :: ids[i] != ids[j]
  }

  ghost predicate Suffix(rest: seq<SubId>, ids: seq<SubId>) {
    |rest| <= |ids| && rest == ids[|ids| - |rest|..]
  }

  /** Listed channels are open, and a call inside works through the present list. */
  ghost predicate Open(s: State) {
    && !s.panicked && Distinct(s.subscribers)
    && (forall id | id in s.subscribers :: id < |s.chans| && !s.chans[id].closed)
    && (forall i | 0 <= i < |s.calls| && s.calls[i].Inside? :: Suffix(s.calls[i].rest, s.subscribers))
  }

  lemma {:induction false} RemoveOne(ids: seq<SubId>, id: SubId)
    requires Distinct(ids)
    ensures Distinct(Remove(ids, id))
    ensures forall m :: m in Remove(ids, id) <==> m in ids && m != id
  {
    if ids != [] {
      RemoveOne(ids[1..], id);
      if ids[0] == id {
        assert forall m | m in ids[1..] :: m != id;
      } else {
        var r := Remove(ids[1..], id);
        assert forall j | 0 <= j < |r| :: r[j] in ids[1..];
        assert Remove(ids, id) == [ids[0]] + r;
      }
    }
  }

  lemma StepOpen(s: State, a: Action)
    requires Open(s) && Enabled(s, a)
    ensures Open(Do(s, a))
  {
    hide HasRoom, Accept;
    match a {
      case Unsubscribe(id) => hide Distinct, Suffix; RemoveOne(s.subscribers, id);
      case Send(i) => hide Open; SendOpen(s, i);
      case Subscribe(_, _) =>
        hide Suffix;
        assert forall i | 0 <= i < |s.subscribers| :: s.subscribers[i] in s.subscribers;
      case Close => hide Suffix;
      case _ => hide Distinct;
    }
  }

  lemma SendOpen(s: State, i: nat)
    requires Open(s) && Enabled(s, Send(i))
    ensures Open(Do(s, Send(i)))
    ensures s.calls[i].rest[0] in s.subscribers
  {
    var rest, ids := s.calls[i].rest, s.subscribers;
    assert rest[0] == ids[|ids| - |rest|];
    assert rest[1..] == ids[|ids| - |rest| + 1..];
  }

  // ---- every event is accounted for ----

  /** Sends of `e` to channel `id` that calls inside have still to make. */
  function Pending(calls: seq<Call>, id: SubId, e: Event): nat {
    if calls == [] then 0
    else (if calls[0].Inside? && calls[0].event == e && id in calls[0].rest then 1 else 0) + Pending(calls[1..], id, e)
  }

  /** What was offered to a channel was accepted, dropped, or is still to be sent; only lossy ones drop. */
  ghost predicate Accounted(s: State, id: SubId, e: Event)
    requires id < |s.chans|
  {
    s.chans[id].offered[e] == multiset(s.chans[id].sent)[e] + s.chans[id].lost[e] + Pending(s.calls, id, e)
  }

  /** What a subscriber has read and what is buffered for it is what was sent, in order. */
  ghost predicate InOrder(ch: Chan) {
    && ch.sent == ch.got + ch.buffer && |ch.buffer| <= ch.capacity
    && (ch.waiting > 0 ==> ch.buffer == [])
    && (!ch.lossy ==> ch.lost == multiset{})
  }

  function TotalLost(chans: seq<Chan>): nat {
    if chans == [] then 0 else |chans[0].lost| + TotalLost(chans[1..])
  }

  /** Sequence numbers tell calls apart. */
  ghost predicate Numbered(s: State) {
    |s.calls| == s.seqNo && forall i | 0 <= i < |s.calls| :: s.calls[i].event.seqNo == i + 1
  }

  /** An event is offered to a channel at most once, and only by a call that has got inside. */
  ghost predicate OfferedOnce(s: State, id: SubId, e: Event)
    requires id < |s.chans|
  {
    && s.chans[id].offered[e] <= 1
    && (s.chans[id].offered[e] == 1 ==>
          0 < e.seqNo <= |s.calls| && s.calls[e.seqNo - 1].event == e && !s.calls[e.seqNo - 1].Started?)
  }

  ghost predicate Inv(s: State) {
    && Open(s) && Numbered(s) && s.dropped == TotalLost(s.chans)
    && (forall id: nat | id < |s.chans| :: InOrder(s.chans[id]))
    && (forall id: nat, e | id < |s.chans| :: Accounted(s, id, e) && OfferedOnce(s, id, e))
  }

  lemma {:induction false} PendingUpdate(calls: seq<Call>, i: nat, call: Call, id: SubId, e: Event)
    requires i < |calls|
    ensures Pending(calls[i := call], id, e) + (if calls[i].Inside? && calls[i].event == e && id in calls[i].rest then 1 else 0)
            == Pending(calls, id, e) + (if call.Inside? && call.event == e && id in call.rest then 1 else 0)
  {
    if i == 0 {
      assert calls[i := call][1..] == calls[1..];
    } else {
      assert calls[i := call][1..] == calls[1..][i - 1 := call];
      PendingUpdate(calls[1..], i - 1, call, id, e);
    }
  }

  lemma {:induction false} PendingAppend(calls: seq<Call>, call: Call, id: SubId, e: Event)
    requires !call.Inside?
    ensures Pending(calls + [call], id, e) == Pending(calls, id, e)
  {
    if calls == [] {
      assert calls + [call] == [call];
    } else {
      assert (calls + [call])[1..] == calls[1..] + [call];
      PendingAppend(calls[1..], call, id, e);
    }
  }

  lemma {:induction false} NothingPending(calls: seq<Call>, id: SubId, e: Event)
    requires forall i | 0 <= i < |calls| && calls[i].Inside? && calls[i].event == e :: id !in calls[i].rest
    ensures Pending(calls, id, e) == 0
  {
    if calls != [] {
      NothingPending(calls[1..], id, e);
    }
  }

  lemma {:induction false} TotalLostUpdate(chans: seq<Chan>, i: nat, ch: Chan)
    requires i < |chans|
    ensures TotalLost(chans[i := ch]) + |chans[i].lost| == TotalLost(chans) + |ch.lost|
  {
    if i == 0 {
      assert chans[i := ch][1..] == chans[1..];
    } else {
      assert chans[i := ch][1..] == chans[1..][i - 1 := ch];
      TotalLostUpdate(chans[1..], i - 1, ch);
    }
  }

  lemma {:induction false} TotalLostSame(a: seq<Chan>, b: seq<Chan>)
    requires |a| == |b| && forall i | 0 <= i < |a| :: a[i].lost == b[i].lost
    ensures TotalLost(a) == TotalLost(b)
  {
    if a != [] {
      TotalLostSame(a[1..], b[1..]);
    }
  }

  lemma {:induction false} TotalLostAppend(chans: seq<Chan>, ch: Chan)
    ensures TotalLost(chans + [ch]) == TotalLost(chans) + |ch.lost|
  {
    if chans == [] {
      assert chans + [ch] == [ch];
    } else {
      assert (chans + [ch])[1..] == chans[1..] + [ch];
      TotalLostAppend(chans[1..], ch);
    }
  }

  lemma SendDropped(s: State, i: nat)
    requires Enabled(s, Send(i)) && s.dropped == TotalLost(s.chans)
    ensures Do(s, Send(i)).dropped == TotalLost(Do(s, Send(i)).chans)
  {
    hide TotalLost;
    var e, id, s' := s.calls[i].event, s.calls[i].rest[0], Do(s, Send(i));
    var ch := s.chans[id];
    assert |ch.lost + multiset{e}| == |ch.lost| + 1;
    assert s'.chans == s.chans[id := s'.chans[id]];
    TotalLostUpdate(s.chans, id, s'.chans[id]);
  }

  lemma ReadDropped(s: State, id: SubId)
    requires Enabled(s, Read(id)) && s.dropped == TotalLost(s.chans)
    ensures Do(s, Read(id)).dropped == TotalLost(Do(s, Read(id)).chans)
  {
    hide TotalLost;
    TotalLostUpdate(s.chans, id, Do(s, Read(id)).chans[id]);
  }

  lemma StepDropped(s: State, a: Action)
    requires Enabled(s, a) && s.dropped == TotalLost(s.chans)
    ensures Do(s, a).dropped == TotalLost(Do(s, a).chans)
  {
    hide TotalLost;
    match a {
      case Subscribe(capacity, lossy) => TotalLostAppend(s.chans, NewChan(capacity, lossy));
      case Send(i) => SendDropped(s, i);
      case Read(id) => ReadDropped(s, id);
      case Unsubscribe(id) => TotalLostSame(s.chans, Do(s, a).chans);
      case Close => TotalLostSame(s.chans, Do(s, a).chans);
      case Enter(_) => TotalLostSame(s.chans, Do(s, a).chans);
      case Publish(_) =>
      case Leave(_) =>
    }
  }

  lemma AcceptInOrder(ch: Chan, e: Event)
    requires InOrder(ch) && HasRoom(ch)
    ensures InOrder(Accept(ch, e))
  {
  }

  lemma ReadInOrder(s: State, id: SubId)
    requires Enabled(s, Read(id)) && InOrder(s.chans[id])
    ensures InOrder(Do(s, Read(id)).chans[id])
  {
    var ch := s.chans[id];
    assert ch.buffer != [] ==> ch.got + ch.buffer == ch.got + [ch.buffer[0]] + ch.buffer[1..];
  }

  lemma StepInOrder(s: State, a: Action, id: SubId)
    requires Enabled(s, a) && id < |Do(s, a).chans| && (id < |s.chans| ==> InOrder(s.chans[id]))
    ensures InOrder(Do(s, a).chans[id])
  {
    hide HasRoom, Accept, NoneInside;
    match a {
      case Read(m) =>
        if m == id {
          hide Do, InOrder;
          ReadInOrder(s, id);
        }
      case Send(i) =>
        var m := s.calls[i].rest[0];
        if HasRoom(s.chans[m]) && m == id {
          hide InOrder;
          AcceptInOrder(s.chans[m], s.calls[i].event);
        }
      case _ =>
    }
  }

  lemma StepAccounted(s: State, a: Action, id: SubId, e: Event)
    requires Open(s) && Enabled(s, a) && id < |Do(s, a).chans| && (id < |s.chans| ==> Accounted(s, id, e))
    ensures Accounted(Do(s, a), id, e)
  {
    match a {
      case Subscribe(_, _) => SubscribeAccounted(s, a, id, e);
      case Publish(data) => PendingAppend(s.calls, Started(Event(s.seqNo + 1, data)), id, e);
      case Enter(i) => EnterAccounted(s, i, id, e);
      case Send(i) => SendAccounted(s, i, id, e);
      case Leave(i) => PendingUpdate(s.calls, i, Finished(s.calls[i].event), id, e);
      case _ =>
    }
  }

  lemma SubscribeAccounted(s: State, a: Action, id: SubId, e: Event)
    requires Open(s) && Enabled(s, a) && a.Subscribe? && id < |Do(s, a).chans| && (id < |s.chans| ==> Accounted(s, id, e))
    ensures Accounted(Do(s, a), id, e)
  {
    if id == |s.chans| {
      NothingPending(s.calls, id, e);
    }
  }

  lemma EnterAccounted(s: State, i: nat, id: SubId, e: Event)
    requires Open(s) && Enabled(s, Enter(i)) && id < |s.chans| && Accounted(s, id, e)
    ensures Accounted(Do(s, Enter(i)), id, e)
  {
    PendingUpdate(s.calls, i, Do(s, Enter(i)).calls[i], id, e);
  }

  /** One send moves one event of one channel from pending to sent or lost. */
  lemma SendMoves(s: State, i: nat, id: SubId, e: Event)
    requires Enabled(s, Send(i)) && id < |s.chans| && !s.chans[s.calls[i].rest[0]].closed
    ensures var s', hit := Do(s, Send(i)), id == s.calls[i].rest[0] && e == s.calls[i].event;
            && s'.chans[id].offered == s.chans[id].offered
            && multiset(s'.chans[id].sent)[e] + s'.chans[id].lost[e]
               == multiset(s.chans[id].sent)[e] + s.chans[id].lost[e] + (if hit then 1 else 0)
            && s'.calls == s.calls[i := Inside(s.calls[i].event, s.calls[i].rest[1..])]
  {
  }

  lemma SendAccounted(s: State, i: nat, id: SubId, e: Event)
    requires Open(s) && Enabled(s, Send(i)) && id < |s.chans| && Accounted(s, id, e)
    ensures Accounted(Do(s, Send(i)), id, e)
  {
    hide Pending, Do, HasRoom, Distinct;
    var rest := s.calls[i].rest;
    SendOpen(s, i);
    SendMoves(s, i, id, e);
    PendingUpdate(s.calls, i, Inside(s.calls[i].event, rest[1..]), id, e);
    SuffixDistinct(rest, s.subscribers);
    assert id in rest <==> id == rest[0] || id in rest[1..];
  }

  lemma SuffixDistinct(rest: seq<SubId>, ids: seq<SubId>)
    requires Distinct(ids) && Suffix(rest, ids) && rest != []
    ensures rest[0] !in rest[1..]
  {
    var k := |ids| - |rest|;
    forall j | 0 < j < |rest|
      ensures rest[j] != rest[0]
    {
      assert rest[j] == ids[k + j] && rest[0] == ids[k];
    }
  }

  lemma StepOfferedOnce(s: State, a: Action, id: SubId, e: Event)
    requires Numbered(s) && Enabled(s, a) && id < |Do(s, a).chans| && (id < |s.chans| ==> OfferedOnce(s, id, e))
    ensures OfferedOnce(Do(s, a), id, e)
  {
    hide Do, NoneInside;
    CallsAdvance(s, a);
    if id < |s.chans| {
      OfferedWhenRegistered(s, a, id, e);
    } else {
      NewChannel(s, a);
    }
  }

  lemma NewChannel(s: State, a: Action)
    requires Enabled(s, a) && |s.chans| < |Do(s, a).chans|
    ensures |Do(s, a).chans| == |s.chans| + 1 && Do(s, a).chans[|s.chans|].offered == multiset{}
  {
  }

  /** Calls keep their events and never start again. */
  lemma CallsAdvance(s: State, a: Action)
    requires Enabled(s, a)
    ensures |s.calls| <= |Do(s, a).calls|
    ensures forall i | 0 <= i < |s.calls| ::
              Do(s, a).calls[i].event == s.calls[i].event && (Do(s, a).calls[i].Started? ==> s.calls[i].Started?)
    ensures a.Enter? ==> !Do(s, a).calls[a.call].Started?
  {
  }

  /** A channel is offered an event exactly when a call gets inside an open bus while it is registered. */
  lemma OfferedWhenRegistered(s: State, a: Action, id: SubId, e: Event)
    requires Enabled(s, a) && id < |s.chans|
    ensures id < |Do(s, a).chans|
    ensures Do(s, a).chans[id].offered[e] ==
            s.chans[id].offered[e]
            + if a.Enter? && !s.closed && id in s.subscribers && s.calls[a.call].event == e then 1 else 0
  {
  }

  lemma StepNumbered(s: State, a: Action)
    requires Numbered(s) && Enabled(s, a)
    ensures Numbered(Do(s, a))
  {
  }

  lemma StepKeeps(s: State, a: Action)
    requires Inv(s) && Enabled(s, a)
    ensures Inv(Do(s, a))
  {
    hide Open, Do, InOrder, Accounted, OfferedOnce, Numbered, Enabled;
    StepOpen(s, a);
    StepNumbered(s, a);
    StepDropped(s, a);
    forall id: nat | id < |Do(s, a).chans|
      ensures InOrder(Do(s, a).chans[id])
    {
      StepInOrder(s, a, id);
    }
    forall id: nat, e | id < |Do(s, a).chans|
      ensures Accounted(Do(s, a), id, e) && OfferedOnce(Do(s, a), id, e)
    {
      StepAccounted(s, a, id, e);
      StepOfferedOnce(s, a, id, e);
    }
  }

  lemma {:induction false} RunKeeps(states: seq<State>, actions: seq<Action>, k: nat)
    requires IsRun(states, actions) && k <= |actions|
    ensures Inv(states[k])
  {
    hide Do, Enabled;
    if k > 0 {
      hide Inv;
      RunKeeps(states, actions, k - 1);
      StepKeeps(states[k - 1], actions[k - 1]);
    }
  }

  // ---- main results ----

  /** In no run is an event sent on a closed channel or a channel closed twice. */
  lemma NeverPanics(states: seq<State>, actions: seq<Action>, k: nat)
    requires IsRun(states, actions) && k <= |actions|
    ensures !states[k].panicked
  {
    RunKeeps(states, actions, k);
  }

  /**
   Once a call of Publish has finished, a blocking subscriber that was registered when
   the call got inside an open bus has been sent the event exactly once, and everybody
   else never; a lossy one was sent it once or has lost it once.
   */
  lemma SentExactlyOnce(states: seq<State>, actions: seq<Action>, k: nat, i: nat, id: SubId)
    requires IsRun(states, actions) && k <= |actions| && i < |states[k].calls| && id < |states[k].chans|
    requires states[k].calls[i].Finished?
    ensures var ch, e := states[k].chans[id], states[k].calls[i].event;
            && ch.offered[e] <= 1
            && multiset(ch.sent)[e] + ch.lost[e] == ch.offered[e]
            && (!ch.lossy ==> multiset(ch.sent)[e] == ch.offered[e])
            && multiset(ch.got + ch.buffer)[e] == multiset(ch.sent)[e]
  {
    RunKeeps(states, actions, k);
    var s := states[k];
    var e := s.calls[i].event;
    hide IsRun, Open;
    assert Accounted(s, id, e) && OfferedOnce(s, id, e) && InOrder(s.chans[id]);
    assert forall j | 0 <= j < |s.calls| :: s.calls[j].event.seqNo == j + 1;
    NothingPending(s.calls, id, e);
  }

  /** The counter is the number of sends to lossy subscribers that were dropped; the others never drop. */
  lemma DropsAreCounted(states: seq<State>, actions: seq<Action>, k: nat)
    requires IsRun(states, actions) && k <= |actions|
    ensures states[k].dropped == TotalLost(states[k].chans)
    ensures forall id: nat | id < |states[k].chans| && !states[k].chans[id].lossy :: states[k].chans[id].lost == multiset{}
  {
    RunKeeps(states, actions, k);
    assert forall id: nat | id < |states[k].chans| :: InOrder(states[k].chans[id]);
  }

  /** Subscribing does not look at the closed flag: such a channel stays silent and open until it is unsubscribed. */
  lemma {:induction false} LateSubscriberHearsNothing(states: seq<State>, actions: seq<Action>, k: nat, m: nat)
    requires IsRun(states, actions) && k < m <= |actions| && states[k].closed && actions[k].Subscribe?
    ensures states[m].closed && |states[k].chans| < |states[m].chans|
    ensures var ch := states[m].chans[|states[k].chans|]; ch.offered == multiset{}
    ensures (forall j | k < j < m :: actions[j] != Unsubscribe(|states[k].chans|)) ==>
              !states[m].chans[|states[k].chans|].closed && |states[k].chans| in states[m].subscribers
  {
    hide Do, Enabled;
    if m == k + 1 {
      LateStart(states[k], actions[k]);
    } else {
      LateSubscriberHearsNothing(states, actions, k, m - 1);
      LateStep(states[m - 1], actions[m - 1], |states[k].chans|);
    }
  }

  lemma LateStart(s: State, a: Action)
    requires Enabled(s, a) && a.Subscribe?
    ensures var s', id := Do(s, a), |s.chans|;
            s'.closed == s.closed && id < |s'.chans| && s'.chans[id].offered == multiset{}
            && !s'.chans[id].closed && id in s'.subscribers
  {
  }

  lemma LateStep(s: State, a: Action, id: SubId)
    requires Enabled(s, a) && s.closed && id < |s.chans| && s.chans[id].offered == multiset{}
    ensures Do(s, a).closed && id < |Do(s, a).chans| && Do(s, a).chans[id].offered == multiset{}
    ensures a != Unsubscribe(id) && !s.chans[id].closed && id in s.subscribers ==>
              !Do(s, a).chans[id].closed && id in Do(s, a).subscribers
  {
    if a.Unsubscribe? && a.id != id && id in s.subscribers {
      RemoveKeeps(s.subscribers, a.id, id);
    }
  }

  lemma {:induction false} RemoveKeeps(ids: seq<SubId>, id: SubId, m: SubId)
    requires id != m && m in ids
    ensures m in Remove(ids, id)
  {
    if ids[0] != id && ids[0] != m {
      RemoveKeeps(ids[1..], id, m);
    }
  }

  // ---- which channels are open ----

  /** A channel is open exactly while it is registered. */
  ghost predicate OthersShut(s: State) {
    forall id: nat | id < |s.chans| && !s.chans[id].closed :: id in s.subscribers
  }

  lemma StepShuts(s: State, a: Action)
    requires Open(s) && OthersShut(s) && Enabled(s, a)
    ensures OthersShut(Do(s, a))
    ensures forall id: nat | id < |s.chans| && s.chans[id].closed :: Do(s, a).chans[id].closed
    ensures forall id: nat | id < |s.chans| && a == Unsubscribe(id) :: Do(s, a).chans[id].closed
    ensures a == Close && !s.closed ==> forall id: nat | id < |Do(s, a).chans| :: Do(s, a).chans[id].closed
    ensures Do(s, a).closed && !s.closed ==> a == Close
  {
    hide HasRoom, Accept, Distinct, Suffix, NoneInside;
    if a.Unsubscribe? {
      forall id: nat | id < |s.chans| && !s.chans[id].closed && id != a.id
        ensures id in Do(s, a).subscribers
      {
        if a.id in s.subscribers {
          RemoveKeeps(s.subscribers, a.id, id);
        }
      }
    }
  }

  lemma {:induction false} RunShuts(states: seq<State>, actions: seq<Action>, k: nat)
    requires IsRun(states, actions) && k <= |actions|
    ensures OthersShut(states[k])
  {
    hide Do, Enabled;
    if k > 0 {
      hide OthersShut, Open;
      var a := actions[k - 1];
      RunShuts(states, actions, k - 1);
      RunKeeps(states, actions, k - 1);
      StepShuts(states[k - 1], a);
    }
  }

  /** Channel `id` was subscribed by action `k` on a closed bus and not unsubscribed before action `m`. */
  ghost predicate LateAndKept(states: seq<State>, actions: seq<Action>, m: nat, id: SubId, k: nat)
    requires |states| == |actions| + 1 && m <= |actions|
  {
    && k < m && actions[k].Subscribe? && |states[k].chans| == id && states[k].closed
    && forall j {:trigger actions[j]} | k < j < m :: actions[j] != Unsubscribe(id)
  }

  /** On a closed bus a channel is open if and only if it was subscribed after the close and not unsubscribed since. */
  lemma {:induction false} OpenAfterCloseExactly(states: seq<State>, actions: seq<Action>, m: nat, id: SubId)
    requires IsRun(states, actions) && m <= |actions| && states[m].closed && id < |states[m].chans|
    ensures !states[m].chans[id].closed <==> exists k: nat :: LateAndKept(states, actions, m, id, k)
  {
    hide Do, Enabled, Open, OthersShut;
    if k: nat :| LateAndKept(states, actions, m, id, k) {
      LateSubscriberHearsNothing(states, actions, k, m);
    }
    if !states[m].chans[id].closed {
      assert m > 0 by {
        assert states[0] == INITIAL;
      }
      var s, a := states[m - 1], actions[m - 1];
      RunKeeps(states, actions, m - 1);
      RunShuts(states, actions, m - 1);
      StepShuts(s, a);
      if id < |s.chans| {
        assert s.closed && !s.chans[id].closed && a != Unsubscribe(id);
        OpenAfterCloseExactly(states, actions, m - 1, id);
        var k: nat :| LateAndKept(states, actions, m - 1, id, k);
        assert LateAndKept(states, actions, m, id, k);
      } else {
        NewChannel(s, a);
        NewBySubscribe(s, a);
        assert LateAndKept(states, actions, m, id, m - 1);
      }
    }
  }

  lemma NewBySubscribe(s: State, a: Action)
    requires Enabled(s, a) && |s.chans| < |Do(s, a).chans|
    ensures a.Subscribe? && Do(s, a).closed == s.closed
  {
  }

  // ---- who is sent what, over runs ----

  /** Getting inside an open bus offers the event to exactly the subscribers registered at that moment, and nothing offers it again. */
  lemma {:induction false} OfferedExactly(states: seq<State>, actions: seq<Action>, j: nat, i: nat, k: nat, id: SubId)
    requires IsRun(states, actions) && j < k <= |actions| && actions[j] == Enter(i) && id < |states[k].chans|
    ensures i < |states[j].calls| && i < |states[k].calls|
    ensures var e := states[j].calls[i].event;
            && states[k].calls[i].event == e && !states[k].calls[i].Started?
            && states[k].chans[id].offered[e] == if !states[j].closed && id in states[j].subscribers then 1 else 0
    decreases k
  {
    hide Do, Inv;
    var s, a := states[k - 1], actions[k - 1];
    RunKeeps(states, actions, j);
    RunKeeps(states, actions, k - 1);
    ListedInRange(states[j]);
    CallsAdvance(s, a);
    var e := states[j].calls[i].event;
    if k == j + 1 {
      NotYetOffered(s, i);
      if id < |s.chans| {
        OfferedWhenRegistered(s, a, id, e);
      } else {
        NewChannel(s, a);
      }
    } else {
      ChansGrow(states, actions, j, k - 1);
      if id < |s.chans| {
        OfferedExactly(states, actions, j, i, k - 1, id);
        OtherEvent(s, a, i);
        OfferedWhenRegistered(s, a, id, e);
      } else {
        NewChannel(s, a);
        CallsSince(states, actions, j, i, k - 1);
      }
    }
  }

  lemma ListedInRange(s: State)
    requires Inv(s)
    ensures forall id | id in s.subscribers :: id < |s.chans|
  {
    hide InOrder, Accounted, OfferedOnce;
  }

  /** Before the call gets inside nobody has been offered its event. */
  lemma NotYetOffered(s: State, i: nat)
    requires Inv(s) && i < |s.calls| && s.calls[i].Started?
    ensures forall id: nat | id < |s.chans| :: s.chans[id].offered[s.calls[i].event] == 0
  {
    hide InOrder, Accounted, Open, Pending;
    var e := s.calls[i].event;
    assert e.seqNo == i + 1;
    forall id: nat | id < |s.chans|
      ensures s.chans[id].offered[e] == 0
    {
      assert OfferedOnce(s, id, e);
    }
  }

  /** A later call that gets inside has another event. */
  lemma OtherEvent(s: State, a: Action, i: nat)
    requires Inv(s) && Enabled(s, a) && i < |s.calls| && !s.calls[i].Started?
    ensures a.Enter? ==> s.calls[a.call].event != s.calls[i].event
  {
    hide InOrder, Accounted, Open, OfferedOnce;
    if a.Enter? {
      assert s.calls[a.call].event.seqNo == a.call + 1 && s.calls[i].event.seqNo == i + 1;
    }
  }

  lemma {:induction false} CallsSince(states: seq<State>, actions: seq<Action>, j: nat, i: nat, k: nat)
    requires IsRun(states, actions) && j < k <= |actions| && actions[j] == Enter(i)
    ensures i < |states[j].calls| && i < |states[k].calls|
    ensures states[k].calls[i].event == states[j].calls[i].event && !states[k].calls[i].Started?
    decreases k
  {
    hide Do;
    CallsAdvance(states[k - 1], actions[k - 1]);
    if k > j + 1 {
      CallsSince(states, actions, j, i, k - 1);
    }
  }

  lemma {:induction false} ChansGrow(states: seq<State>, actions: seq<Action>, j: nat, k: nat)
    requires IsRun(states, actions) && j <= k <= |actions|
    ensures |states[j].chans| <= |states[k].chans|
    decreases k
  {
    hide Do, Enabled;
    if j < k {
      var a := actions[k - 1];
      ChansGrow(states, actions, j, k - 1);
      ChansGrowStep(states[k - 1], a);
    }
  }

  lemma ChansGrowStep(s: State, a: Action)
    requires Enabled(s, a)
    ensures |s.chans| <= |Do(s, a).chans|
  {
  }

  /**
   Once a publish has finished, a blocking channel was sent the event exactly once if it
   was registered when the publish got inside an open bus, and otherwise never; a lossy
   channel was sent it once or has lost it once under the same condition.
   */
  lemma DeliveredExactly(states: seq<State>, actions: seq<Action>, j: nat, i: nat, k: nat, id: SubId)
    requires IsRun(states, actions) && j < k <= |actions| && actions[j] == Enter(i) && id < |states[k].chans|
    requires i < |states[k].calls| && states[k].calls[i].Finished?
    ensures i < |states[j].calls|
    ensures var e, ch := states[j].calls[i].event, states[k].chans[id];
            var due := if !states[j].closed && id in states[j].subscribers then 1 else 0;
            && multiset(ch.sent)[e] + ch.lost[e] == due
            && (!ch.lossy ==> multiset(ch.sent)[e] == due)
  {
    hide IsRun;
    OfferedExactly(states, actions, j, i, k, id);
    SentExactlyOnce(states, actions, k, i, id);
  }

  // ---- what a subscription asked for ----

  /** A new channel is as it was asked for, open and empty, and is listed last. */
  lemma SubscribedState(s: State, a: Action)
    requires Enabled(s, a) && a.Subscribe?
    ensures var s', id := Do(s, a), |s.chans|;
            && s'.chans[..id] == s.chans && |s'.chans| == id + 1 && s'.subscribers == s.subscribers + [id]
            && s'.chans[id].lossy == a.lossy && s'.chans[id].capacity == a.capacity && !s'.chans[id].closed
            && s'.chans[id].buffer == [] && s'.chans[id].sent == [] && s'.chans[id].got == []
            && s'.chans[id].lost == multiset{} && s'.chans[id].offered == multiset{}
  {
  }

  lemma ChannelKept(s: State, a: Action, id: SubId)
    requires Enabled(s, a) && id < |s.chans|
    ensures id < |Do(s, a).chans|
    ensures Do(s, a).chans[id].lossy == s.chans[id].lossy && Do(s, a).chans[id].capacity == s.chans[id].capacity
  {
    hide HasRoom, NoneInside;
  }

  /** A channel stays as lossy and as large as it was subscribed. */
  lemma {:induction false} SubscribedAs(states: seq<State>, actions: seq<Action>, k: nat, m: nat)
    requires IsRun(states, actions) && k < m <= |actions| && actions[k].Subscribe?
    ensures |states[k].chans| < |states[m].chans|
    ensures var ch := states[m].chans[|states[k].chans|];
            ch.lossy == actions[k].lossy && ch.capacity == actions[k].capacity
  {
    hide Do, Enabled;
    if m == k + 1 {
      SubscribedState(states[k], actions[k]);
    } else {
      SubscribedAs(states, actions, k, m - 1);
      ChannelKept(states[m - 1], actions[m - 1], |states[k].chans|);
    }
  }

  lemma {:induction false} ClosedExactly(states: seq<State>, actions: seq<Action>, m: nat)
    requires IsRun(states, actions) && m <= |actions|
    ensures states[m].closed <==> exists k :: 0 <= k < m && actions[k] == Close
  {
    hide Enabled, Do;
    if m > 0 {
      ClosedExactly(states, actions, m - 1);
      ClosedBy(states[m - 1], actions[m - 1]);
    }
  }

  lemma ClosedBy(s: State, a: Action)
    requires Enabled(s, a)
    ensures Do(s, a).closed <==> s.closed || a == Close
  {
    hide HasRoom, NoneInside;
  }

  lemma StaysListed(s: State, a: Action, id: SubId)
    requires Open(s) && Enabled(s, a) && a != Close && id < |s.chans|
    ensures id in Do(s, a).subscribers <==> id in s.subscribers && a != Unsubscribe(id)
  {
    hide Suffix, HasRoom, Accept;
    if a.Unsubscribe? {
      RemoveOne(s.subscribers, a.id);
    }
    hide Distinct;
  }

  /** On an open bus a channel is listed exactly until it is unsubscribed. */
  lemma {:induction false} ListedExactly(states: seq<State>, actions: seq<Action>, k: nat, m: nat)
    requires IsRun(states, actions) && k < m <= |actions| && actions[k].Subscribe?
    requires forall j | 0 <= j < m :: actions[j] != Close
    ensures |states[k].chans| in states[m].subscribers <==> forall j | k < j < m :: actions[j] != Unsubscribe(|states[k].chans|)
  {
    hide Do, Enabled;
    if m == k + 1 {
      SubscribedState(states[k], actions[k]);
    } else {
      ListedExactly(states, actions, k, m - 1);
      SubscribedAs(states, actions, k, m - 1);
      RunKeeps(states, actions, m - 1);
      StaysListed(states[m - 1], actions[m - 1], |states[k].chans|);
    }
    hide Inv, Open;
  }

  /** A call carries the data it was given, under its own number. */
  lemma {:induction false} PublishedAs(states: seq<State>, actions: seq<Action>, k: nat, m: nat)
    requires IsRun(states, actions) && k < m <= |actions| && actions[k].Publish?
    ensures |states[k].calls| < |states[m].calls|
    ensures states[m].calls[|states[k].calls|].event == Event(|states[k].calls| + 1, actions[k].data)
  {
    if m == k + 1 {
      RunKeeps(states, actions, k);
      hide Open, InOrder, Accounted, OfferedOnce;
    } else {
      hide Do, Enabled;
      PublishedAs(states, actions, k, m - 1);
      CallsAdvance(states[m - 1], actions[m - 1]);
    }
  }

  /**
   From subscription to delivery.  Action `k` subscribed the channel, action `p` published
   the data, action `j` let that call inside and by state `m` it has finished.  The event is
   due if the channel was subscribed before, not unsubscribed in between and the bus not
   closed.  A blocking channel was sent it exactly as often as it was due and has lost
   nothing at all; a lossy one was sent or has lost it as often.  Neither ever buffers more
   than it asked for, and what it was sent is what its subscriber has read, then what is buffered.
   */
  lemma SubscriberGetsPublished(states: seq<State>, actions: seq<Action>, k: nat, p: nat, j: nat, m: nat)
    requires IsRun(states, actions) && k < m <= |actions| && p < j < m
    requires actions[k].Subscribe? && actions[p].Publish? && actions[j] == Enter(|states[p].calls|)
    requires |states[p].calls| < |states[m].calls| && states[m].calls[|states[p].calls|].Finished?
    ensures |states[k].chans| < |states[m].chans|
    ensures var id, ch := |states[k].chans|, states[m].chans[|states[k].chans|];
            var e := Event(|states[p].calls| + 1, actions[p].data);
            var due := if k < j && (forall n | 0 <= n < j :: actions[n] != Close)
                          && (forall n | k < n < j :: actions[n] != Unsubscribe(id)) then 1 else 0;
            && multiset(ch.sent)[e] + ch.lost[e] == due
            && (!actions[k].lossy ==> multiset(ch.sent)[e] == due && ch.lost == multiset{})
            && |ch.buffer| <= actions[k].capacity && ch.sent == ch.got + ch.buffer
  {
    var id := |states[k].chans|;
    SubscribedAs(states, actions, k, m);
    PublishedAs(states, actions, p, j);
    DeliveredExactly(states, actions, j, |states[p].calls|, m, id);
    ClosedExactly(states, actions, j);
    RunKeeps(states, actions, m);
    assert InOrder(states[m].chans[id]);
    if k < j {
      if forall n | 0 <= n < j :: actions[n] != Close {
        ListedExactly(states, actions, k, j);
      }
    } else {
      RunKeeps(states, actions, j);
      ListedInRange(states[j]);
      ChansGrow(states, actions, j, k);
    }
    hide IsRun, Inv;
  }

  /** A send reaches a receiver or the buffer if either has room; only a lossy channel with a full buffer loses the event. */
  lemma SendOutcome(s: State, i: nat)
    requires i < |s.calls| && s.calls[i].Inside? && s.calls[i].rest != [] && s.calls[i].rest[0] < |s.chans|
    requires !s.chans[s.calls[i].rest[0]].closed
    ensures var ch, e := s.chans[s.calls[i].rest[0]], s.calls[i].event;
            var full := ch.waiting == 0 && |ch.buffer| >= ch.capacity;
            && (Enabled(s, Send(i)) <==> ch.lossy || !full)
            && (Enabled(s, Send(i)) ==>
                  var ch' := Do(s, Send(i)).chans[s.calls[i].rest[0]];
                  if full then ch'.sent == ch.sent && ch'.lost == ch.lost + multiset{e}
                  else ch'.sent == ch.sent + [e] && ch'.lost == ch.lost)
  {
  }

  /** A receiver that waits on an empty open channel is handed the next event sent to it, even without a buffer. */
  lemma ReceiverGetsNext(s: State, id: SubId, i: nat)
    requires Enabled(s, Read(id)) && s.chans[id].buffer == [] && !s.chans[id].closed
    requires i < |s.calls| && s.calls[i].Inside? && s.calls[i].rest != [] && s.calls[i].rest[0] == id
    ensures Enabled(Do(s, Read(id)), Send(i))
    ensures Do(Do(s, Read(id)), Send(i)).chans[id].got == s.chans[id].got + [s.calls[i].event]
  {
  }

  // ---- the sum of the lossy sends ----

  function LossySent(chans: seq<Chan>): nat {
    if chans == [] then 0 else (if chans[0].lossy then |chans[0].sent| else 0) + LossySent(chans[1..])
  }

  predicate LossySend(s: State, a: Action) {
    && a.Send? && a.call < |s.calls| && s.calls[a.call].Inside? && s.calls[a.call].rest != []
    && s.calls[a.call].rest[0] < |s.chans| && s.chans[s.calls[a.call].rest[0]].lossy
  }

  /** Sends to lossy subscribers attempted by the first `k` actions. */
  function LossyAttempts(states: seq<State>, actions: seq<Action>, k: nat): nat
    requires k <= |actions| && k <= |states|
  {
    if k == 0 then 0
    else LossyAttempts(states, actions, k - 1) + if LossySend(states[k - 1], actions[k - 1]) then 1 else 0
  }

  lemma {:induction false} LossySentUpdate(chans: seq<Chan>, i: nat, ch: Chan)
    requires i < |chans| && ch.lossy == chans[i].lossy
    ensures LossySent(chans[i := ch]) + (if ch.lossy then |chans[i].sent| else 0)
            == LossySent(chans) + (if ch.lossy then |ch.sent| else 0)
  {
    if i == 0 {
      assert chans[i := ch][1..] == chans[1..];
    } else {
      assert chans[i := ch][1..] == chans[1..][i - 1 := ch];
      LossySentUpdate(chans[1..], i - 1, ch);
    }
  }

  lemma {:induction false} LossySentSame(a: seq<Chan>, b: seq<Chan>)
    requires |a| == |b| && forall i | 0 <= i < |a| :: a[i].lossy == b[i].lossy && a[i].sent == b[i].sent
    ensures LossySent(a) == LossySent(b)
  {
    if a != [] {
      LossySentSame(a[1..], b[1..]);
    }
  }

  lemma {:induction false} LossySentAppend(chans: seq<Chan>, ch: Chan)
    requires ch.sent == []
    ensures LossySent(chans + [ch]) == LossySent(chans)
  {
    if chans == [] {
      assert chans + [ch] == [ch];
    } else {
      assert (chans + [ch])[1..] == chans[1..] + [ch];
      LossySentAppend(chans[1..], ch);
    }
  }

  lemma SendCounts(s: State, i: nat)
    requires Open(s) && Enabled(s, Send(i))
    ensures LossySent(Do(s, Send(i)).chans) + Do(s, Send(i)).dropped
            == LossySent(s.chans) + s.dropped + if LossySend(s, Send(i)) then 1 else 0
  {
    SendOpen(s, i);
    var id, s' := s.calls[i].rest[0], Do(s, Send(i));
    assert s'.chans == s.chans[id := s'.chans[id]];
    LossySentUpdate(s.chans, id, s'.chans[id]);
    hide LossySent, Open;
  }

  lemma OtherCounts(s: State, a: Action)
    requires Enabled(s, a) && !a.Send?
    ensures LossySent(Do(s, a).chans) == LossySent(s.chans) && Do(s, a).dropped == s.dropped
  {
    hide LossySent;
    if a.Subscribe? {
      LossySentAppend(s.chans, NewChan(a.capacity, a.lossy));
    } else {
      LossySentSame(s.chans, Do(s, a).chans);
    }
  }

  /** In every run the events lossy subscribers were sent and the drops add up to the sends to lossy subscribers attempted. */
  lemma {:induction false} LossySendsAddUp(states: seq<State>, actions: seq<Action>, k: nat)
    requires IsRun(states, actions) && k <= |actions|
    ensures LossySent(states[k].chans) + states[k].dropped == LossyAttempts(states, actions, k)
  {
    hide Do, Enabled, LossySend, Open;
    if k > 0 {
      var s, a := states[k - 1], actions[k - 1];
      LossySendsAddUp(states, actions, k - 1);
      RunKeeps(states, actions, k - 1);
      if a.Send? {
        SendCounts(s, a.call);
      } else {
        OtherCounts(s, a);
        NotASend(s, a);
      }
    }
  }

  lemma NotASend(s: State, a: Action)
    requires !a.Send?
    ensures !LossySend(s, a)
  {
  }

  // ---- the object ----

  lemma {:induction false} RemoveAt(ids: seq<SubId>, id: SubId, i: nat)
    requires i < |ids| && ids[i] == id && id !in ids[..i]
    ensures Remove(ids, id) == ids[..i] + ids[i + 1..]
  {
    if i > 0 {
      assert ids[0] == ids[..i][0];
      assert ids[1..][..i - 1] == ids[..i][1..];
      RemoveAt(ids[1..], id, i - 1);
      assert ids[..i] == [ids[0]] + ids[1..][..i - 1];
    }
  }

  /** Every channel of `ids` is served once. */
  function ServedAll(chans: seq<Chan>, ids: seq<SubId>, e: Event): (r: seq<Chan>)
    ensures |r| == |chans|
  {
    seq(|chans|, i requires 0 <= i < |chans| => if i in ids then Served(chans[i], e) else chans[i])
  }

  lemma ServeNone(chans: seq<Chan>, ids: seq<SubId>, e: Event)
    ensures ServedAll(chans, ids[..0], e) == chans && FullBefore(chans, ids, 0) == {}
  {
  }

  lemma ServeNext(chans: seq<Chan>, ids: seq<SubId>, k: nat, e: Event)
    requires Distinct(ids) && k < |ids| && ids[k] < |chans|
    ensures ServedAll(chans, ids[..k], e)[ids[k]] == chans[ids[k]]
    ensures ServedAll(chans, ids[..k + 1], e) == ServedAll(chans, ids[..k], e)[ids[k] := Served(chans[ids[k]], e)]
  {
    hide Served, Distinct;
    DistinctAt(ids, k);
    var a, b := ServedAll(chans, ids[..k + 1], e), ServedAll(chans, ids[..k], e)[ids[k] := Served(chans[ids[k]], e)];
    forall i | 0 <= i < |chans|
      ensures a[i] == b[i]
    {
      assert i in ids[..k + 1] <==> i in ids[..k] || i == ids[k];
    }
  }

  lemma FullNext(chans: seq<Chan>, ids: seq<SubId>, k: nat)
    requires k < |ids| && ids[k] < |chans|
    ensures |FullBefore(chans, ids, k + 1)| == |FullBefore(chans, ids, k)| + if HasRoom(chans[ids[k]]) then 0 else 1
  {
    var before, after := FullBefore(chans, ids, k), FullBefore(chans, ids, k + 1);
    assert after == if HasRoom(chans[ids[k]]) then before else before + {k};
  }

  lemma ShutNone(chans: seq<Chan>, ids: seq<SubId>)
    ensures Shut(chans, ids[..0]) == chans && ids[..|ids|] == ids
  {
  }

  /** Closing one more listed channel, which is still open. */
  lemma ShutNext(chans: seq<Chan>, ids: seq<SubId>, i: nat)
    requires Distinct(ids) && i < |ids| && forall id | id in ids :: id < |chans| && !chans[id].closed
    ensures ids[i] < |chans| && !Shut(chans, ids[..i])[ids[i]].closed
    ensures Shut(Shut(chans, ids[..i]), [ids[i]]) == Shut(chans, ids[..i + 1])
  {
    DistinctAt(ids, i);
  }

  lemma DistinctAt(ids: seq<SubId>, i: nat)
    requires Distinct(ids) && i < |ids|
    ensures ids[i] in ids && ids[i] !in ids[..i]
    ensures forall m :: m in ids[..i + 1] <==> m in ids[..i] || m == ids[i]
  {
    assert ids[..i + 1] == ids[..i] + [ids[i]];
  }

  /** The positions before `served` whose channel has no receiver waiting and no room. */
  ghost function FullBefore(chans: seq<Chan>, ids: seq<SubId>, served: nat): set<nat> {
    set k: nat | k < served && k < |ids| && ids[k] < |chans|
                 && chans[ids[k]].waiting == 0 && |chans[ids[k]].buffer| >= chans[ids[k]].capacity
  }

  function Served(ch: Chan, e: Event): Chan {
    if HasRoom(ch) then Accept(ch, e) else ch.(lost := ch.lost + multiset{e})
  }

  /** A served channel has the event sent if a receiver waits or the buffer has room, and lost if not; the others stay. */
  lemma ServedMeans(chans: seq<Chan>, ids: seq<SubId>, served: nat, e: Event, id: SubId)
    requires served <= |ids| && id < |chans|
    ensures var was, ch := chans[id], ServedAll(chans, ids[..served], e)[id];
            if id !in ids[..served] then ch == was
            else if was.waiting == 0 && |was.buffer| >= was.capacity then ch == was.(lost := was.lost + multiset{e})
            else if was.waiting == 0 then ch == was.(buffer := was.buffer + [e], sent := was.sent + [e])
            else ch == was.(waiting := was.waiting - 1, got := was.got + [e], sent := was.sent + [e])
  {
  }

  lemma BroadcastMeans(chans: seq<Chan>, ids: seq<SubId>, served: nat, e: Event)
    requires served <= |ids| && forall k | 0 <= k < |ids| :: ids[k] < |chans|
    ensures forall k | 0 <= k < served ::
              var was, ch := chans[ids[k]], ServedAll(chans, ids[..served], e)[ids[k]];
              if was.waiting == 0 && |was.buffer| >= was.capacity then ch.sent == was.sent && ch.lost == was.lost + multiset{e}
              else ch.sent == was.sent + [e] && ch.lost == was.lost
  {
    hide ServedAll;
    forall k | 0 <= k < served
      ensures var was, ch := chans[ids[k]], ServedAll(chans, ids[..served], e)[ids[k]];
              if was.waiting == 0 && |was.buffer| >= was.capacity then ch.sent == was.sent && ch.lost == was.lost + multiset{e}
              else ch.sent == was.sent + [e] && ch.lost == was.lost
    {
      assert ids[..served][k] == ids[k];
      ServedMeans(chans, ids, served, e, ids[k]);
    }
  }

  class Bus {
    var subscribers: seq<SubId>
    var chans: seq<Chan>
    var closed: bool
    var dropped: nat

    ghost predicate Agrees(s: State)
      reads this
    {
      subscribers == s.subscribers && chans == s.chans && closed == s.closed && dropped == s.dropped
    }

    constructor ()
      ensures Agrees(INITIAL)
    {
      subscribers := [];
      chans := [];
      closed := false;
      dropped := 0;
    }

    method AddSubscription(capacity: nat, lossy: bool, ghost s: State) returns (id: SubId)
      requires Agrees(s) && Enabled(s, Action.Subscribe(capacity, lossy))
      modifies this`chans, this`subscribers
      ensures Agrees(Do(s, Action.Subscribe(capacity, lossy)))
      ensures id == |old(chans)| && subscribers == old(subscribers) + [id]
      ensures |chans| == id + 1 && chans[..id] == old(chans)
      ensures chans[id].lossy == lossy && chans[id].capacity == capacity && !chans[id].closed
      ensures chans[id].buffer == [] && chans[id].sent == [] && chans[id].lost == multiset{}
    {
      id := |chans|;
      chans := chans + [NewChan(capacity, lossy)];
      subscribers := subscribers + [id];
    }

    /** For clients that can tolerate gaps: a full buffer drops the event. */
    method Subscribe(capacity: nat, ghost s: State) returns (id: SubId)
      requires Agrees(s) && Enabled(s, Action.Subscribe(capacity, true))
      modifies this`chans, this`subscribers
      ensures Agrees(Do(s, Action.Subscribe(capacity, true)))
      ensures id == |old(chans)| && |chans| == id + 1 && chans[..id] == old(chans) && subscribers == old(subscribers) + [id]
      ensures chans[id].lossy && chans[id].capacity == capacity && !chans[id].closed
      ensures chans[id].buffer == [] && chans[id].sent == [] && chans[id].lost == multiset{}
    {
      id := AddSubscription(capacity, true, s);
    }

    /** For components that must miss nothing: a full buffer makes Publish wait. */
    method SubscribeBlocking(capacity: nat, ghost s: State) returns (id: SubId)
      requires Agrees(s) && Enabled(s, Action.Subscribe(capacity, false))
      modifies this`chans, this`subscribers
      ensures Agrees(Do(s, Action.Subscribe(capacity, false)))
      ensures id == |old(chans)| && |chans| == id + 1 && chans[..id] == old(chans) && subscribers == old(subscribers) + [id]
      ensures !chans[id].lossy && chans[id].capacity == capacity && !chans[id].closed
      ensures chans[id].buffer == [] && chans[id].sent == [] && chans[id].lost == multiset{}
    {
      id := AddSubscription(capacity, false, s);
    }

    /** Closing a closed channel panics. */
    method CloseChannel(id: SubId)
      requires id < |chans| && !chans[id].closed
      modifies this`chans
      ensures chans == Shut(old(chans), [id])
    {
      chans := chans[id := chans[id].(closed := true)];
    }

    method Unsubscribe(id: SubId, ghost s: State)
      requires Agrees(s) && Open(s) && Enabled(s, Action.Unsubscribe(id))
      modifies this
      ensures Agrees(Do(s, Action.Unsubscribe(id))) && !Do(s, Action.Unsubscribe(id)).panicked
    {
      for i := 0 to |subscribers|
        invariant Agrees(s) && id !in subscribers[..i]
      {
        if subscribers[i] == id {
          RemoveAt(subscribers, id, i);
          subscribers := subscribers[..i] + subscribers[i + 1..];
          CloseChannel(id);
          return;
        }
      }
      assert subscribers[..|subscribers|] == subscribers;
    }

    method Close(ghost s: State)
      requires Agrees(s) && Open(s) && Enabled(s, Action.Close)
      modifies this
      ensures Agrees(Do(s, Action.Close)) && !Do(s, Action.Close).panicked
    {
      hide Shut, Distinct, Suffix;
      ShutNone(chans, subscribers);
      if closed {
        return;
      }
      closed := true;
      for i := 0 to |subscribers|
        invariant subscribers == s.subscribers && closed && dropped == s.dropped
        invariant chans == Shut(s.chans, subscribers[..i])
      {
        ShutNext(s.chans, subscribers, i);
        CloseChannel(subscribers[i]);
      }
      subscribers := [];
    }

    /**
     The loop of Publish in one goroutine: subscribers are served in order, each once,
     until all are or a blocking one with a full buffer makes it wait.
     */
    method Broadcast(e: Event) returns (served: nat)
      requires !closed && Distinct(subscribers)
      requires forall id | id in subscribers :: id < |chans| && !chans[id].closed
      modifies this`chans, this`dropped
      ensures served <= |subscribers| && |chans| == |old(chans)|
      ensures forall k | 0 <= k < |subscribers| :: subscribers[k] < |chans|
      ensures served < |subscribers| ==>
                var ch := old(chans)[subscribers[served]]; !ch.lossy && ch.waiting == 0 && |ch.buffer| >= ch.capacity
      ensures forall k | 0 <= k < served ::
                var was, ch := old(chans)[subscribers[k]], chans[subscribers[k]];
                if was.waiting == 0 && |was.buffer| >= was.capacity
                then was.lossy && ch.sent == was.sent && ch.lost == was.lost + multiset{e}
                else ch.sent == was.sent + [e] && ch.lost == was.lost
      ensures chans == ServedAll(old(chans), subscribers[..served], e)
      ensures dropped == old(dropped) + |FullBefore(old(chans), subscribers, served)|
    {
      hide Accept, Distinct, ServedAll, FullBefore;
      assert forall k | 0 <= k < |subscribers| :: subscribers[k] in subscribers;
      served := 0;
      ServeNone(chans, subscribers, e);
      while served < |subscribers|
        invariant served <= |subscribers|
        invariant forall k | 0 <= k < served ::
                    var ch := old(chans)[subscribers[k]]; ch.lossy || ch.waiting > 0 || |ch.buffer| < ch.capacity
        invariant chans == ServedAll(old(chans), subscribers[..served], e)
        invariant dropped == old(dropped) + |FullBefore(old(chans), subscribers, served)|
      {
        var id := subscribers[served];
        ServeNext(old(chans), subscribers, served, e);
        FullNext(old(chans), subscribers, served);
        var ch := chans[id];
        if !ch.lossy && !HasRoom(ch) {
          BroadcastMeans(old(chans), subscribers, served, e);
          return;
        }
        if HasRoom(ch) {
          chans := chans[id := Accept(ch, e)];
        } else {
          chans := chans[id := ch.(lost := ch.lost + multiset{e})];
          dropped := dropped + 1;
        }
        served := served + 1;
      }
      BroadcastMeans(old(chans), subscribers, served, e);
    }
  }
}
