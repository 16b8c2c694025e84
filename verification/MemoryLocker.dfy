/**
 The in-memory keyed lock: a flag per key and a channel with one slot that an unlock
 fills without blocking.  Any number of clients; a wait may time out at any moment, and
 a newcomer may take a free key before a woken client looks at it again.
 */
module MemoryLocker {
  type Key = string

  type Client = nat

  /** `token`: the one-slot channel is full. */
  datatype Entry = Entry(locked: bool, token: bool)

  datatype Pc =
    | Outside
    | Trying(key: Key)    // about to look at the flag
    | Waiting(key: Key)   // in the select

  /**
   `locks` and `unlocks` count successful calls, `held` who locked and has not unlocked,
   and `foreign` successful unlocks by clients that did not hold the key.
   */
  datatype State = State(
    entries: map<Key, Entry>, pcs: map<Client, Pc>,
    locks: map<Key, nat>, unlocks: map<Key, nat>, held: map<Key, multiset<Client>>, foreign: map<Key, nat>)

  datatype Action =
    | Begin(client: Client, key: Key)
    | Attempt(client: Client)
    | Wake(client: Client)
    | GiveUp(client: Client)
    | Unlock(client: Client, key: Key)

  const INITIAL := State(map[], map[], map[], map[], map[], map[])

  const NEW_ENTRY := Entry(false, false)

  function PcOf(s: State, c: Client): Pc {
    if c in s.pcs then s.pcs[c] else Outside
  }

  function Count(m: map<Key, nat>, key: Key): nat {
    if key in m then m[key] else 0
  }

  function Holders(s: State, key: Key): multiset<Client> {
    if key in s.held then s.held[key] else multiset{}
  }

  /** getEntry: the entry of a key is created once and shared from then on. */
  function WithEntry(entries: map<Key, Entry>, key: Key): map<Key, Entry> {
    if key in entries then entries else entries[key := NEW_ENTRY]
  }

  function Locked(s: State, key: Key): bool {
    key in s.entries && s.entries[key].locked
  }

  // ---- what one critical section does to an entry ----

  function Taken(e: Entry): (Entry, bool) {
    if e.locked then (e, false) else (e.(locked := true), true)
  }

  function Freed(e: Entry): (Entry, bool) {
    if e.locked then (Entry(false, true), true) else (e, false)
  }

  // ---- steps ----

  predicate Enabled(s: State, a: Action) {
    match a
    case Begin(c, _) => PcOf(s, c) == Outside
    case Attempt(c) => PcOf(s, c).Trying? && PcOf(s, c).key in s.entries
    case Wake(c) => PcOf(s, c).Waiting? && PcOf(s, c).key in s.entries && s.entries[PcOf(s, c).key].token
    case GiveUp(c) => PcOf(s, c).Waiting?
    case Unlock(c, _) => PcOf(s, c) == Outside
  }

  function Do(s: State, a: Action): State
    requires Enabled(s, a)
  {
    match a
    case Begin(c, key) => s.(entries := WithEntry(s.entries, key), pcs := s.pcs[c := Trying(key)])
    case Attempt(c) =>
      var key := PcOf(s, c).key;
      var (e, ok) := Taken(s.entries[key]);
      if ok then
        s.(entries := s.entries[key := e], pcs := s.pcs[c := Outside],
           locks := s.locks[key := Count(s.locks, key) + 1], held := s.held[key := Holders(s, key) + multiset{c}])
      else s.(pcs := s.pcs[c := Waiting(key)])
    case Wake(c) =>
      var key := PcOf(s, c).key;
      s.(entries := s.entries[key := s.entries[key].(token := false)], pcs := s.pcs[c := Trying(key)])
    case GiveUp(c) => s.(pcs := s.pcs[c := Outside])
    case Unlock(c, key) =>
      var entries := WithEntry(s.entries, key);
      var (e, ok) := Freed(entries[key]);
      if !ok then s.(entries := entries)
      else
        s.(entries := entries[key := e], unlocks := s.unlocks[key := Count(s.unlocks, key) + 1],
           held := s.held[key := Holders(s, key) - multiset{c}],
           foreign := if c in Holders(s, key) then s.foreign else s.foreign[key := Count(s.foreign, key) + 1])
  }

  ghost predicate IsRun(states: seq<State>, actions: seq<Action>) {
    && |states| == |actions| + 1 && states[0] == INITIAL
    && forall i {:trigger actions[i]} | 0 <= i < |actions| :: Enabled(states[i], actions[i]) && states[i + 1] == Do(states[i], actions[i])
  }

  // ---- what every step keeps ----

  /** As many successful locks as unlocks, plus one while the key is locked. */
  ghost predicate Balanced(s: State, key: Key) {
    Count(s.locks, key) == Count(s.unlocks, key) + if Locked(s, key) then 1 else 0
  }

  ghost predicate SomeoneAt(s: State, pc: Pc) {
    exists c :: PcOf(s, c) == pc
  }

  /** A free key with a waiter: a token is waiting too, or somebody is about to look. */
  ghost predicate NoLostWakeUp(s: State, key: Key) {
    key in s.entries && !Locked(s, key) && SomeoneAt(s, Waiting(key)) ==>
      s.entries[key].token || SomeoneAt(s, Trying(key))
  }

  /** Who holds the key: one client while it is locked, and one more for every foreign unlock. */
  ghost predicate HoldersCounted(s: State, key: Key) {
    |Holders(s, key)| == Count(s.foreign, key) + if Locked(s, key) then 1 else 0
  }

  ghost predicate EntriesExist(s: State) {
    forall c :: PcOf(s, c) == Outside || PcOf(s, c).key in s.entries
  }

  ghost predicate Inv(s: State) {
    EntriesExist(s) && forall key :: Balanced(s, key) && NoLostWakeUp(s, key) && HoldersCounted(s, key)
  }

  lemma StepKeeps(s: State, a: Action)
    requires Inv(s) && Enabled(s, a)
    ensures Inv(Do(s, a))
  {
    forall key
      ensures Balanced(Do(s, a), key) && HoldersCounted(Do(s, a), key)
    {
      StepBalanced(s, a, key);
      StepHolders(s, a, key);
    }
    forall key
      ensures NoLostWakeUp(Do(s, a), key)
    {
      assert key !in s.entries ==> !SomeoneAt(s, Waiting(key));
      StepWakes(s, a, key);
    }
    StepEntries(s, a);
  }

  lemma StepEntries(s: State, a: Action)
    requires EntriesExist(s) && Enabled(s, a)
    ensures EntriesExist(Do(s, a))
  {
    forall c
      ensures PcOf(Do(s, a), c) == Outside || PcOf(Do(s, a), c).key in Do(s, a).entries
    {
      assert PcOf(s, c) == Outside || PcOf(s, c).key in s.entries;
    }
  }

  lemma StepBalanced(s: State, a: Action, key: Key)
    requires Balanced(s, key) && Enabled(s, a)
    ensures Balanced(Do(s, a), key)
  {
    hide Do;
    if KeyOf(s, a) != key {
      OtherKeys(s, a, key);
    } else {
      match a {
        case Attempt(c) => AttemptBalanced(s, c, key);
        case Unlock(c, k) => UnlockEffect(s, c, key);
        case _ => QuietHolders(s, a, key);
      }
    }
  }

  lemma AttemptBalanced(s: State, c: Client, key: Key)
    requires Balanced(s, key) && Enabled(s, Attempt(c))
    ensures Balanced(Do(s, Attempt(c)), key)
  {
  }

  /** Unlocking by cases: the flag, the holders and the two counters. */
  lemma UnlockEffect(s: State, c: Client, key: Key)
    requires Enabled(s, Unlock(c, key))
    ensures var s' := Do(s, Unlock(c, key));
            && !Locked(s', key) && s'.locks == s.locks
            && (!Locked(s, key) ==> s'.held == s.held && s'.foreign == s.foreign && s'.unlocks == s.unlocks)
            && (Locked(s, key) ==>
                  && Holders(s', key) == Holders(s, key) - multiset{c}
                  && Count(s'.foreign, key) == Count(s.foreign, key) + (if c in Holders(s, key) then 0 else 1)
                  && Count(s'.unlocks, key) == Count(s.unlocks, key) + 1)
  {
    if Locked(s, key) {
      assert WithEntry(s.entries, key) == s.entries;
      assert Freed(s.entries[key]) == (Entry(false, true), true);
    } else {
      var e := WithEntry(s.entries, key)[key];
      assert Freed(e) == (e, false);
    }
    hide Freed, WithEntry;
  }

  lemma UnlockHolders(s: State, c: Client, key: Key)
    requires HoldersCounted(s, key) && Enabled(s, Unlock(c, key))
    ensures HoldersCounted(Do(s, Unlock(c, key)), key)
  {
    hide Do, Locked, Enabled;
    UnlockEffect(s, c, key);
    RemoveOne(Holders(s, key), c);
  }

  lemma RemoveOne(m: multiset<Client>, c: Client)
    ensures |m - multiset{c}| == |m| - if c in m then 1 else 0
  {
    if c !in m {
      assert m - multiset{c} == m;
    }
  }

  lemma AttemptHolders(s: State, c: Client, key: Key)
    requires HoldersCounted(s, key) && Enabled(s, Attempt(c))
    ensures HoldersCounted(Do(s, Attempt(c)), key)
  {
  }

  lemma StepHolders(s: State, a: Action, key: Key)
    requires HoldersCounted(s, key) && Enabled(s, a)
    ensures HoldersCounted(Do(s, a), key)
  {
    hide Do;
    if KeyOf(s, a) != key {
      OtherKeys(s, a, key);
    } else {
      match a {
        case Attempt(c) => AttemptHolders(s, c, key);
        case Unlock(c, k) => UnlockHolders(s, c, key);
        case _ => QuietHolders(s, a, key);
      }
    }
  }

  lemma QuietHolders(s: State, a: Action, key: Key)
    requires Enabled(s, a) && !a.Attempt? && !a.Unlock?
    ensures var s' := Do(s, a);
            s'.held == s.held && s'.foreign == s.foreign && s'.locks == s.locks && s'.unlocks == s.unlocks
            && Locked(s', key) == Locked(s, key)
  {
  }

  lemma OtherKeys(s: State, a: Action, key: Key)
    requires Enabled(s, a) && KeyOf(s, a) != key
    ensures var s' := Do(s, a);
            && Holders(s', key) == Holders(s, key) && Count(s'.foreign, key) == Count(s.foreign, key)
            && Count(s'.locks, key) == Count(s.locks, key) && Count(s'.unlocks, key) == Count(s.unlocks, key)
            && Locked(s', key) == Locked(s, key)
  {
  }

  function KeyOf(s: State, a: Action): Key {
    match a
    case Begin(_, k) => k
    case Unlock(_, k) => k
    case _ => if PcOf(s, a.client).Outside? then "" else PcOf(s, a.client).key
  }

  /** Only the acting client moves. */
  lemma PcEffect(s: State, a: Action, d: Client)
    requires Enabled(s, a)
    ensures d != a.client ==> PcOf(Do(s, a), d) == PcOf(s, d)
  {
    hide Taken, Freed, WithEntry;
  }

  lemma OthersStay(s: State, a: Action, pc: Pc)
    requires Enabled(s, a)
    ensures SomeoneAt(Do(s, a), pc) ==> SomeoneAt(s, pc) || PcOf(Do(s, a), a.client) == pc
    ensures SomeoneAt(s, pc) ==> SomeoneAt(Do(s, a), pc) || PcOf(s, a.client) == pc
  {
    hide Do, Enabled, PcOf;
    if SomeoneAt(Do(s, a), pc) {
      var d :| PcOf(Do(s, a), d) == pc;
      PcEffect(s, a, d);
    }
    if SomeoneAt(s, pc) {
      var d :| PcOf(s, d) == pc;
      PcEffect(s, a, d);
    }
  }

  /** What a step does to the entry of a key. */
  lemma EntryEffect(s: State, a: Action, key: Key)
    requires Enabled(s, a)
    ensures var s' := Do(s, a);
            && (key in s'.entries && (key !in s.entries || s'.entries[key] != s.entries[key]) ==> key == KeyOf(s, a) && !a.GiveUp?)
            && (key in s.entries ==> key in s'.entries)
            && (key in s'.entries && !Locked(s', key) && Locked(s, key) ==> s'.entries[key].token)
            && (key in s.entries && s.entries[key].token && !s'.entries[key].token ==> a.Wake?)
            && (a.Attempt? && key == KeyOf(s, a) ==> Locked(s', key))
            && ((a.Begin? || a.Wake?) ==> PcOf(s', a.client) == Trying(KeyOf(s, a)))
            && (PcOf(s', a.client).Waiting? ==> a.Attempt? && PcOf(s', a.client).key == KeyOf(s, a))
            && (PcOf(s, a.client).Trying? ==> a.Attempt? && PcOf(s, a.client).key == KeyOf(s, a))
  {
  }

  lemma StepWakes(s: State, a: Action, key: Key)
    requires NoLostWakeUp(s, key) && Enabled(s, a)
    requires key !in s.entries ==> !SomeoneAt(s, Waiting(key))
    ensures NoLostWakeUp(Do(s, a), key)
  {
    hide SomeoneAt, Do, Enabled, PcOf;
    EntryEffect(s, a, key);
    OthersStay(s, a, Waiting(key));
    OthersStay(s, a, Trying(key));
    AtWitness(Do(s, a), a.client);
  }

  lemma AtWitness(s: State, c: Client)
    ensures SomeoneAt(s, PcOf(s, c))
  {
  }

  lemma {:induction false} RunKeeps(states: seq<State>, actions: seq<Action>, k: nat)
    requires IsRun(states, actions) && k <= |actions|
    ensures Inv(states[k])
  {
    hide Inv, Do, Enabled;
    if k == 0 {
      InvInitially();
    } else {
      RunKeeps(states, actions, k - 1);
      StepKeeps(states[k - 1], actions[k - 1]);
    }
  }

  lemma InvInitially()
    ensures Inv(INITIAL)
  {
  }

  // ---- main results ----

  /** In every run, at every moment and for every key. */
  lemma LocksMatchUnlocks(states: seq<State>, actions: seq<Action>, k: nat, key: Key)
    requires IsRun(states, actions) && k <= |actions|
    ensures Count(states[k].locks, key) - Count(states[k].unlocks, key) == if Locked(states[k], key) then 1 else 0
  {
    RunKeeps(states, actions, k);
    assert Balanced(states[k], key);
  }

  /** At most one client holds the key exactly as long as foreign unlocks and the flag add up to at most one. */
  lemma MutualExclusion(states: seq<State>, actions: seq<Action>, k: nat, key: Key)
    requires IsRun(states, actions) && k <= |actions|
    ensures |Holders(states[k], key)| == Count(states[k].foreign, key) + if Locked(states[k], key) then 1 else 0
    ensures (forall i, c | 0 <= i < k && actions[i] == Unlock(c, key) :: c in Holders(states[i], key) || !Locked(states[i], key)) ==>
              |Holders(states[k], key)| <= 1 && (Locked(states[k], key) <==> |Holders(states[k], key)| == 1)
  {
    RunKeeps(states, actions, k);
    assert HoldersCounted(states[k], key);
    if forall i, c | 0 <= i < k && actions[i] == Unlock(c, key) :: c in Holders(states[i], key) || !Locked(states[i], key) {
      NoForeign(states, actions, k, key);
    }
  }

  lemma {:induction false} NoForeign(states: seq<State>, actions: seq<Action>, k: nat, key: Key)
    requires IsRun(states, actions) && k <= |actions|
    requires forall i, c | 0 <= i < k && actions[i] == Unlock(c, key) :: c in Holders(states[i], key) || !Locked(states[i], key)
    ensures Count(states[k].foreign, key) == 0
  {
    hide Do, Enabled, Locked;
    if k > 0 {
      NoForeign(states, actions, k - 1, key);
      ForeignEffect(states[k - 1], actions[k - 1], key);
    }
  }

  lemma ForeignEffect(s: State, a: Action, key: Key)
    requires Enabled(s, a)
    requires forall c | a == Unlock(c, key) :: c in Holders(s, key) || !Locked(s, key)
    ensures Count(Do(s, a).foreign, key) == Count(s.foreign, key)
  {
    if a.Unlock? && a.key == key {
      UnlockEffect(s, a.client, key);
      hide Do;
    }
  }

  /** No wake-up is lost: with a free key and a waiter, at most two steps of clients already there lock the key again. */
  lemma FreeKeyIsTaken(states: seq<State>, actions: seq<Action>, k: nat, key: Key, w: Client) returns (next: seq<Action>, c: Client)
    requires IsRun(states, actions) && k <= |actions|
    requires key in states[k].entries && !Locked(states[k], key) && PcOf(states[k], w) == Waiting(key)
    ensures next == [Attempt(c)] || next == [Wake(c), Attempt(c)]
    ensures Enabled(states[k], next[0])
    ensures |next| == 2 ==> Enabled(Do(states[k], next[0]), next[1])
    ensures Locked(if |next| == 1 then Do(states[k], next[0]) else Do(Do(states[k], next[0]), next[1]), key)
  {
    var s := states[k];
    RunKeeps(states, actions, k);
    hide IsRun;
    assert NoLostWakeUp(s, key);
    if s.entries[key].token {
      c := w;
      next := [Wake(c), Attempt(c)];
    } else {
      c :| PcOf(s, c) == Trying(key);
      next := [Attempt(c)];
    }
  }

  /** A look at the flag: on a free key the client holds it and leaves, on a locked one it waits and nothing else changes. */
  lemma AttemptOutcome(s: State, c: Client)
    requires Enabled(s, Attempt(c))
    ensures var s', key := Do(s, Attempt(c)), PcOf(s, c).key;
            if Locked(s, key)
            then PcOf(s', c) == Waiting(key) && s'.entries == s.entries && s'.locks == s.locks && s'.held == s.held
            else PcOf(s', c) == Outside && Locked(s', key) && Holders(s', key) == Holders(s, key) + multiset{c}
  {
  }

  /** A client of one key never touches the entry of another. */
  lemma KeysAreIndependent(s: State, a: Action, key: Key)
    requires Enabled(s, a)
    requires KeyOf(s, a) != key
    ensures key in Do(s, a).entries <==> key in s.entries
    ensures key in s.entries ==> Do(s, a).entries[key] == s.entries[key]
  {
  }

  // ---- wake-ups ----

  predicate Wakes(s: State, a: Action, key: Key) {
    a.Wake? && PcOf(s, a.client) == Waiting(key)
  }

  /** How many waiters of a key the first `k` actions woke. */
  function WokenUp(states: seq<State>, actions: seq<Action>, k: nat, key: Key): nat
    requires k <= |actions| && k <= |states|
  {
    if k == 0 then 0
    else WokenUp(states, actions, k - 1, key) + if Wakes(states[k - 1], actions[k - 1], key) then 1 else 0
  }

  function TokenOf(s: State, key: Key): nat {
    if key in s.entries && s.entries[key].token then 1 else 0
  }

  lemma TokenStep(s: State, a: Action, key: Key)
    requires Enabled(s, a)
    ensures TokenOf(Do(s, a), key) + (if Wakes(s, a, key) then 1 else 0) + Count(s.unlocks, key)
            <= TokenOf(s, key) + Count(Do(s, a).unlocks, key)
  {
  }

  /** Each wake-up was paid for by an unlock: a key wakes its waiters at most as often as it was unlocked. */
  lemma {:induction false} WakeUpsArePaidFor(states: seq<State>, actions: seq<Action>, k: nat, key: Key)
    requires IsRun(states, actions) && k <= |actions|
    ensures WokenUp(states, actions, k, key) + TokenOf(states[k], key) <= Count(states[k].unlocks, key)
  {
    hide Do, Enabled, Wakes, TokenOf;
    if k > 0 {
      WakeUpsArePaidFor(states, actions, k - 1, key);
      TokenStep(states[k - 1], actions[k - 1], key);
    } else {
      NoTokenInitially(key);
    }
  }

  lemma NoTokenInitially(key: Key)
    ensures TokenOf(INITIAL, key) == 0
  {
  }

  // ---- the object ----

  class MemoryLocker {
    var entries: map<Key, Entry>

    constructor ()
      ensures entries == map[]
    {
      entries := map[];
    }

    method GetEntry(key: Key)
      modifies this
      ensures entries == WithEntry(old(entries), key)
      ensures key in old(entries) ==> entries == old(entries)
      ensures key !in old(entries) ==>
                entries.Keys == old(entries).Keys + {key} && !entries[key].locked && !entries[key].token
    {
      if key !in entries {
        entries := entries[key := NEW_ENTRY];
      }
    }

    /** One turn of the loop in Lock, under the entry's mutex. */
    method TryLock(key: Key, ghost client: Client, ghost s: State) returns (ok: bool)
      requires PcOf(s, client) == Trying(key) && key in entries && entries == s.entries
      modifies this
      ensures entries == Do(s, Attempt(client)).entries
      ensures ok <==> PcOf(Do(s, Attempt(client)), client) == Outside
      ensures ok <==> !old(entries)[key].locked
      ensures entries == old(entries)[key := Entry(true, old(entries)[key].token)]
    {
      if !entries[key].locked {
        entries := entries[key := entries[key].(locked := true)];
        return true;
      }
      return false;
    }

    /** Fails on a free key; otherwise frees it and fills the slot of the channel if it is empty. */
    method Unlock(key: Key, ghost client: Client, ghost s: State) returns (ok: bool)
      requires PcOf(s, client) == Outside && entries == s.entries
      modifies this
      ensures entries == Do(s, Action.Unlock(client, key)).entries
      ensures ok <==> Locked(s, key)
      ensures ok <==> key in old(entries) && old(entries)[key].locked
      ensures ok ==> entries == old(entries)[key := Entry(false, true)]
      ensures !ok && key in old(entries) ==> entries == old(entries)
    {
      GetEntry(key);
      if !entries[key].locked {
        return false;
      }
      entries := entries[key := entries[key].(locked := false)];
      if !entries[key].token {
        entries := entries[key := entries[key].(token := true)];
      }
      return true;
    }
  }
}
