/** The deadline priority queue: a heap with lazy deletion and sparse
    compaction, against a plain map from handle to deadline and key. */
module DeadlineQueue {
  import opened Common
  import opened Clock
  import opened Heap

  // ---------------------------------------------------------- the plain queue

  datatype Armed<K> = Armed(at: Instant, key: K)

  /** Live deadlines by handle, and the last handle minted. */
  datatype Plain<K> = Plain(minted: nat, live: map<nat, Armed<K>>)

  datatype Op<K> = PushOp(at: Instant, key: K) | CancelOp(handle: nat) | NextOp | PopOp(now: Instant)

  datatype Reply<K> =
    | Minted(handle: nat)
    | Cancelled(removed: bool)
    | Next(at: Option<Instant>)
    | Popped(key: Option<K>)

  /** `h` is live and no live deadline is earlier, or equal and armed before. */
  predicate IsFirst<K>(live: map<nat, Armed<K>>, h: nat) {
    h in live && forall g :: g in live ==> Before(Entry(live[h].at, h), Entry(live[g].at, g))
  }

  lemma {:induction false} FirstExists<K>(live: map<nat, Armed<K>>) returns (h: nat)
    requires live != map[]
    ensures IsFirst(live, h)
    decreases |live|
  {
    h :| h in live;
    var rest := live - {h};
    assert forall g :: g in live ==> g == h || g in rest;
    if rest != map[] {
      assert |rest| < |live| by { assert rest.Keys == live.Keys - {h}; }
      var g := FirstExists(rest);
      assert forall k :: k in rest ==> rest[k] == live[k];
      if Before(Entry(live[g].at, g), Entry(live[h].at, h)) { h := g; }
    }
  }

  lemma FirstIsUnique<K>(live: map<nat, Armed<K>>, h: nat, g: nat)
    requires IsFirst(live, h) && IsFirst(live, g)
    ensures h == g
  {
  }

  ghost function First<K>(live: map<nat, Armed<K>>): (r: Option<nat>)
    ensures r.None? <==> live == map[]
    ensures r.Some? ==> IsFirst(live, r.value)
  {
    if live == map[] then None
    else
      assert exists h :: IsFirst(live, h) by { var h := FirstExists(live); }
      var h :| IsFirst(live, h);
      Some(h)
  }

  /** The handle a pop at `now` delivers. */
  ghost function Due<K>(live: map<nat, Armed<K>>, now: Instant): Option<nat> {
    var first := First(live);
    if first.Some? && live[first.value].at <= now then first else None
  }

  ghost function DueEntry<K>(live: map<nat, Armed<K>>, now: Instant): Entry
    requires Due(live, now).Some?
  {
    Entry(live[Due(live, now).value].at, Due(live, now).value)
  }

  ghost function PlainPush<K>(p: Plain<K>, at: Instant, key: K): Plain<K> {
    Plain(p.minted + 1, p.live[p.minted + 1 := Armed(at, key)])
  }

  ghost function PlainStep<K>(p: Plain<K>, op: Op<K>): (Plain<K>, Reply<K>) {
    match op
    case PushOp(at, key) => (PlainPush(p, at, key), Minted(p.minted + 1))
    case CancelOp(h) => (p.(live := p.live - {h}), Cancelled(h in p.live))
    case NextOp =>
      var first := First(p.live);
      (p, Next(if first.Some? then Some(p.live[first.value].at) else None))
    case PopOp(now) =>
      var due := Due(p.live, now);
      if due.None? then (p, Popped(None))
      else (p.(live := p.live - {due.value}), Popped(Some(p.live[due.value].key)))
  }

  ghost function PlainRun<K>(ops: seq<Op<K>>): (Plain<K>, seq<Reply<K>>)
    decreases |ops|
  {
    if ops == [] then (Plain(0, map[]), [])
    else
      var before := PlainRun(ops[..|ops| - 1]);
      var step := PlainStep(before.0, ops[|ops| - 1]);
      (step.0, before.1 + [step.1])
  }

  // ------------------------------------------------------------- conservation

  /** What was pushed, in arming order: handle `h` is the `h`th push. */
  function Pushes<K>(ops: seq<Op<K>>): seq<Armed<K>>
    decreases |ops|
  {
    if ops == [] then []
    else
      var op := ops[|ops| - 1];
      Pushes(ops[..|ops| - 1]) + if op.PushOp? then [Armed(op.at, op.key)] else []
  }

  /** The handle the last call delivers. */
  ghost function LastDelivered<K>(ops: seq<Op<K>>): Option<nat>
    requires ops != []
  {
    var op := ops[|ops| - 1];
    if op.PopOp? then Due(PlainRun(ops[..|ops| - 1]).0.live, op.now) else None
  }

  /** How often handle `h` is delivered. */
  ghost function Deliveries<K>(ops: seq<Op<K>>, h: nat): nat
    decreases |ops|
  {
    if ops == [] then 0
    else Deliveries(ops[..|ops| - 1], h) + if LastDelivered(ops) == Some(h) then 1 else 0
  }

  /** How often handle `h` is successfully cancelled. */
  ghost function Cancels<K>(ops: seq<Op<K>>, h: nat): nat
    decreases |ops|
  {
    if ops == [] then 0
    else
      var n := |ops| - 1;
      Cancels(ops[..n], h)
      + if ops[n] == CancelOp(h) && h in PlainRun(ops[..n]).0.live then 1 else 0
  }

  /** Every key pushed is delivered once, cancelled once, or still live, and
      nothing else ever is; a live deadline is the one that was pushed. */
  lemma {:induction false} EveryPushHasOneFate<K>(ops: seq<Op<K>>, h: nat)
    ensures var p := PlainRun(ops).0;
            && p.minted == |Pushes(ops)|
            && Deliveries(ops, h) + Cancels(ops, h) + (if h in p.live then 1 else 0)
               == (if 1 <= h <= p.minted then 1 else 0)
            && (h in p.live ==> 1 <= h <= p.minted && p.live[h] == Pushes(ops)[h - 1])
    decreases |ops|
  {
    hide First;
    if ops != [] {
      EveryPushHasOneFate(ops[..|ops| - 1], h);
    }
  }

  /** The deadlines live before the last call. */
  ghost function LiveBefore<K>(ops: seq<Op<K>>): map<nat, Armed<K>>
    requires ops != []
  {
    PlainRun(ops[..|ops| - 1]).0.live
  }

  /** What is live is what was pushed. */
  lemma LiveWerePushed<K>(ops: seq<Op<K>>, g: nat)
    requires ops != [] && !ops[|ops| - 1].PushOp? && g in LiveBefore(ops)
    ensures 1 <= g <= |Pushes(ops)| && LiveBefore(ops)[g] == Pushes(ops)[g - 1]
  {
    EveryPushHasOneFate(ops[..|ops| - 1], g);
  }

  /** A delivery hands over the key pushed under its handle, no sooner than its
      deadline. No live deadline is earlier, and of equal ones it is the one armed
      first. */
  lemma DeliveriesAreDue<K>(ops: seq<Op<K>>, h: nat)
    requires ops != [] && LastDelivered(ops) == Some(h)
    ensures 1 <= h <= |Pushes(ops)| && |PlainRun(ops).1| == |ops|
    ensures PlainRun(ops).1[|ops| - 1] == Popped(Some(Pushes(ops)[h - 1].key))
    ensures Pushes(ops)[h - 1].at <= ops[|ops| - 1].now
    ensures h in LiveBefore(ops)
    ensures forall g :: g in LiveBefore(ops) ==>
              && 1 <= g <= |Pushes(ops)|
              && (Pushes(ops)[h - 1].at < Pushes(ops)[g - 1].at
                  || (Pushes(ops)[h - 1].at == Pushes(ops)[g - 1].at && h <= g))
  {
    RepliesSize(ops[..|ops| - 1]);
    LiveWerePushed(ops, h);
    forall g | g in LiveBefore(ops)
      ensures 1 <= g <= |Pushes(ops)| && LiveBefore(ops)[g] == Pushes(ops)[g - 1]
    {
      LiveWerePushed(ops, g);
    }
  }

  /** A pop delivers exactly when some live deadline has come. */
  lemma DueIsDelivered<K>(ops: seq<Op<K>>)
    requires ops != [] && ops[|ops| - 1].PopOp?
    ensures LastDelivered(ops).Some? <==>
              exists g :: g in LiveBefore(ops) && LiveBefore(ops)[g].at <= ops[|ops| - 1].now
  {
    var live := LiveBefore(ops);
    if live != map[] {
      assert First(live).value in live;
    }
  }

  /** The next deadline is the earliest live one, if there is one. */
  lemma NextIsEarliest<K>(ops: seq<Op<K>>)
    requires ops != [] && ops[|ops| - 1].NextOp?
    ensures |PlainRun(ops).1| == |ops| && PlainRun(ops).1[|ops| - 1].Next?
    ensures var at := PlainRun(ops).1[|ops| - 1].at;
            && (at.None? <==> LiveBefore(ops) == map[])
            && (at.Some? ==>
                  && (exists g :: g in LiveBefore(ops) && LiveBefore(ops)[g].at == at.value)
                  && (forall g :: g in LiveBefore(ops) ==> at.value <= LiveBefore(ops)[g].at))
  {
    RepliesSize(ops[..|ops| - 1]);
    var live := LiveBefore(ops);
    if live != map[] {
      assert First(live).value in live;
    }
  }

  lemma {:induction false} RepliesSize<K>(ops: seq<Op<K>>)
    ensures |PlainRun(ops).1| == |ops|
    decreases |ops|
  {
    if ops != [] { RepliesSize(ops[..|ops| - 1]); }
  }

  // ------------------------------------------------------------- entry tables

  /** No two entries share a handle, so every entry occurs once. */
  ghost predicate Distinct(m: multiset<Entry>) {
    && (forall e :: e in m ==> m[e] == 1)
    && (forall e, f :: e in m && f in m && e.handle == f.handle ==> e == f)
  }

  /** The entries of the live deadlines. */
  ghost function LiveEntries<K>(live: map<nat, Armed<K>>): set<Entry> {
    set h | h in live :: Entry(live[h].at, h)
  }

  lemma {:induction false} LiveSize<K>(live: map<nat, Armed<K>>)
    ensures |LiveEntries(live)| == |live|
    decreases |live|
  {
    if live != map[] {
      var h :| h in live;
      var rest := live - {h};
      assert rest.Keys == live.Keys - {h};
      LiveSize(rest);
      var e := Entry(live[h].at, h);
      assert forall g :: g in live ==> g == h || (g in rest && rest[g] == live[g]);
      assert forall f :: f in LiveEntries(live) ==> f == e || f in LiveEntries(rest);
      assert forall f :: f in LiveEntries(rest) ==> f in LiveEntries(live);
      assert LiveEntries(live) == LiveEntries(rest) + {e};
      assert e !in LiveEntries(rest);
    } else {
      assert LiveEntries(live) == {};
    }
  }

  lemma DistinctSize(m: multiset<Entry>)
    requires Distinct(m)
    ensures |m| == |Entries(m)|
  {
    assert m == multiset(Entries(m));
  }

  /** The heap holds every live deadline once; the rest of it is stale. */
  ghost predicate Holds<K>(m: multiset<Entry>, p: Plain<K>) {
    && Distinct(m)
    && (forall e :: e in m ==> e.handle <= p.minted)
    && (forall h :: h in p.live ==> Entry(p.live[h].at, h) in m)
  }

  ghost function Entries(m: multiset<Entry>): set<Entry> {
    set e | e in m
  }

  lemma LiveAreHeld<K>(m: multiset<Entry>, p: Plain<K>)
    requires Holds(m, p)
    ensures LiveEntries(p.live) <= Entries(m) && Distinct(m)
  {
  }

  lemma LiveFit<K>(m: multiset<Entry>, p: Plain<K>)
    requires Holds(m, p)
    ensures |p.live| <= |m|
  {
    hide Holds, Distinct, LiveEntries, Entries;
    LiveAreHeld(m, p);
    DistinctSize(m);
    LiveSize(p.live);
    var live, all := LiveEntries(p.live), Entries(m);
    assert all == live + (all - live);
  }

  lemma LiveFill<K>(m: multiset<Entry>, p: Plain<K>)
    requires Holds(m, p) && forall e :: e in m ==> e.handle in p.live
    ensures |m| == |p.live|
  {
    DistinctSize(m);
    LiveSize(p.live);
    forall e | e in m ensures e in LiveEntries(p.live) {
      assert Entry(p.live[e.handle].at, e.handle) in m;
    }
    assert Entries(m) == LiveEntries(p.live);
  }

  lemma HoldsPush<K>(m: multiset<Entry>, p: Plain<K>, at: Instant, key: K)
    requires Holds(m, p)
    ensures Holds(m + multiset{Entry(at, p.minted + 1)}, PlainPush(p, at, key))
    ensures p.minted + 1 !in p.live
  {
  }

  lemma HoldsFewer<K>(m: multiset<Entry>, p: Plain<K>, h: nat)
    requires Holds(m, p)
    ensures Holds(m, p.(live := p.live - {h}))
  {
  }

  /** Dropping stale entries keeps every live deadline held. */
  lemma HoldsShrink<K>(m: multiset<Entry>, smaller: multiset<Entry>, p: Plain<K>)
    requires Holds(m, p) && smaller <= m
    requires forall e :: e in m && e.handle in p.live ==> e in smaller
    ensures Holds(smaller, p)
  {
    assert forall e :: e in smaller ==> e in m;
  }

  /** `after` lost only stale entries that come before everything it kept. */
  ghost predicate Pruned(before: multiset<Entry>, after: multiset<Entry>, registered: set<nat>) {
    && after <= before
    && forall e, f :: e in before && e !in after && f in after ==> e.handle !in registered && Before(e, f)
  }

  lemma PrunedNothing(m: multiset<Entry>, registered: set<nat>)
    ensures Pruned(m, m, registered)
  {
  }

  lemma PrunedMore(all: multiset<Entry>, m: multiset<Entry>, head: Entry, registered: set<nat>)
    requires Pruned(all, m, registered) && head in m && head.handle !in registered
    requires forall e :: e in m ==> Before(head, e)
    ensures Pruned(all, m - multiset{head}, registered)
  {
    var after := m - multiset{head};
    assert forall e :: e in after ==> e in m;
    assert forall e :: e in m && e !in after ==> e == head;
  }

  lemma HoldsWithout<K>(m: multiset<Entry>, p: Plain<K>, e: Entry)
    requires Holds(m, p) && e in m && e.handle !in p.live
    ensures Holds(m - multiset{e}, p)
  {
    HoldsShrink(m, m - multiset{e}, p);
  }

  // ------------------------------------------------------ the representation

  /** How the queue's fields stand for a plain queue, and the storage bound:
      `afterCancel` deadlines were live right after the latest successful
      cancel, and at most `peak` ever were. */
  ghost predicate Represents<K>(ids: nat, entries: seq<Entry>, registrations: map<nat, K>,
                                plain: Plain<K>, afterCancel: nat, peak: nat) {
    && Ordered(entries)
    && Holds(multiset(entries), plain)
    && plain.minted == ids
    && SameKeys(registrations, plain.live)
    && |entries| <= |registrations| + afterCancel
    && afterCancel <= peak && |registrations| <= peak
  }

  ghost predicate SameKeys<K>(registrations: map<nat, K>, live: map<nat, Armed<K>>) {
    && live.Keys == registrations.Keys
    && (forall h :: h in live ==> live[h].key == registrations[h])
  }

  lemma RepresentsPush<K>(ids: nat, entries: seq<Entry>, registrations: map<nat, K>, plain: Plain<K>,
                          afterCancel: nat, peak: nat, at: Instant, key: K, longer: seq<Entry>)
    requires Represents(ids, entries, registrations, plain, afterCancel, peak)
    requires Ordered(longer) && multiset(longer) == multiset(entries) + multiset{Entry(at, ids + 1)}
    ensures var more := registrations[ids + 1 := key];
            && Represents(ids + 1, longer, more, PlainPush(plain, at, key), afterCancel,
                          if |more| > peak then |more| else peak)
            && |more| == |registrations| + 1 && |longer| == |entries| + 1
  {
    hide Ordered, Holds, Distinct;
    HoldsPush(multiset(entries), plain, at, key);
    assert |multiset(longer)| == |multiset(entries)| + 1;
    var more := registrations[ids + 1 := key];
    assert more.Keys == registrations.Keys + {ids + 1};
    assert |more.Keys| == |registrations.Keys| + 1;
  }

  /** Forgetting one registration leaves its entry stale. */
  lemma RepresentsForget<K>(ids: nat, entries: seq<Entry>, registrations: map<nat, K>, plain: Plain<K>,
                            afterCancel: nat, peak: nat, h: nat)
    requires Represents(ids, entries, registrations, plain, afterCancel, peak) && h in registrations
    ensures var fewer := registrations - {h};
            && |fewer| == |registrations| - 1
            && SameKeys(fewer, plain.live - {h})
            && Holds(multiset(entries), plain.(live := plain.live - {h}))
            && |entries| >= |fewer| + 1
  {
    hide Ordered, Distinct;
    HoldsFewer(multiset(entries), plain, h);
    var fewer := registrations - {h};
    assert fewer.Keys == registrations.Keys - {h};
    assert |fewer.Keys| == |registrations.Keys| - 1;
    LiveFit(multiset(entries), plain);
    assert |plain.live| == |plain.live.Keys| == |registrations.Keys|;
  }

  lemma RepresentsPrune<K>(ids: nat, entries: seq<Entry>, registrations: map<nat, K>, plain: Plain<K>,
                           afterCancel: nat, peak: nat, head: Entry, rest: seq<Entry>)
    requires Represents(ids, entries, registrations, plain, afterCancel, peak)
    requires Ordered(rest) && head in multiset(entries) && head.handle !in registrations
    requires multiset(rest) == multiset(entries) - multiset{head}
    ensures Represents(ids, rest, registrations, plain, afterCancel, peak)
    ensures |rest| == |entries| - 1
  {
    hide Ordered, Distinct;
    HoldsWithout(multiset(entries), plain, head);
    assert |multiset(rest)| == |multiset(entries)| - 1;
  }

  /** Delivering the head removes its entry and its registration. */
  lemma RepresentsDeliver<K>(ids: nat, entries: seq<Entry>, registrations: map<nat, K>, plain: Plain<K>,
                             afterCancel: nat, peak: nat, head: Entry, rest: seq<Entry>)
    requires Represents(ids, entries, registrations, plain, afterCancel, peak)
    requires Ordered(rest) && head in multiset(entries) && head.handle in registrations
    requires multiset(rest) == multiset(entries) - multiset{head}
    ensures Represents(ids, rest, registrations - {head.handle},
                       plain.(live := plain.live - {head.handle}), afterCancel, peak)
  {
    RepresentsForget(ids, entries, registrations, plain, afterCancel, peak, head.handle);
    hide Ordered, Distinct;
    HoldsWithout(multiset(entries), plain.(live := plain.live - {head.handle}), head);
    assert |multiset(rest)| == |multiset(entries)| - 1;
  }

  /** A live head is the first live deadline. */
  lemma HeadIsFirstLive<K>(entries: seq<Entry>, plain: Plain<K>)
    requires Ordered(entries) && Holds(multiset(entries), plain)
    requires entries != [] && entries[0].handle in plain.live
    ensures First(plain.live) == Some(entries[0].handle)
    ensures plain.live[entries[0].handle].at == entries[0].at
  {
    var head := entries[0];
    HeadIsLeast(entries);
    assert head in multiset(entries);
    assert Entry(plain.live[head.handle].at, head.handle) in multiset(entries);
    forall g | g in plain.live ensures Before(head, Entry(plain.live[g].at, g)) {
      assert Entry(plain.live[g].at, g) in multiset(entries);
    }
    assert IsFirst(plain.live, head.handle);
    FirstIsUnique(plain.live, head.handle, First(plain.live).value);
  }

  /** What a pruned heap's head says about the live deadlines. */
  lemma RepresentsHead<K>(ids: nat, entries: seq<Entry>, registrations: map<nat, K>, plain: Plain<K>,
                          afterCancel: nat, peak: nat)
    requires Represents(ids, entries, registrations, plain, afterCancel, peak)
    requires entries != [] ==> entries[0].handle in registrations
    ensures Ordered(entries)
    ensures if entries == [] then First(plain.live).None? else
              var head := entries[0];
              && First(plain.live) == Some(head.handle)
              && head in multiset(entries) && head.handle in plain.live
              && plain.live[head.handle] == Armed(head.at, registrations[head.handle])
  {
    if entries == [] {
      assert multiset(entries) == multiset{};
      NoHeadIsEmpty(plain);
    } else {
      HeadIsFirstLive(entries, plain);
    }
    hide Holds, Ordered;
  }

  // --------------------------------------------------- what pruning leaves

  /** The entry of the first live deadline. */
  ghost function FirstEntry<K>(live: map<nat, Armed<K>>): Entry
    requires live != map[]
  {
    Entry(live[First(live).value].at, First(live).value)
  }

  /** The stale entries that the first live deadline keeps from being pruned. */
  ghost function Lingering<K>(m: multiset<Entry>, live: map<nat, Armed<K>>): set<Entry> {
    if live == map[] then {} else Behind(m, live.Keys, FirstEntry(live))
  }

  ghost function Behind(m: multiset<Entry>, registered: set<nat>, first: Entry): set<Entry> {
    set e | e in m && e.handle !in registered && !Before(e, first)
  }

  /** A pruned heap holds the live deadlines and the lingering entries. */
  lemma PrunedHolds<K>(before: multiset<Entry>, after: multiset<Entry>, plain: Plain<K>, head: Entry)
    requires Holds(before, plain) && Holds(after, plain) && Pruned(before, after, plain.live.Keys)
    requires head in after && head.handle in plain.live
    requires forall e :: e in after ==> Before(head, e)
    ensures Entries(after) == LiveEntries(plain.live) + Behind(before, plain.live.Keys, head)
  {
    forall e | e in after ensures e in LiveEntries(plain.live) + Behind(before, plain.live.Keys, head) {
      if e.handle in plain.live {
        assert Entry(plain.live[e.handle].at, e.handle) in after;
      }
    }
    forall e | e in Behind(before, plain.live.Keys, head) ensures e in after {
    }
  }

  lemma PrunedSize<K>(ids: nat, entries: seq<Entry>, registrations: map<nat, K>, plain: Plain<K>,
                      afterCancel: nat, peak: nat, before: multiset<Entry>)
    requires Represents(ids, entries, registrations, plain, afterCancel, peak)
    requires Holds(before, plain) && Pruned(before, multiset(entries), registrations.Keys)
    requires entries != [] ==> entries[0].handle in registrations
    ensures |entries| == |registrations| + |Lingering(before, plain.live)|
  {
    hide Distinct, Pruned, Ordered, First;
    var after := multiset(entries);
    RepresentsHead(ids, entries, registrations, plain, afterCancel, peak);
    assert |plain.live| == |plain.live.Keys| == |registrations.Keys|;
    if entries != [] {
      HeadIsLeast(entries);
      PrunedHolds(before, after, plain, entries[0]);
      LiveSize(plain.live);
      SizeOf(after, plain);
      assert |after| == |entries|;
      var lingering := Behind(before, plain.live.Keys, entries[0]);
      assert LiveEntries(plain.live) !! lingering;
    }
  }

  lemma SizeOf<K>(m: multiset<Entry>, p: Plain<K>)
    requires Holds(m, p)
    ensures |m| == |Entries(m)|
  {
    DistinctSize(m);
  }

  lemma NoHeadIsEmpty<K>(plain: Plain<K>)
    requires Holds(multiset{}, plain)
    ensures plain.live == map[]
  {
    assert forall h :: h !in plain.live;
  }

  // ---------------------------------------------------------------- the queue

  class DeadlineQueue<K> {
    var registrationIds: nat
    var entries: seq<Entry>
    var registrations: map<nat, K>

    /** The plain queue this one stands for. */
    ghost var plain: Plain<K>
    /** Live deadlines right after the latest successful cancel, and at most. */
    ghost var afterCancel: nat
    ghost var peak: nat

    /** Storage is at most twice the live deadlines. */
    predicate Lean()
      reads this
    {
      |entries| <= 2 * |registrations|
    }

    ghost predicate Valid()
      reads this
    {
      Represents(registrationIds, entries, registrations, plain, afterCancel, peak)
    }

    constructor ()
      ensures Valid() && plain == Plain(0, map[]) && peak == 0
      ensures entries == [] && registrations == map[]
    {
      registrationIds := 0;
      entries := [];
      registrations := map[];
      plain := Plain(0, map[]);
      afterCancel := 0;
      peak := 0;
    }

    method PushDeadline(at: Instant, key: K) returns (handle: nat)
      requires Valid()
      modifies this
      ensures Valid() && (plain, Minted(handle)) == PlainStep(old(plain), PushOp(at, key))
      ensures registrations == old(registrations)[handle := key]
      ensures afterCancel == old(afterCancel)
      ensures multiset(entries) == old(multiset(entries)) + multiset{Entry(at, handle)}
      ensures peak == if |registrations| > old(peak) then |registrations| else old(peak)
      ensures old(Lean()) ==> Lean()
    {
      hide Ordered, Holds, SameKeys, First, Due, PlainPush;
      handle := registrationIds + 1;
      var longer := Push(entries, Entry(at, handle));
      RepresentsPush(registrationIds, entries, registrations, plain, afterCancel, peak, at, key, longer);
      registrationIds := handle;
      registrations := registrations[handle := key];
      entries := longer;
      plain := PlainPush(plain, at, key);
      if |registrations| > peak { peak := |registrations|; }
    }

    /** Cancelling compacts a heap that has become more than half stale, so a
        successful cancel leaves the storage lean whatever it was. */
    method Cancel(handle: nat) returns (removed: bool)
      requires Valid()
      modifies this
      ensures Valid() && (plain, Cancelled(removed)) == PlainStep(old(plain), CancelOp(handle))
      ensures registrations == old(registrations) - {handle}
      ensures peak == old(peak)
      ensures afterCancel == if removed then |registrations| else old(afterCancel)
      ensures removed || old(Lean()) ==> Lean()
      ensures |old(entries)| <= 2 * |registrations| ==> entries == old(entries)
    {
      hide Holds, Distinct, First, Due, Ordered, SameKeys;
      removed := handle in registrations;
      if removed {
        RepresentsForget(registrationIds, entries, registrations, plain, afterCancel, peak, handle);
        KeysAgree(registrations, plain.live);
        registrations := registrations - {handle};
        plain := plain.(live := plain.live - {handle});
        afterCancel := |registrations|;
        if |entries| > 2 * |registrations| {
          Compact();
        }
      } else {
        KeysAgree(registrations, plain.live);
        assert plain.live - {handle} == plain.live;
        assert registrations - {handle} == registrations;
      }
    }

    method Compact()
      requires Ordered(entries) && Holds(multiset(entries), plain)
      requires SameKeys(registrations, plain.live)
      modifies this`entries
      ensures Ordered(entries) && Holds(multiset(entries), plain) && |entries| == |registrations|
    {
      hide Holds, Distinct, Ordered;
      entries := Retain(entries, registrations.Keys);
      HoldsShrink(old(multiset(entries)), multiset(entries), plain);
      LiveFill(multiset(entries), plain);
      assert |plain.live| == |plain.live.Keys| == |registrations.Keys|;
      assert |multiset(entries)| == |entries|;
    }

    /** Discards stale entries from the head of the heap. */
    method PruneStaleHead()
      requires Valid()
      modifies this`entries
      ensures Valid()
      ensures entries != [] ==> entries[0].handle in registrations
      ensures Pruned(old(multiset(entries)), multiset(entries), registrations.Keys)
      ensures |entries| == |registrations| + |Lingering(old(multiset(entries)), plain.live)|
      ensures |entries| <= |old(entries)|
    {
      hide Holds, Distinct, Ordered, Pruned, SameKeys;
      PrunedNothing(multiset(entries), registrations.Keys);
      while entries != [] && entries[0].handle !in registrations
        invariant Valid()
        invariant Pruned(old(multiset(entries)), multiset(entries), registrations.Keys)
        invariant |entries| <= |old(entries)|
        decreases |entries|
      {
        var head, rest := Pop(entries);
        assert head in multiset(entries);
        PrunedMore(old(multiset(entries)), multiset(entries), head, registrations.Keys);
        RepresentsPrune(registrationIds, entries, registrations, plain, afterCancel, peak, head, rest);
        entries := rest;
      }
      PrunedSize(registrationIds, entries, registrations, plain, afterCancel, peak,
                 old(multiset(entries)));
    }

    method NextDeadline() returns (at: Option<Instant>)
      requires Valid()
      modifies this`entries
      ensures Valid() && (plain, Reply<K>.Next(at)) == PlainStep(plain, NextOp)
      ensures at.None? <==> plain.live == map[]
      ensures at.Some? ==> forall h :: h in plain.live ==> at.value <= plain.live[h].at
      ensures Pruned(old(multiset(entries)), multiset(entries), registrations.Keys)
      ensures |entries| == |registrations| + |Lingering(old(multiset(entries)), plain.live)|
      ensures old(Lean()) ==> Lean()
    {
      hide Represents, Ordered, Pruned, Lingering;
      PruneStaleHead();
      RepresentsHead(registrationIds, entries, registrations, plain, afterCancel, peak);
      at := if entries == [] then None else Some(entries[0].at);
    }

    /** Delivers the first live deadline once it is due. The pop that follows
        the peek always finds an entry, and always a registered one. A delivery
        leaves the storage lean exactly when fewer stale entries linger behind
        the first live deadline than there are live deadlines. */
    method PopDue(now: Instant) returns (key: Option<K>)
      requires Valid()
      modifies this
      ensures Valid() && (plain, Popped(key)) == PlainStep(old(plain), PopOp(now))
      ensures registrations == if key.None? then old(registrations)
                               else old(registrations) - {Due(old(plain).live, now).value}
      ensures afterCancel == old(afterCancel) && peak == old(peak)
      ensures key.Some? ==>
                Delivered(old(multiset(entries)), multiset(entries), DueEntry(old(plain).live, now),
                          old(registrations).Keys)
      ensures var lingering := |Lingering(old(multiset(entries)), old(plain).live)|;
              && |entries| == |registrations| + lingering
              && (key.Some? ==> (Lean() <==> lingering < |old(registrations)|))
              && (key.None? ==> (Lean() <==> lingering <= |registrations|))
    {
      hide Represents, Ordered, Pruned, First, IsFirst, Delivered, Lingering;
      PruneStaleHead();
      RepresentsHead(registrationIds, entries, registrations, plain, afterCancel, peak);
      if entries == [] || entries[0].at > now {
        return None;
      }
      var head, rest := Pop(entries);
      DeliveredAfterPrune(old(multiset(entries)), multiset(entries), head, registrations.Keys);
      RepresentsDeliver(registrationIds, entries, registrations, plain, afterCancel, peak, head, rest);
      entries := rest;
      key := Some(registrations[head.handle]);
      registrations := registrations - {head.handle};
      plain := plain.(live := plain.live - {head.handle});
    }

    /** The heap never stores more than the live deadlines and as many stale
        entries as were live right after the latest successful cancel. */
    lemma StorageBound()
      requires Valid()
      ensures |registrations| <= |entries| <= |registrations| + afterCancel <= |registrations| + peak
    {
      LiveFit(multiset(entries), plain);
      assert |plain.live| == |plain.live.Keys| == |registrations.Keys|;
    }

    method Execute(op: Op<K>) returns (reply: Reply<K>)
      requires Valid()
      modifies this
      ensures Valid() && (plain, reply) == PlainStep(old(plain), op)
    {
      hide Represents, First;
      match op {
        case PushOp(at, key) =>
          var h := PushDeadline(at, key);
          reply := Minted(h);
        case CancelOp(h) =>
          var removed := Cancel(h);
          reply := Cancelled(removed);
        case NextOp =>
          var at := NextDeadline();
          reply := Reply<K>.Next(at);
        case PopOp(now) =>
          var key := PopDue(now);
          reply := Popped(key);
      }
    }
  }

  lemma KeysAgree<K>(registrations: map<nat, K>, live: map<nat, Armed<K>>)
    requires SameKeys(registrations, live)
    ensures live.Keys == registrations.Keys
  {
  }

  /** One entry left with its deadline, and no stale entry coming after it. */
  ghost predicate Delivered(before: multiset<Entry>, after: multiset<Entry>, due: Entry,
                            registered: set<nat>) {
    && due in before && after <= before - multiset{due}
    && (forall e :: e in before && e.handle !in registered && !Before(e, due) ==> e in after)
  }

  lemma DeliveredAfterPrune(before: multiset<Entry>, kept: multiset<Entry>, head: Entry,
                            registered: set<nat>)
    requires Pruned(before, kept, registered) && head in kept && head.handle in registered
    ensures Delivered(before, kept - multiset{head}, head, registered)
  {
    forall e | e in before && e.handle !in registered && !Before(e, head)
      ensures e in kept - multiset{head}
    {
      assert e in kept;
    }
  }

  /** Over every sequence of calls the queue answers exactly as the plain map. */
  method Replay<K>(ops: seq<Op<K>>) returns (replies: seq<Reply<K>>)
    ensures replies == PlainRun(ops).1
  {
    hide Represents, PlainStep;
    var queue := new DeadlineQueue<K>();
    replies := [];
    for i := 0 to |ops|
      invariant queue.Valid()
      invariant fresh(queue)
      invariant (queue.plain, replies) == PlainRun(ops[..i])
    {
      assert ops[..i + 1][..i] == ops[..i];
      var reply := queue.Execute(ops[i]);
      replies := replies + [reply];
    }
    assert ops[..|ops|] == ops;
  }

  /** One live and one cancelled deadline, the cancelled one later. */
  method HalfStale() returns (queue: DeadlineQueue<int>, near: nat, far: nat)
    ensures fresh(queue) && queue.Valid() && near != far && queue.Lean()
    ensures queue.plain.live == map[near := Armed(1, 10)] && queue.registrations == map[near := 10]
    ensures multiset(queue.entries) == multiset{Entry(1, near), Entry(9, far)}
  {
    hide Represents, First, Due, DueEntry;
    queue := new DeadlineQueue<int>();
    near := queue.PushDeadline(1, 10);
    far := queue.PushDeadline(9, 20);
    ghost var both := multiset{Entry(1, near), Entry(9, far)};
    assert multiset(queue.entries) == both;
    assert |queue.entries| == |both| == 2;
    var removed := queue.Cancel(far);
    assert queue.plain.live == map[near := Armed(1, 10)];
    assert queue.registrations == map[near := 10];
  }

  /** "At most twice the live deadlines" holds after a cancel, but a later
      delivery breaks it: one live and one stale entry become one stale entry. */
  method DeliveryBreaksTwiceLive() returns (storage: nat, live: nat)
    ensures storage == 1 && live == 0 && storage > 2 * live
  {
    hide Represents, First, Due, DueEntry, Delivered, Lingering;
    var queue, near, far := HalfStale();
    assert queue.registrations.Keys == {near};
    OnlyOneDue(near);
    var key := queue.PopDue(1);
    OneStaleStays(multiset(queue.entries), near, far);
    storage, live := |queue.entries|, |queue.registrations|;
    assert storage == |multiset(queue.entries)|;
    assert queue.registrations == map[];
  }

  lemma OnlyOneDue(near: nat)
    ensures Due(map[near := Armed(1, 10)], 1) == Some(near)
    ensures DueEntry(map[near := Armed(1, 10)], 1) == Entry(1, near)
  {
    var live := map[near := Armed(1, 10)];
    assert near in live && First(live).value in live;
  }

  lemma OneStaleStays(after: multiset<Entry>, near: nat, far: nat)
    requires near != far
    requires Delivered(multiset{Entry(1, near), Entry(9, far)}, after, Entry(1, near), {near})
    ensures after == multiset{Entry(9, far)}
  {
    var before := multiset{Entry(1, near), Entry(9, far)};
    assert Entry(9, far) in before && before - multiset{Entry(1, near)} == multiset{Entry(9, far)};
  }
}
