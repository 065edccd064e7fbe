/** How the tokens of one seat compare over a run. */
module MembershipOrder {
  import opened Common
  import opened Identity
  import opened Memberships

  /** A later entry supersedes an earlier one with no matching eviction between
      them, and is incomparable with it across one. */
  predicate Compares(earlier: Entry, later: Entry) {
    if earlier.epoch == later.epoch then Supersedes(later.token, earlier.token)
    else Incomparable(earlier.token, later.token)
  }

  predicate Compared(s: State, seat: Seat) {
    forall a, b :: 0 <= a < b < |s.entries| && s.entries[a].seat == s.entries[b].seat == seat ==>
                     Compares(s.entries[a], s.entries[b])
  }

  predicate Carried(s: State, seat: Seat, lineage: nat) {
    exists e :: 0 <= e < |s.entries| && s.entries[e].seat == seat && s.entries[e].token.lineage == lineage
  }

  /** The adoption would hand `seat` a lineage that one of its entries has
      carried before. */
  predicate Returns(s: State, op: Op, seat: Seat) {
    && op.Adopt? && Possible(s, op)
    && seat == Seat(op.scope, s.grants[op.provisional].seat.id)
    && Current(s, seat).None?
    && Carried(s, seat, s.grants[op.provisional].token.lineage)
  }

  // ------------------------------------------------------------ the invariant

  predicate EntrySound(s: State, e: nat) {
    e < |s.entries| ==>
      var entry := s.entries[e];
      var current := Current(s, entry.seat);
      && entry.token.lineage <= s.lineages
      && entry.epoch <= Epoch(s, entry.seat)
      && (entry.epoch == Epoch(s, entry.seat) ==>
            current.Some? && current.value.lineage == entry.token.lineage
            && entry.token.generation <= current.value.generation)
  }

  predicate SeatSound(s: State, seat: Seat) {
    Current(s, seat).Some? ==> Current(s, seat).value.lineage <= s.lineages
  }

  predicate GrantSound(s: State, n: nat) {
    n < |s.grants| ==> s.grants[n].token.lineage <= s.lineages
  }

  ghost predicate Sound(s: State) {
    && (forall e :: EntrySound(s, e))
    && (forall seat :: SeatSound(s, seat))
    && (forall n :: GrantSound(s, n))
  }

  /** The seat's current lineage is none of those it had before an eviction. */
  predicate Renewed(s: State, seat: Seat) {
    Current(s, seat).Some? ==>
      forall e :: 0 <= e < |s.entries| && s.entries[e].seat == seat
                  && s.entries[e].epoch < Epoch(s, seat) ==>
                    s.entries[e].token.lineage != Current(s, seat).value.lineage
  }

  // Recording a new current token.

  /** What minting and vacant adoption do alike: `seat` gets `token`. */
  ghost predicate Gains(s: State, u: State, seat: Seat, token: Fence) {
    && u.entries == s.entries + [Entry(seat, Epoch(s, seat), token)]
    && u.epochs == s.epochs && u.lineages >= s.lineages >= 0
    && token.lineage <= u.lineages
    && (forall other :: Current(u, other) == if other == seat then Some(token) else Current(s, other))
    && (Current(s, seat).Some? ==>
          token.lineage == Current(s, seat).value.lineage
          && token.generation > Current(s, seat).value.generation)
    && (forall n :: 0 <= n < |u.grants| ==>
          u.grants[n].token == token || (n < |s.grants| && u.grants[n] == s.grants[n]))
  }

  lemma MintGains(s: State, seat: Seat)
    requires SeatSound(s, seat)
    ensures var u := MintedAt(s, seat); Gains(s, u, seat, Current(u, seat).value)
    ensures Current(MintedAt(s, seat), seat).Some?
    ensures Current(s, seat).None? ==> Current(MintedAt(s, seat), seat).value.lineage > s.lineages
  {
  }

  lemma MoveGains(s: State, scope: ScopeId, n: nat)
    requires n < |s.grants| && GrantSound(s, n)
    requires Current(s, Seat(scope, s.grants[n].seat.id)).None?
    ensures Gains(s, AdoptedAt(s, scope, n), Seat(scope, s.grants[n].seat.id), s.grants[n].token)
  {
  }

  lemma GainSound(s: State, u: State, seat: Seat, token: Fence)
    requires Sound(s) && Gains(s, u, seat, token)
    ensures Sound(u)
  {
    hide Current;
    forall e ensures EntrySound(u, e) { assert EntrySound(s, e); }
    forall other ensures SeatSound(u, other) { assert SeatSound(s, other); }
    forall n ensures GrantSound(u, n) { assert GrantSound(s, n); }
  }

  lemma GainCompares(s: State, u: State, seat: Seat, token: Fence, other: Seat)
    requires Sound(s) && Gains(s, u, seat, token)
    requires Compared(s, other) && Renewed(s, other)
    requires other == seat && Current(s, seat).None? ==> !Carried(s, seat, token.lineage)
    ensures Compared(u, other) && Renewed(u, other)
  {
    hide Current;
    forall a: nat, b: nat | a < b < |u.entries| && u.entries[a].seat == u.entries[b].seat == other
      ensures Compares(u.entries[a], u.entries[b])
    {
      assert EntrySound(s, a) && u.entries[a] == s.entries[a];
      if b < |s.entries| {
        assert u.entries[b] == s.entries[b];
      }
    }
    assert forall e :: 0 <= e < |s.entries| ==> u.entries[e] == s.entries[e];
  }

  lemma GainReturns(s: State, u: State, seat: Seat, token: Fence)
    requires Sound(s) && Gains(s, u, seat, token)
    requires Current(s, seat).None? && Carried(s, seat, token.lineage)
    ensures !Compared(u, seat)
  {
    hide Current;
    var e :| 0 <= e < |s.entries| && s.entries[e].seat == seat
             && s.entries[e].token.lineage == token.lineage;
    assert EntrySound(s, e);
    assert u.entries[e] == s.entries[e] && u.entries[|s.entries|].token == token;
    assert !Compares(u.entries[e], u.entries[|s.entries|]);
  }

  lemma FreshIsNotCarried(s: State, seat: Seat, lineage: nat)
    requires Sound(s) && lineage > s.lineages
    ensures !Carried(s, seat, lineage)
  {
    forall e: nat | e < |s.entries| ensures s.entries[e].token.lineage <= s.lineages {
      assert EntrySound(s, e);
    }
  }

  // Eviction.

  lemma EvictSound(s: State, seat: Seat, token: Fence)
    requires Sound(s)
    ensures Sound(EvictedAt(s, seat, token))
  {
    hide Current;
    var u := EvictedAt(s, seat, token);
    forall e: nat ensures EntrySound(u, e) {
      assert EntrySound(s, e);
      if e < |s.entries| {
        EvictionIsExact(s, seat, token, s.entries[e].seat);
      }
    }
    forall other ensures SeatSound(u, other) {
      assert SeatSound(s, other);
      EvictionIsExact(s, seat, token, other);
    }
    forall n ensures GrantSound(u, n) { assert GrantSound(s, n); }
  }

  lemma EvictCompares(s: State, seat: Seat, token: Fence, other: Seat)
    requires Sound(s) && Compared(s, other) && Renewed(s, other)
    ensures Compared(EvictedAt(s, seat, token), other) && Renewed(EvictedAt(s, seat, token), other)
  {
    hide Current;
    EvictionIsExact(s, seat, token, other);
  }

  // Every operation.

  lemma SoundStep(s: State, op: Op)
    requires Sound(s) && Possible(s, op)
    ensures Sound(Next(s, op))
  {
    hide Sound, MintedAt, EvictedAt, Current, Gains;
    match op
    case Mint(seat) => MintSound(s, seat);
    case Adopt(scope, n) =>
      var seat := Seat(scope, s.grants[n].seat.id);
      if Current(s, seat).Some? {
        MintSound(s, seat);
        ConsumedMint(s, scope, n);
        ConsumeSound(MintedAt(s, seat), n);
      } else {
        UseGrant(s, n);
        MoveGains(s, scope, n);
        GainSound(s, AdoptedAt(s, scope, n), seat, s.grants[n].token);
      }
    case Evict(seat, token) => EvictSound(s, seat, token);
  }

  lemma UseGrant(s: State, n: nat)
    requires Sound(s)
    ensures GrantSound(s, n)
  {
  }

  lemma MintSound(s: State, seat: Seat)
    requires Sound(s)
    ensures Sound(MintedAt(s, seat))
  {
    hide MintedAt, Current, Gains;
    assert SeatSound(s, seat);
    MintGains(s, seat);
    GainSound(s, MintedAt(s, seat), seat, Current(MintedAt(s, seat), seat).value);
  }

  lemma ConsumeSound(s: State, n: nat)
    requires Sound(s)
    ensures Sound(s.(adopted := s.adopted + {n}))
  {
    var u := s.(adopted := s.adopted + {n});
    forall e ensures EntrySound(u, e) { assert EntrySound(s, e); }
    forall other ensures SeatSound(u, other) { assert SeatSound(s, other); }
    forall m ensures GrantSound(u, m) { assert GrantSound(s, m); }
  }

  lemma MintCompares(s: State, seat: Seat, other: Seat)
    requires Sound(s) && Compared(s, other) && Renewed(s, other)
    ensures Compared(MintedAt(s, seat), other) && Renewed(MintedAt(s, seat), other)
  {
    hide MintedAt, Current, Gains, Compared, Renewed, Carried;
    assert SeatSound(s, seat);
    MintGains(s, seat);
    var token := Current(MintedAt(s, seat), seat).value;
    if Current(s, seat).None? {
      FreshIsNotCarried(s, seat, token.lineage);
    }
    GainCompares(s, MintedAt(s, seat), seat, token, other);
  }

  lemma ComparesStep(s: State, op: Op, seat: Seat)
    requires Sound(s) && Compared(s, seat) && Renewed(s, seat)
    requires Possible(s, op) && !Returns(s, op, seat)
    ensures Compared(Next(s, op), seat) && Renewed(Next(s, op), seat)
  {
    hide Sound, MintedAt, EvictedAt, Current, Gains, Carried;
    match op
    case Mint(at) => MintCompares(s, at, seat);
    case Adopt(scope, n) =>
      var at := Seat(scope, s.grants[n].seat.id);
      if Current(s, at).Some? {
        MintCompares(s, at, seat);
        ConsumedMint(s, scope, n);
        ConsumeCompares(MintedAt(s, at), n, seat);
      } else {
        UseGrant(s, n);
        MoveGains(s, scope, n);
        GainCompares(s, AdoptedAt(s, scope, n), at, s.grants[n].token, seat);
      }
    case Evict(at, token) => EvictCompares(s, at, token, seat);
  }

  lemma ConsumeCompares(s: State, n: nat, seat: Seat)
    requires Compared(s, seat) && Renewed(s, seat)
    ensures var u := s.(adopted := s.adopted + {n}); Compared(u, seat) && Renewed(u, seat)
  {
  }

  lemma ReturnsStep(s: State, op: Op, seat: Seat)
    requires Sound(s) && Returns(s, op, seat)
    ensures !Compared(Next(s, op), seat)
  {
    hide Sound, Current, Gains, Carried, Compared;
    UseGrant(s, op.provisional);
    MoveGains(s, op.scope, op.provisional);
    GainReturns(s, Next(s, op), seat, s.grants[op.provisional].token);
  }

  lemma ComparedBefore(s: State, op: Op, seat: Seat)
    requires Possible(s, op) && Compared(Next(s, op), seat)
    ensures Compared(s, seat)
  {
    hide Current;
    var u := Next(s, op);
    assert |s.entries| <= |u.entries| && u.entries[..|s.entries|] == s.entries;
    assert forall e :: 0 <= e < |s.entries| ==> u.entries[e] == s.entries[e];
  }

  // -------------------------------------------------------------------- runs

  /** Some operation handed `seat` back a lineage it had carried. */
  predicate EverReturns(ops: seq<Op>, seat: Seat) {
    ops != [] && (EverReturns(ops[..|ops| - 1], seat)
                  || Returns(After(ops[..|ops| - 1]), ops[|ops| - 1], seat))
  }

  lemma {:induction false} SoundRun(ops: seq<Op>)
    ensures Sound(After(ops))
  {
    hide Sound, Next, Possible;
    if ops == [] {
      SoundInitial();
    } else {
      SoundRun(ops[..|ops| - 1]);
      if Possible(After(ops[..|ops| - 1]), ops[|ops| - 1]) {
        SoundStep(After(ops[..|ops| - 1]), ops[|ops| - 1]);
      }
    }
  }

  lemma SoundInitial()
    ensures Sound(Initial())
  {
  }

  lemma {:induction false} NoReturnCompares(ops: seq<Op>, seat: Seat)
    requires !EverReturns(ops, seat)
    ensures Compared(After(ops), seat) && Renewed(After(ops), seat)
  {
    hide Compared, Renewed, Next, Possible, Returns, Sound;
    if ops == [] {
      ComparedInitial(seat);
    } else {
      var s := After(ops[..|ops| - 1]);
      NoReturnCompares(ops[..|ops| - 1], seat);
      SoundRun(ops[..|ops| - 1]);
      if Possible(s, ops[|ops| - 1]) {
        ComparesStep(s, ops[|ops| - 1], seat);
      }
    }
  }

  lemma ComparedInitial(seat: Seat)
    ensures Compared(Initial(), seat) && Renewed(Initial(), seat)
  {
  }

  lemma {:induction false} ReturnBreaks(ops: seq<Op>, seat: Seat)
    requires EverReturns(ops, seat)
    ensures !Compared(After(ops), seat)
  {
    hide Compared, Next, Sound, Carried;
    var s := After(ops[..|ops| - 1]);
    var op := ops[|ops| - 1];
    if Returns(s, op, seat) {
      SoundRun(ops[..|ops| - 1]);
      ReturnsStep(s, op, seat);
    } else {
      ReturnBreaks(ops[..|ops| - 1], seat);
      if Possible(s, op) && Compared(Next(s, op), seat) {
        ComparedBefore(s, op, seat);
      }
    }
  }

  /** In every run, disciplined or not, the tokens of a seat compare as promised
      exactly when no adoption handed the seat a lineage that one of its earlier
      entries carried. */
  lemma EvictionBreaksComparison(ops: seq<Op>, seat: Seat)
    ensures Compared(After(ops), seat) <==> !EverReturns(ops, seat)
  {
    hide Compared, After, EverReturns;
    if EverReturns(ops, seat) {
      ReturnBreaks(ops, seat);
    } else {
      NoReturnCompares(ops, seat);
    }
  }

  // ---------------------------------------------------- the framework's own use

  /** Under the framework's discipline nothing returns to a seat that has not
      given its lineage away. */
  lemma NothingReturns(s: State, op: Op, seat: Seat)
    requires Inv(s) && Legal(s, op) && seat !in s.donors
    ensures !Returns(s, op, seat)
  {
    hide Current;
    if op.Adopt? && Current(s, Seat(op.scope, s.grants[op.provisional].seat.id)).None? {
      MoveFrom(s, op.scope, op.provisional);
      forall e: nat | e < |s.entries| && s.entries[e].seat == seat
        ensures s.entries[e].token.lineage in s.holder && s.holder[s.entries[e].token.lineage] == seat
      {
        assert EntryOk(s, e);
      }
    }
  }

  /** A seat that never gave its lineage away compares as promised. */
  lemma StableSeatCompares(ops: seq<Op>, seat: Seat)
    requires Disciplined(ops) && seat !in After(ops).donors
    ensures Compared(After(ops), seat)
  {
    hide Compared, After, EverReturns;
    StableNeverReturns(ops, seat);
    EvictionBreaksComparison(ops, seat);
  }

  lemma {:induction false} StableNeverReturns(ops: seq<Op>, seat: Seat)
    requires Disciplined(ops) && seat !in After(ops).donors
    ensures !EverReturns(ops, seat)
  {
    hide Inv, Returns;
    if ops != [] {
      var s := After(ops[..|ops| - 1]);
      InvRun(ops[..|ops| - 1]);
      DonorsStay(s, ops[|ops| - 1]);
      StableNeverReturns(ops[..|ops| - 1], seat);
      NothingReturns(s, ops[|ops| - 1], seat);
    }
  }

  lemma DonorsStay(s: State, op: Op)
    requires Possible(s, op)
    ensures s.donors <= Next(s, op).donors
  {
  }

  /** Provisionals come only from `builders`, and none of those adopts. */
  predicate Separate(ops: seq<Op>, builders: set<ScopeId>) {
    ops == [] || (Separate(ops[..|ops| - 1], builders)
                  && Apart(After(ops[..|ops| - 1]), ops[|ops| - 1], builders))
  }

  predicate Apart(s: State, op: Op, builders: set<ScopeId>) {
    op.Adopt? ==>
      op.scope !in builders
      && (op.provisional < |s.grants| ==> s.grants[op.provisional].seat.scope in builders)
  }

  lemma DonorsAreBuilders(s: State, op: Op, builders: set<ScopeId>)
    requires Possible(s, op) && Apart(s, op, builders)
    requires forall seat :: seat in s.donors ==> seat.scope in builders
    ensures forall seat :: seat in Next(s, op).donors ==> seat.scope in builders
  {
  }

  lemma {:induction false} SeparateNeverReturns(ops: seq<Op>, builders: set<ScopeId>, seat: Seat)
    requires Disciplined(ops) && Separate(ops, builders)
    ensures !EverReturns(ops, seat)
    ensures forall donor :: donor in After(ops).donors ==> donor.scope in builders
  {
    hide Inv, Next, Carried, Current;
    if ops != [] {
      var s := After(ops[..|ops| - 1]);
      var op := ops[|ops| - 1];
      InvRun(ops[..|ops| - 1]);
      SeparateNeverReturns(ops[..|ops| - 1], builders, seat);
      DonorsAreBuilders(s, op, builders);
      if seat !in s.donors {
        NothingReturns(s, op, seat);
      }
    }
  }

  /** Where scopes that donate adopt nothing, as the plan builder's do, tokens
      compare as promised at every seat, donors included. */
  lemma BuildersNeverConfuse(ops: seq<Op>, builders: set<ScopeId>, seat: Seat)
    requires Disciplined(ops) && Separate(ops, builders)
    ensures Compared(After(ops), seat)
  {
    hide Compared, After, EverReturns, Separate;
    SeparateNeverReturns(ops, builders, seat);
    EvictionBreaksComparison(ops, seat);
  }

  // ------------------------------------------------------------ the exception

  /** Scope 0 mints and donates to scope 1, which mints once. */
  function OneWay(): seq<Op> {
    [] + [Mint(Seat(0, "x"))] + [Adopt(1, 0)] + [Mint(Seat(1, "x"))]
  }

  /** Scope 0 evicts its token and is given the lineage back. */
  function RoundTrip(): seq<Op> {
    OneWay() + [Evict(Seat(0, "x"), Fence(1, 1))] + [Adopt(0, 1)]
  }

  lemma AfterMore(ops: seq<Op>, op: Op)
    requires Possible(After(ops), op)
    ensures After(ops + [op]) == Next(After(ops), op)
    ensures Disciplined(ops) && Legal(After(ops), op) ==> Disciplined(ops + [op])
  {
    hide Next, Legal;
    assert (ops + [op])[..|ops|] == ops;
  }

  lemma AfterNone()
    ensures After([]) == Initial() && Disciplined([])
  {
  }

  lemma OneWayReached()
    ensures Disciplined(OneWay())
    ensures var s := After(OneWay());
            && DomainOf(s, 0) == map["x" := Fence(1, 1)] && DomainOf(s, 1) == map["x" := Fence(1, 2)]
            && s.grants == [Grant(Seat(0, "x"), Fence(1, 1)), Grant(Seat(1, "x"), Fence(1, 2))]
            && s.adopted == {0} && s.epochs == map[]
            && |s.entries| == 3 && s.entries[0] == Entry(Seat(0, "x"), 0, Fence(1, 1))
  {
    hide After, Disciplined;
    var o1 := [] + [Mint(Seat(0, "x"))];
    var o2 := o1 + [Adopt(1, 0)];
    AfterNone();
    AfterMore([], Mint(Seat(0, "x")));
    AfterMore(o1, Adopt(1, 0));
    AfterMore(o2, Mint(Seat(1, "x")));
  }

  /** The exception is reached within the discipline: after a chain of adoptions
      a token supersedes an earlier one of its seat across an eviction. */
  lemma LineageCanReturn()
    ensures Disciplined(RoundTrip())
    ensures var s := After(RoundTrip());
            && |s.entries| == 4 && s.entries[0].seat == s.entries[3].seat == Seat(0, "x")
            && s.entries[0].epoch < s.entries[3].epoch
            && Supersedes(s.entries[3].token, s.entries[0].token)
  {
    hide After, Disciplined, OneWay;
    OneWayReached();
    AfterMore(OneWay(), Evict(Seat(0, "x"), Fence(1, 1)));
    AfterMore(OneWay() + [Evict(Seat(0, "x"), Fence(1, 1))], Adopt(0, 1));
  }
}
