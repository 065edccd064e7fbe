/** Runs of minting, adoption and eviction across any number of scopes that
    share one lineage counter. */
module Memberships {
  import opened Common
  import opened Identity

  type ScopeId = nat

  /** One id within one scope. */
  datatype Seat = Seat(scope: ScopeId, id: ChildId)

  /** A minted token and the seat that minted it. */
  datatype Grant = Grant(seat: Seat, token: Fence)

  /** A token that became a seat's current one, and how many matching evictions
      the seat had seen by then. */
  datatype Entry = Entry(seat: Seat, epoch: nat, token: Fence)

  /** `scopes` holds every scope's domain. `grants` are all minted tokens
      in order, `adopted` those whose provisional was consumed by adoption,
      `donors` the seats whose lineage moved away by adoption, and `entries` and
      `epochs` each seat's history. `holder` is the seat each lineage is at, and
      `newest` the last generation given out in it. */
  datatype State = State(
    scopes: map<ScopeId, Domain>,
    lineages: nat,
    grants: seq<Grant>,
    adopted: set<nat>,
    donors: set<Seat>,
    entries: seq<Entry>,
    epochs: map<Seat, nat>,
    holder: map<nat, Seat>,
    newest: map<nat, nat>)

  datatype Op =
    | Mint(seat: Seat)
    | Adopt(scope: ScopeId, provisional: nat)
    | Evict(seat: Seat, token: Fence)

  function Initial(): State {
    State(map[], 0, [], {}, {}, [], map[], map[], map[])
  }

  function Epoch(s: State, seat: Seat): nat {
    if seat in s.epochs then s.epochs[seat] else 0
  }

  function DomainOf(s: State, scope: ScopeId): Domain {
    if scope in s.scopes then s.scopes[scope] else map[]
  }

  /** The last token the seat issued or adopted, while it is tracked. */
  function Current(s: State, seat: Seat): Option<Fence> {
    if seat.id in DomainOf(s, seat.scope) then Some(DomainOf(s, seat.scope)[seat.id]) else None
  }

  /** What the types allow: a provisional exists and is consumed once. */
  predicate Possible(s: State, op: Op) {
    op.Adopt? ==> op.provisional < |s.grants| && op.provisional !in s.adopted
  }

  /** The use the framework makes of provisionals: a seat that gives its lineage
      away mints once only, and gives it to another scope. */
  predicate Legal(s: State, op: Op) {
    Possible(s, op)
    && match op
    case Mint(seat) => seat !in s.donors
    case Adopt(scope, n) =>
      && var seat := Seat(scope, s.grants[n].seat.id);
      if Current(s, seat).Some? then seat !in s.donors
      else s.grants[n].seat.scope != scope && Sole(s, n)
    case Evict(_, _) => true
  }

  /** The seat of grant `n` has minted nothing else. */
  predicate Sole(s: State, n: nat)
    requires n < |s.grants|
  {
    forall m :: 0 <= m < |s.grants| && m != n ==> s.grants[m].seat != s.grants[n].seat
  }

  /** Records what `change` did at `seat`. */
  function Applied(s: State, seat: Seat, change: Change): State
    requires seat.id in change.domain
  {
    var token := change.domain[seat.id];
    s.(scopes := s.scopes[seat.scope := change.domain],
       lineages := change.lineages,
       grants := if change.token.Some? then s.grants + [Grant(seat, change.token.value)] else s.grants,
       entries := s.entries + [Entry(seat, Epoch(s, seat), token)],
       holder := s.holder[token.lineage := seat],
       newest := s.newest[token.lineage := token.generation])
  }

  function MintedAt(s: State, seat: Seat): State {
    Applied(s, seat, Minted(DomainOf(s, seat.scope), s.lineages, seat.id))
  }

  function AdoptedAt(s: State, scope: ScopeId, n: nat): State
    requires n < |s.grants|
  {
    var grant := s.grants[n];
    var seat := Seat(scope, grant.seat.id);
    var t := Applied(s, seat, AdoptedOrMinted(DomainOf(s, scope), s.lineages, seat.id, grant.token))
             .(adopted := s.adopted + {n});
    if Current(s, seat).Some? then t else t.(donors := s.donors + {grant.seat})
  }

  function EvictedAt(s: State, seat: Seat, token: Fence): State {
    s.(scopes := s.scopes[seat.scope := Evicted(DomainOf(s, seat.scope), seat.id, token)],
       epochs := if Current(s, seat) == Some(token) then s.epochs[seat := Epoch(s, seat) + 1]
                 else s.epochs)
  }

  function Next(s: State, op: Op): State
    requires Possible(s, op)
  {
    match op
    case Mint(seat) => MintedAt(s, seat)
    case Adopt(scope, n) => AdoptedAt(s, scope, n)
    case Evict(seat, token) => EvictedAt(s, seat, token)
  }

  /** An impossible operation changes nothing, so every sequence is a run. */
  function After(ops: seq<Op>): State {
    if ops == [] then Initial()
    else
      var s := After(ops[..|ops| - 1]);
      if Possible(s, ops[|ops| - 1]) then Next(s, ops[|ops| - 1]) else s
  }

  /** Every operation is one the framework makes. */
  predicate Disciplined(ops: seq<Op>) {
    ops == [] || (Disciplined(ops[..|ops| - 1])
                  && Legal(After(ops[..|ops| - 1]), ops[|ops| - 1]))
  }

  // ------------------------------------------------------------ the invariant

  predicate LineagesOk(s: State) {
    s.holder.Keys == s.newest.Keys && forall l :: l in s.newest ==> l <= s.lineages
  }

  predicate At(s: State, token: Fence, seat: Seat) {
    && token.lineage in s.holder && s.holder[token.lineage] == seat
    && token.lineage in s.newest && s.newest[token.lineage] == token.generation
  }

  /** A seat that still mints has its lineage to itself. */
  predicate SeatOk(s: State, seat: Seat)
    requires LineagesOk(s)
  {
    Current(s, seat).Some? && seat !in s.donors ==> At(s, Current(s, seat).value, seat)
  }

  predicate GrantOk(s: State, n: nat)
    requires LineagesOk(s)
  {
    n < |s.grants| ==>
      var grant := s.grants[n];
      && grant.token.lineage in s.newest
      && grant.token.generation <= s.newest[grant.token.lineage]
      && (grant.seat in s.donors ==> n in s.adopted)
      && (grant.seat !in s.donors && Sole(s, n) ==> At(s, grant.token, grant.seat))
  }

  predicate DistinctGrants(s: State) {
    forall m, n :: 0 <= m < n < |s.grants| ==> s.grants[m].token != s.grants[n].token
  }

  predicate EntryOk(s: State, e: nat)
    requires LineagesOk(s)
  {
    e < |s.entries| && s.entries[e].seat !in s.donors ==>
      && s.entries[e].token.lineage in s.newest
      && s.holder[s.entries[e].token.lineage] == s.entries[e].seat
  }

  ghost predicate Inv(s: State) {
    && LineagesOk(s)
    && (forall seat :: SeatOk(s, seat))
    && (forall n :: GrantOk(s, n))
    && (forall e :: EntryOk(s, e))
  }

  // Minting at a seat that has not given its lineage away.

  lemma MintSeat(s: State, seat: Seat, other: Seat)
    requires LineagesOk(s) && seat !in s.donors && SeatOk(s, seat) && SeatOk(s, other)
    ensures LineagesOk(MintedAt(s, seat)) && SeatOk(MintedAt(s, seat), other)
  {
  }

  lemma MintGrant(s: State, seat: Seat, n: nat)
    requires LineagesOk(s) && seat !in s.donors && SeatOk(s, seat) && GrantOk(s, n)
    ensures LineagesOk(MintedAt(s, seat)) && GrantOk(MintedAt(s, seat), n)
  {
    if n < |s.grants| && Sole(MintedAt(s, seat), n) {
      SoleBefore(s, MintedAt(s, seat), n);
    }
  }

  lemma SoleBefore(s: State, u: State, n: nat)
    requires |s.grants| < |u.grants| && u.grants[..|s.grants|] == s.grants
    requires n < |s.grants| && Sole(u, n)
    ensures Sole(s, n) && u.grants[|s.grants|].seat != s.grants[n].seat
  {
    assert forall m :: 0 <= m < |s.grants| ==> u.grants[m] == s.grants[m];
  }

  lemma MintEntry(s: State, seat: Seat, e: nat)
    requires LineagesOk(s) && seat !in s.donors && SeatOk(s, seat) && EntryOk(s, e)
    ensures LineagesOk(MintedAt(s, seat)) && EntryOk(MintedAt(s, seat), e)
  {
  }

  lemma KeepsMint(s: State, seat: Seat)
    requires Inv(s) && seat !in s.donors
    ensures Inv(MintedAt(s, seat))
  {
    hide SeatOk, GrantOk, EntryOk, MintedAt, LineagesOk;
    var u := MintedAt(s, seat);
    MintSeat(s, seat, seat);
    forall other ensures SeatOk(u, other) { MintSeat(s, seat, other); }
    forall n ensures GrantOk(u, n) { MintGrant(s, seat, n); }
    forall e ensures EntryOk(u, e) { MintEntry(s, seat, e); }
  }

  // Consuming a provisional that the stable seat did not need.

  lemma KeepsConsume(s: State, n: nat)
    requires Inv(s)
    ensures Inv(s.(adopted := s.adopted + {n}))
  {
    var u := s.(adopted := s.adopted + {n});
    forall seat ensures SeatOk(u, seat) { assert SeatOk(s, seat); }
    forall m: nat ensures GrantOk(u, m) {
      assert GrantOk(s, m);
      assert m < |s.grants| && Sole(u, m) ==> Sole(s, m);
    }
    forall e ensures EntryOk(u, e) { assert EntryOk(s, e); }
  }

  // Moving a lineage to an untracked seat.

  predicate MayMove(s: State, scope: ScopeId, n: nat) {
    && n < |s.grants| && n !in s.adopted
    && Current(s, Seat(scope, s.grants[n].seat.id)).None?
    && s.grants[n].seat.scope != scope && Sole(s, n)
  }

  lemma MoveFrom(s: State, scope: ScopeId, n: nat)
    requires Inv(s) && MayMove(s, scope, n)
    ensures s.grants[n].seat !in s.donors && At(s, s.grants[n].token, s.grants[n].seat)
  {
    assert GrantOk(s, n);
  }

  lemma MoveSeat(s: State, scope: ScopeId, n: nat, other: Seat)
    requires LineagesOk(s) && MayMove(s, scope, n) && SeatOk(s, other)
    requires s.grants[n].seat !in s.donors && At(s, s.grants[n].token, s.grants[n].seat)
    ensures LineagesOk(AdoptedAt(s, scope, n)) && SeatOk(AdoptedAt(s, scope, n), other)
  {
  }

  lemma MoveGrant(s: State, scope: ScopeId, n: nat, m: nat)
    requires LineagesOk(s) && MayMove(s, scope, n) && GrantOk(s, m)
    requires s.grants[n].seat !in s.donors && At(s, s.grants[n].token, s.grants[n].seat)
    ensures LineagesOk(AdoptedAt(s, scope, n)) && GrantOk(AdoptedAt(s, scope, n), m)
  {
    var u := AdoptedAt(s, scope, n);
    assert u.grants == s.grants;
    assert m < |s.grants| && Sole(u, m) ==> Sole(s, m);
  }

  lemma MoveEntry(s: State, scope: ScopeId, n: nat, e: nat)
    requires LineagesOk(s) && MayMove(s, scope, n) && EntryOk(s, e)
    requires s.grants[n].seat !in s.donors && At(s, s.grants[n].token, s.grants[n].seat)
    ensures LineagesOk(AdoptedAt(s, scope, n)) && EntryOk(AdoptedAt(s, scope, n), e)
  {
  }

  lemma KeepsMove(s: State, scope: ScopeId, n: nat)
    requires Inv(s) && MayMove(s, scope, n)
    ensures Inv(AdoptedAt(s, scope, n))
  {
    hide SeatOk, GrantOk, EntryOk, LineagesOk, At, Sole;
    var u := AdoptedAt(s, scope, n);
    MoveFrom(s, scope, n);
    MoveSeat(s, scope, n, s.grants[n].seat);
    forall other ensures SeatOk(u, other) { MoveSeat(s, scope, n, other); }
    forall m ensures GrantOk(u, m) { MoveGrant(s, scope, n, m); }
    forall e ensures EntryOk(u, e) { MoveEntry(s, scope, n, e); }
    assert u.grants == s.grants;
  }

  /** Why a seat that gave its lineage away must not mint again: it would repeat
      the very token the new holder mints next. */
  lemma DonorWouldRepeat(s: State, scope: ScopeId, n: nat)
    requires MayMove(s, scope, n) && Current(s, s.grants[n].seat) == Some(s.grants[n].token)
    ensures var u := AdoptedAt(s, scope, n);
            var donor, holder := s.grants[n].seat, Seat(scope, s.grants[n].seat.id);
            Current(MintedAt(u, donor), donor) == Current(MintedAt(u, holder), holder)
            == Some(s.grants[n].token.(generation := s.grants[n].token.generation + 1))
  {
  }

  // Eviction.

  /** Only the token issued last untracks a seat; a stale one changes no seat of
      any scope. */
  lemma EvictionIsExact(s: State, seat: Seat, token: Fence, other: Seat)
    ensures Current(EvictedAt(s, seat, token), other)
            == if other == seat && Current(s, seat) == Some(token) then None else Current(s, other)
  {
  }

  lemma KeepsEvict(s: State, seat: Seat, token: Fence)
    requires Inv(s)
    ensures Inv(EvictedAt(s, seat, token))
  {
    hide Current;
    var u := EvictedAt(s, seat, token);
    forall other ensures SeatOk(u, other) {
      assert SeatOk(s, other);
      EvictionIsExact(s, seat, token, other);
    }
    forall m: nat ensures GrantOk(u, m) {
      assert GrantOk(s, m);
      assert m < |s.grants| && Sole(u, m) ==> Sole(s, m);
    }
    forall e: nat ensures EntryOk(u, e) {
      assert EntryOk(s, e);
      if e < |s.entries| {
        EvictionIsExact(s, seat, token, s.entries[e].seat);
      }
    }
  }

  lemma InvStep(s: State, op: Op)
    requires Inv(s) && Legal(s, op)
    ensures Inv(Next(s, op))
  {
    hide Inv, MintedAt, EvictedAt;
    match op
    case Mint(seat) => KeepsMint(s, seat);
    case Adopt(scope, n) =>
      var seat := Seat(scope, s.grants[n].seat.id);
      if Current(s, seat).Some? {
        KeepsMint(s, seat);
        KeepsConsume(MintedAt(s, seat), n);
        ConsumedMint(s, scope, n);
      } else {
        KeepsMove(s, scope, n);
      }
    case Evict(seat, token) => KeepsEvict(s, seat, token);
  }

  /** Adoption into a tracked seat is a mint there. */
  lemma ConsumedMint(s: State, scope: ScopeId, n: nat)
    requires n < |s.grants| && Current(s, Seat(scope, s.grants[n].seat.id)).Some?
    ensures AdoptedAt(s, scope, n)
            == var u := MintedAt(s, Seat(scope, s.grants[n].seat.id)); u.(adopted := u.adopted + {n})
  {
  }

  lemma {:induction false} InvRun(ops: seq<Op>)
    requires Disciplined(ops)
    ensures Inv(After(ops))
  {
    if ops == [] {
      InvInitial();
    } else {
      hide Inv, Next;
      InvRun(ops[..|ops| - 1]);
      InvStep(After(ops[..|ops| - 1]), ops[|ops| - 1]);
    }
  }

  lemma InvInitial()
    ensures Inv(Initial())
  {
  }
}
