/** When a membership token is minted twice. */
module MembershipTokens {
  import opened Common
  import opened Identity
  import opened Memberships

  predicate Granted(s: State, token: Fence) {
    exists n :: 0 <= n < |s.grants| && s.grants[n].token == token
  }

  /** A later generation of the token's lineage has been granted. */
  predicate Overtaken(s: State, token: Fence) {
    exists n :: 0 <= n < |s.grants| && Supersedes(s.grants[n].token, token)
  }

  /** The operation would mint at `seat`, or hand it a lineage. */
  function Target(s: State, op: Op): Seat
    requires Possible(s, op)
  {
    match op
    case Mint(seat) => seat
    case Adopt(scope, n) => Seat(scope, s.grants[n].seat.id)
    case Evict(seat, _) => seat
  }

  /** The operation mints the successor of an overtaken token. */
  predicate Repeats(s: State, op: Op) {
    && Possible(s, op) && !op.Evict?
    && Current(s, Target(s, op)).Some? && Overtaken(s, Current(s, Target(s, op)).value)
  }

  // ------------------------------------------------------------ the invariant

  /** The generations granted in a lineage have no gap. */
  predicate GrantLinked(s: State, n: nat) {
    n < |s.grants| ==>
      var token := s.grants[n].token;
      && token.lineage <= s.lineages && token.generation >= 1
      && (token.generation > 1 ==> Granted(s, Fence(token.lineage, token.generation - 1)))
  }

  predicate SeatGranted(s: State, seat: Seat) {
    Current(s, seat).Some? ==> Granted(s, Current(s, seat).value)
  }

  ghost predicate Linked(s: State) {
    (forall n :: GrantLinked(s, n)) && (forall seat :: SeatGranted(s, seat))
  }

  lemma {:induction false} NoGap(s: State, token: Fence, generation: nat)
    requires Linked(s) && Granted(s, token) && 1 <= generation <= token.generation
    ensures Granted(s, Fence(token.lineage, generation))
    decreases token.generation
  {
    if generation < token.generation {
      var n: nat :| n < |s.grants| && s.grants[n].token == token;
      assert GrantLinked(s, n);
      NoGap(s, Fence(token.lineage, token.generation - 1), generation);
    }
  }

  /** What a mint at `seat` gives out. */
  function Successor(s: State, seat: Seat): Fence {
    if Current(s, seat).Some?
    then Current(s, seat).value.(generation := Current(s, seat).value.generation + 1)
    else Fence(s.lineages + 1, 1)
  }

  lemma MintShape(s: State, seat: Seat)
    ensures var u := MintedAt(s, seat);
            && u.grants == s.grants + [Grant(seat, Successor(s, seat))]
            && u.lineages == (if Current(s, seat).Some? then s.lineages else s.lineages + 1)
            && (forall other :: Current(u, other)
                  == if other == seat then Some(Successor(s, seat)) else Current(s, other))
  {
  }

  lemma MoveShape(s: State, scope: ScopeId, n: nat)
    requires n < |s.grants| && Current(s, Seat(scope, s.grants[n].seat.id)).None?
    ensures var u := AdoptedAt(s, scope, n);
            && u.grants == s.grants && u.lineages == s.lineages
            && (forall other :: Current(u, other)
                  == if other == Seat(scope, s.grants[n].seat.id) then Some(s.grants[n].token)
                     else Current(s, other))
  {
  }

  lemma StillGranted(s: State, u: State, token: Fence)
    requires Granted(s, token) && |s.grants| <= |u.grants| && u.grants[..|s.grants|] == s.grants
    ensures Granted(u, token)
  {
    var n :| 0 <= n < |s.grants| && s.grants[n].token == token;
    assert u.grants[n] == s.grants[n];
  }

  lemma MintLinks(s: State, seat: Seat)
    requires Linked(s)
    ensures Linked(MintedAt(s, seat))
  {
    hide MintedAt, Current, Granted;
    MintShape(s, seat);
    var u := MintedAt(s, seat);
    var token := Successor(s, seat);
    assert SeatGranted(s, seat);
    assert u.grants[|s.grants|].token == token;
    GrantedAt(u, |s.grants|);
    TrackedIsLinked(s, seat);
    forall n: nat ensures GrantLinked(u, n) {
      assert GrantLinked(s, n);
      if n < |s.grants| {
        assert u.grants[n] == s.grants[n];
        if s.grants[n].token.generation > 1 {
          StillGranted(s, u, Fence(s.grants[n].token.lineage, s.grants[n].token.generation - 1));
        }
      } else if n == |s.grants| && Current(s, seat).Some? {
        StillGranted(s, u, Current(s, seat).value);
      }
    }
    forall other ensures SeatGranted(u, other) {
      assert SeatGranted(s, other);
      if other != seat && Current(s, other).Some? {
        StillGranted(s, u, Current(s, other).value);
      }
    }
  }

  lemma GrantedAt(s: State, n: nat)
    requires n < |s.grants|
    ensures Granted(s, s.grants[n].token)
  {
  }

  lemma TrackedIsLinked(s: State, seat: Seat)
    requires Linked(s)
    ensures Current(s, seat).Some? ==>
              Current(s, seat).value.lineage <= s.lineages && Current(s, seat).value.generation >= 1
  {
    assert SeatGranted(s, seat);
    if Current(s, seat).Some? {
      var n: nat :| n < |s.grants| && s.grants[n].token == Current(s, seat).value;
      assert GrantLinked(s, n);
    }
  }

  /** Anything that grants nothing and gives seats only granted tokens. */
  lemma SameGrantsLink(s: State, u: State)
    requires Linked(s) && u.grants == s.grants && u.lineages == s.lineages
    requires forall other :: Current(u, other).Some? ==> Granted(s, Current(u, other).value)
    ensures Linked(u)
  {
    hide Current;
    forall n: nat ensures GrantLinked(u, n) { assert GrantLinked(s, n); }
  }

  lemma LinkedStep(s: State, op: Op)
    requires Linked(s) && Possible(s, op)
    ensures Linked(Next(s, op))
  {
    hide MintedAt, Current, Granted;
    forall other ensures Current(s, other).Some? ==> Granted(s, Current(s, other).value) {
      assert SeatGranted(s, other);
    }
    match op
    case Mint(seat) => MintLinks(s, seat);
    case Adopt(scope, n) =>
      if Current(s, Target(s, op)).Some? {
        MintLinks(s, Target(s, op));
        ConsumedMint(s, scope, n);
        ConsumeLinks(MintedAt(s, Target(s, op)), n);
      } else {
        MoveShape(s, scope, n);
        GrantedAt(s, n);
        SameGrantsLink(s, Next(s, op));
      }
    case Evict(seat, token) =>
      forall other ensures Current(Next(s, op), other).Some? ==> Current(Next(s, op), other) == Current(s, other) {
        EvictionIsExact(s, seat, token, other);
      }
      SameGrantsLink(s, Next(s, op));
  }

  lemma ConsumeLinks(s: State, n: nat)
    requires Linked(s)
    ensures Linked(s.(adopted := s.adopted + {n}))
  {
    hide Granted;
    var u := s.(adopted := s.adopted + {n});
    forall other ensures Current(u, other).Some? ==> Granted(s, Current(u, other).value) {
      assert SeatGranted(s, other);
    }
    SameGrantsLink(s, u);
  }

  // ------------------------------------------------------- distinct and repeated

  /** What an operation adds to the grants. */
  lemma GrantsGrow(s: State, op: Op)
    requires Possible(s, op)
    ensures Next(s, op).grants
            == if op.Evict? || (op.Adopt? && Current(s, Target(s, op)).None?) then s.grants
               else s.grants + [Grant(Target(s, op), Successor(s, Target(s, op)))]
  {
    hide Current, Successor, MintedAt;
    match op
    case Mint(seat) => MintShape(s, seat);
    case Adopt(scope, n) =>
      if Current(s, Target(s, op)).Some? {
        MintShape(s, Target(s, op));
        ConsumedMint(s, scope, n);
      } else {
        MoveShape(s, scope, n);
      }
    case Evict(_, _) =>
  }

  lemma SuccessorIsNew(s: State, seat: Seat)
    requires Linked(s) && (Current(s, seat).Some? ==> !Overtaken(s, Current(s, seat).value))
    ensures !Granted(s, Successor(s, seat))
  {
    hide Current;
    forall n: nat | n < |s.grants| ensures s.grants[n].token != Successor(s, seat) {
      assert GrantLinked(s, n);
    }
  }

  lemma SuccessorIsOld(s: State, seat: Seat)
    requires Linked(s) && Current(s, seat).Some? && Overtaken(s, Current(s, seat).value)
    ensures Granted(s, Successor(s, seat))
  {
    hide Current, Granted;
    var n: nat :| n < |s.grants| && Supersedes(s.grants[n].token, Current(s, seat).value);
    GrantedAt(s, n);
    NoGap(s, s.grants[n].token, Current(s, seat).value.generation + 1);
  }

  lemma DistinctStep(s: State, op: Op)
    requires Linked(s) && DistinctGrants(s) && Possible(s, op) && !Repeats(s, op)
    ensures DistinctGrants(Next(s, op))
  {
    hide Current, Next, Successor;
    GrantsGrow(s, op);
    if Next(s, op).grants != s.grants {
      SuccessorIsNew(s, Target(s, op));
    }
  }

  lemma RepeatStep(s: State, op: Op)
    requires Linked(s) && Repeats(s, op)
    ensures !DistinctGrants(Next(s, op))
  {
    hide Current, Next, Successor;
    GrantsGrow(s, op);
    SuccessorIsOld(s, Target(s, op));
    var u := Next(s, op);
    var n :| 0 <= n < |s.grants| && s.grants[n].token == Successor(s, Target(s, op));
    assert u.grants[n].token == u.grants[|s.grants|].token;
  }

  lemma DistinctBefore(s: State, op: Op)
    requires Possible(s, op) && DistinctGrants(Next(s, op))
    ensures DistinctGrants(s)
  {
    hide Current, Next, Successor;
    GrantsGrow(s, op);
    assert forall n :: 0 <= n < |s.grants| ==> Next(s, op).grants[n] == s.grants[n];
  }

  // -------------------------------------------------------------------- runs

  predicate EverRepeats(ops: seq<Op>) {
    ops != [] && (EverRepeats(ops[..|ops| - 1])
                  || Repeats(After(ops[..|ops| - 1]), ops[|ops| - 1]))
  }

  lemma {:induction false} LinkedRun(ops: seq<Op>)
    ensures Linked(After(ops))
  {
    hide Linked, Next, Possible;
    if ops == [] {
      LinkedInitial();
    } else {
      LinkedRun(ops[..|ops| - 1]);
      if Possible(After(ops[..|ops| - 1]), ops[|ops| - 1]) {
        LinkedStep(After(ops[..|ops| - 1]), ops[|ops| - 1]);
      }
    }
  }

  lemma LinkedInitial()
    ensures Linked(Initial()) && DistinctGrants(Initial())
  {
  }

  /** In every run, disciplined or not, all minted tokens differ exactly when no
      operation minted the successor of a token that a later one of its lineage
      had overtaken. */
  lemma {:induction false} TokensDifferExactly(ops: seq<Op>)
    ensures DistinctGrants(After(ops)) <==> !EverRepeats(ops)
  {
    hide Linked, Next, DistinctGrants, Repeats;
    if ops == [] {
      LinkedInitial();
    } else {
      var s := After(ops[..|ops| - 1]);
      var op := ops[|ops| - 1];
      TokensDifferExactly(ops[..|ops| - 1]);
      LinkedRun(ops[..|ops| - 1]);
      RepeatsArePossible(s, op);
      if Possible(s, op) {
        if Repeats(s, op) {
          RepeatStep(s, op);
        } else if DistinctGrants(s) {
          DistinctStep(s, op);
        } else if DistinctGrants(Next(s, op)) {
          DistinctBefore(s, op);
        }
      }
    }
  }

  lemma RepeatsArePossible(s: State, op: Op)
    ensures Repeats(s, op) ==> Possible(s, op)
  {
  }

  /** The framework's discipline never meets the exception. */
  lemma DisciplineNeverRepeats(s: State, op: Op)
    requires Inv(s) && Legal(s, op)
    ensures !Repeats(s, op)
  {
    hide Current;
    if !op.Evict? && Current(s, Target(s, op)).Some? {
      assert SeatOk(s, Target(s, op));
      forall n: nat | n < |s.grants|
        ensures !Supersedes(s.grants[n].token, Current(s, Target(s, op)).value)
      {
        assert GrantOk(s, n);
      }
    }
  }

  lemma {:induction false} DisciplinedNeverRepeats(ops: seq<Op>)
    requires Disciplined(ops)
    ensures !EverRepeats(ops)
  {
    hide Inv, Repeats;
    if ops != [] {
      DisciplinedNeverRepeats(ops[..|ops| - 1]);
      InvRun(ops[..|ops| - 1]);
      DisciplineNeverRepeats(After(ops[..|ops| - 1]), ops[|ops| - 1]);
    }
  }

  /** As the framework mints, no token is ever minted twice, by any scopes in any
      order. */
  lemma TokensAreUnique(ops: seq<Op>, m: nat, n: nat)
    requires Disciplined(ops) && m < n < |After(ops).grants|
    ensures After(ops).grants[m].token != After(ops).grants[n].token
  {
    hide After, Disciplined, EverRepeats;
    DisciplinedNeverRepeats(ops);
    TokensDifferExactly(ops);
  }
}
