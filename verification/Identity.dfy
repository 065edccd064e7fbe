/** Membership fences and the identity domain of one scope. */
module Identity {
  import opened Common

  /** A lineage and an ordered generation within it. */
  datatype Fence = Fence(lineage: nat, generation: nat)

  type Membership = Fence

  type ChildId = string

  predicate Supersedes(a: Fence, b: Fence) {
    a.lineage == b.lineage && a.generation > b.generation
  }

  predicate Incomparable(a: Fence, b: Fence) {
    !Supersedes(a, b) && !Supersedes(b, a) && a != b
  }

  lemma SupersedesIsStrictOrder(a: Fence, b: Fence, c: Fence)
    ensures !Supersedes(a, a)
    ensures Supersedes(a, b) ==> !Supersedes(b, a)
    ensures Supersedes(a, b) && Supersedes(b, c) ==> Supersedes(a, c)
    ensures a.lineage == b.lineage ==> Supersedes(a, b) || Supersedes(b, a) || a == b
    ensures a.lineage != b.lineage ==> Incomparable(a, b)
  {
  }

  /** The ids a scope tracks, each with the last token it issued. */
  type Domain = map<ChildId, Fence>

  /** A domain beside the process-wide lineage counter, and the token given out
      by the operation, if any. */
  datatype Change = Change(domain: Domain, lineages: nat, token: Option<Fence>)

  function Minted(domain: Domain, lineages: nat, id: ChildId): Change {
    var next := if id in domain then lineages else lineages + 1;
    var token := if id in domain then domain[id].(generation := domain[id].generation + 1)
                 else Fence(next, 1);
    Change(domain[id := token], next, Some(token))
  }

  /** A tracked id mints the successor of its own lineage; an untracked one takes
      over the provisional token, giving out nothing. */
  function AdoptedOrMinted(domain: Domain, lineages: nat, id: ChildId, provisional: Fence): Change {
    if id in domain then Minted(domain, lineages, id)
    else Change(domain[id := provisional], lineages, None)
  }

  function Evicted(domain: Domain, id: ChildId, token: Fence): Domain {
    if id in domain && domain[id] == token then domain - {id} else domain
  }

  /** The process-wide lineage counter. */
  class LineageCounter {
    var current: nat

    constructor ()
      ensures current == 0
    {
      current := 0;
    }

    method Mint() returns (lineage: nat)
      modifies this
      ensures lineage == current == old(current) + 1
    {
      current := current + 1;
      lineage := current;
    }
  }

  class ScopeIdentity {
    var memberships: Domain

    constructor ()
      ensures memberships == map[]
    {
      memberships := map[];
    }

    method MintMembership(lineages: LineageCounter, id: ChildId) returns (token: Membership)
      modifies this, lineages
      ensures Change(memberships, lineages.current, Some(token))
              == Minted(old(memberships), old(lineages.current), id)
    {
      if id in memberships {
        token := memberships[id].(generation := memberships[id].generation + 1);
      } else {
        var lineage := lineages.Mint();
        token := Fence(lineage, 1);
      }
      memberships := memberships[id := token];
    }

    method AdoptOrMintMembership(lineages: LineageCounter, id: ChildId, provisional: Membership)
      returns (minted: Option<Membership>)
      modifies this, lineages
      ensures Change(memberships, lineages.current, minted)
              == AdoptedOrMinted(old(memberships), old(lineages.current), id, provisional)
      ensures minted.None? ==> id in memberships && memberships[id] == provisional
    {
      if id in memberships {
        var token := MintMembership(lineages, id);
        minted := Some(token);
      } else {
        memberships := memberships[id := provisional];
        minted := None;
      }
    }

    /** Only the token issued last evicts the id; a stale one changes nothing. */
    method Evict(id: ChildId, token: Membership)
      modifies this
      ensures memberships == Evicted(old(memberships), id, token)
      ensures !(id in old(memberships) && old(memberships)[id] == token) ==>
                memberships == old(memberships)
    {
      if id in memberships && memberships[id] == token {
        memberships := memberships - {id};
      }
    }
  }
}
