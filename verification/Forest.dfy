/** Parent links between goals, and the cycle check that guards a change of parent. */
module Forest {
  import opened Wrappers

  /** Every goal's parent; a parent is a goal. */
  type Links = map<string, Option<string>>

  predicate Closed(links: Links) { forall g :: g in links && links[g].Some? ==> links[g].value in links }

  /** The goal `k` links above `g`. */
  function Up(links: Links, g: string, k: nat): Option<string> {
    if k == 0 then Some(g)
    else
      match Up(links, g, k - 1)
      case None => None
      case Some(h) => if h in links then links[h] else None
  }

  ghost predicate Above(links: Links, g: string, h: string) { exists k: nat :: Up(links, g, k) == Some(h) }

  ghost predicate Acyclic(links: Links) { forall g, k: nat :: g in links && k > 0 ==> Up(links, g, k) != Some(g) }

  // ---- the walk ---------------------------------------------------------------------------------

  /** Contains the parent of each of its members. */
  predicate Upward(links: Links, up: set<string>) {
    forall h :: h in up && h in links && links[h].Some? ==> links[h].value in up
  }

  lemma {:induction false} UpwardContains(links: Links, up: set<string>, g: string, k: nat)
    requires Upward(links, up) && g in up && Up(links, g, k).Some?
    ensures Up(links, g, k).value in up
  {
    if k > 0 {
      UpwardContains(links, up, g, k - 1);
    }
  }

  /**
   The recursive query: `g` and everything above it. Rows already found are not followed again, so it
   ends on any graph, cyclic ones included.
  */
  method Closure(links: Links, g: string) returns (up: set<string>)
    requires Closed(links) && g in links
    ensures forall h :: h in up <==> Above(links, g, h)
  {
    up := {};
    var next := Some(g);
    ghost var n: nat := 0;
    while next.Some? && next.value !in up
      invariant up <= links.Keys && (next.Some? ==> next.value in links)
      invariant next == Up(links, g, n)
      invariant n > 0 ==> g in up
      invariant n == 0 ==> up == {}
      invariant forall h :: h in up ==> Above(links, g, h)
      invariant forall h :: h in up && links[h].Some? ==> links[h].value in up || next == links[h]
      decreases links.Keys - up
    {
      up := up + {next.value};
      next := links[next.value];
      n := n + 1;
    }
    assert Upward(links, up);
    forall h | Above(links, g, h) ensures h in up {
      var k: nat :| Up(links, g, k) == Some(h);
      UpwardContains(links, up, g, k);
    }
  }

  // ---- the check is exact -----------------------------------------------------------------------

  lemma {:induction false} UpFrom(links: Links, g: string, i: nat, h: string, j: nat)
    requires Up(links, g, i) == Some(h)
    ensures Up(links, g, i + j) == Up(links, h, j)
    decreases j
  {
    if j > 0 {
      UpFrom(links, g, i, h, j - 1);
    }
  }

  /** Until a walk meets `g`, a new parent for `g` makes no difference to it. */
  lemma {:induction false} SameUntil(links: Links, g: string, p: Option<string>, x: string, k: nat)
    requires g in links && forall i: nat :: i < k ==> Up(links, x, i) != Some(g)
    ensures Up(links[g := p], x, k) == Up(links, x, k)
  {
    if k > 0 {
      SameUntil(links, g, p, x, k - 1);
      assert Up(links, x, k - 1) != Some(g);
    }
  }

  /** The first time a walk meets `g`. */
  lemma {:induction false} FirstMeeting(links: Links, x: string, g: string, k: nat) returns (i: nat)
    requires Up(links, x, k) == Some(g)
    ensures i <= k && Up(links, x, i) == Some(g) && forall j: nat :: j < i ==> Up(links, x, j) != Some(g)
  {
    if j: nat :| j < k && Up(links, x, j) == Some(g) {
      i := FirstMeeting(links, x, g, j);
    } else {
      i := k;
    }
  }

  /** A walk that meets `g` under the new links met it under the old ones. */
  lemma MetBefore(links: Links, g: string, p: Option<string>, x: string, k: nat)
    requires g in links && Up(links[g := p], x, k) == Some(g)
    ensures Above(links, x, g)
  {
    var i := FirstMeeting(links[g := p], x, g, k);
    SameUntil(links[g := p], g, links[g], x, i);
    assert links[g := p][g := links[g]] == links;
  }

  lemma CloseCycle(links: Links, g: string, p: string)
    requires g in links && Above(links, p, g)
    ensures !Acyclic(links[g := Some(p)])
  {
    var k: nat :| Up(links, p, k) == Some(g);
    var i := FirstMeeting(links, p, g, k);
    var now := links[g := Some(p)];
    SameUntil(links, g, Some(p), p, i);
    assert Up(now, g, 0) == Some(g) && Up(now, g, 1) == Some(p);
    UpFrom(now, g, 1, p, i);
  }

  lemma StaysAcyclic(links: Links, g: string, p: Option<string>)
    requires g in links && Acyclic(links) && (p.Some? ==> !Above(links, p.value, g))
    ensures Acyclic(links[g := p])
  {
    var now := links[g := p];
    assert now[g := links[g]] == links;
    forall x, k: nat | x in now && k > 0 ensures Up(now, x, k) != Some(x) {
      if Up(now, x, k) == Some(x) {
        if i: nat :| i < k && Up(now, x, i) == Some(g) {
          ThroughNewLink(links, g, p, x, i, k);
        } else {
          SameUntil(now, g, links[g], x, k);
        }
      }
    }
  }

  /** A cycle through the new link leads from the new parent back to the goal. */
  lemma ThroughNewLink(links: Links, g: string, p: Option<string>, x: string, i: nat, k: nat)
    requires g in links && i < k && Up(links[g := p], x, i) == Some(g) && Up(links[g := p], x, k) == Some(x)
    ensures p.Some? && Above(links, p.value, g)
  {
    var now := links[g := p];
    UpFrom(now, x, i, g, 1);
    assert Up(now, g, 0) == Some(g);
    UpFrom(now, x, k, x, i);
    if p.None? {
      Ended(now, x, i + 1, k);
      assert false;
    } else {
      UpFrom(now, x, i + 1, p.value, k - 1);
      MetBefore(links, g, p, p.value, k - 1);
    }
  }

  /** A walk that has ended stays ended. */
  lemma {:induction false} Ended(links: Links, x: string, i: nat, k: nat)
    requires i <= k && Up(links, x, i).None?
    ensures Up(links, x, k).None?
  {
    if i < k {
      Ended(links, x, i, k - 1);
    }
  }

  // ---- Reparent ---------------------------------------------------------------------------------

  datatype ReparentError = NoGoal | NoParent | Cycle

  class Goals {
    var links: Links

    constructor ()
      ensures links == map[] && Closed(links) && Acyclic(links)
    {
      links := map[];
    }

    /** A new goal under an existing one, or under none. */
    method Add(g: string, parent: Option<string>) returns (ok: bool)
      requires Closed(links) && Acyclic(links)
      modifies this
      ensures Closed(links) && Acyclic(links)
      ensures ok <==> g !in old(links) && (parent.Some? ==> parent.value in old(links))
      ensures links == if ok then old(links)[g := parent] else old(links)
    {
      if g in links || (parent.Some? && parent.value !in links) {
        return false;
      }
      AddedLeaf(links, g, parent);
      links := links[g := parent];
      return true;
    }

    /**
     Changes a goal's parent, as one step. It is refused exactly when the new link would close a cycle,
     and the links stay a forest.
    */
    method Reparent(g: string, parent: Option<string>) returns (error: Option<ReparentError>)
      requires Closed(links) && Acyclic(links)
      modifies this
      ensures Closed(links) && Acyclic(links)
      ensures error == Some(NoGoal) <==> g !in old(links)
      ensures error == Some(NoParent) <==> g in old(links) && parent.Some? && parent.value !in old(links)
      ensures error == Some(Cycle) <==>
        g in old(links) && parent.Some? && parent.value in old(links) && !Acyclic(old(links)[g := parent])
      ensures links == if error.None? then old(links)[g := parent] else old(links)
    {
      if g !in links {
        return Some(NoGoal);
      }
      if parent.Some? {
        if parent.value !in links {
          return Some(NoParent);
        }
        var up := Closure(links, parent.value);
        if g in up {
          CloseCycle(links, g, parent.value);
          return Some(Cycle);
        }
      }
      StaysAcyclic(links, g, parent);
      links := links[g := parent];
      return None;
    }
  }

  /** Nothing can be above a goal that did not exist. */
  lemma AddedLeaf(links: Links, g: string, p: Option<string>)
    requires Closed(links) && Acyclic(links) && g !in links && (p.Some? ==> p.value in links)
    ensures Acyclic(links[g := p])
  {
    var now := links[g := p];
    forall x, k: nat | x in now && k > 0 ensures Up(now, x, k) != Some(x) {
      if x == g {
        InOld(links, g, p, k);
      } else {
        SameBelow(links, g, p, x, k);
      }
    }
  }

  lemma {:induction false} SameBelow(links: Links, g: string, p: Option<string>, x: string, k: nat)
    requires Closed(links) && g !in links && x in links
    ensures Up(links[g := p], x, k) == Up(links, x, k) && (Up(links, x, k).Some? ==> Up(links, x, k).value in links)
  {
    if k > 0 {
      SameBelow(links, g, p, x, k - 1);
    }
  }

  lemma {:induction false} InOld(links: Links, g: string, p: Option<string>, k: nat)
    requires Closed(links) && g !in links && (p.Some? ==> p.value in links) && k > 0
    ensures Up(links[g := p], g, k).Some? ==> Up(links[g := p], g, k).value in links
  {
    if k == 1 {
      assert Up(links[g := p], g, 0) == Some(g);
    } else {
      InOld(links, g, p, k - 1);
    }
  }

  // ---- two changes at once ------------------------------------------------------------------------

  /** Two changes that were both checked against the same links. */
  ghost predicate Checked(links: Links, g1: string, p1: string, g2: string, p2: string) {
    && g1 != g2 && g1 in links && g2 in links
    && Acyclic(links) && !Above(links, p1, g1) && !Above(links, p2, g2)
  }

  /** Being above is kept by a new link elsewhere, as long as the walk does not pass it. */
  lemma AboveKept(links: Links, g: string, p: Option<string>, x: string, h: string)
    requires g in links && Above(links, x, h) && !Above(links, x, g)
    ensures Above(links[g := p], x, h)
  {
    var k: nat :| Up(links, x, k) == Some(h);
    SameUntil(links, g, p, x, k);
  }

  /** A walk after the first change either went the same way before it, or passed the changed goal. */
  lemma AboveAfter(links: Links, g: string, p: string, x: string, h: string)
    requires g in links && Above(links[g := Some(p)], x, h)
    ensures Above(links, x, h) || (Above(links, x, g) && Above(links[g := Some(p)], p, h))
  {
    var now := links[g := Some(p)];
    var k: nat :| Up(now, x, k) == Some(h);
    if i: nat :| i < k && Up(now, x, i) == Some(g) {
      MetBefore(links, g, Some(p), x, i);
      assert Up(now, g, 0) == Some(g) && Up(now, g, 1) == Some(p);
      UpFrom(now, x, i, g, 1);
      UpFrom(now, x, i + 1, p, k - i - 1);
    } else {
      SameUntil(now, g, links[g], x, k);
      assert now[g := links[g]] == links;
    }
  }

  /**
   Check and update are two transactions. Two changes that each pass the check against the same links
   leave a forest if and only if they do not cross: not both new parents lie below the other's goal.
  */
  lemma TwoChangesSafeIff(links: Links, g1: string, p1: string, g2: string, p2: string)
    requires Checked(links, g1, p1, g2, p2)
    ensures Acyclic(links[g1 := Some(p1)][g2 := Some(p2)]) <==> !(Above(links, p2, g1) && Above(links, p1, g2))
  {
    var one := links[g1 := Some(p1)];
    StaysAcyclic(links, g1, Some(p1));
    if Above(links, p2, g1) && Above(links, p1, g2) {
      AboveKept(links, g1, Some(p1), p1, g2);
      CrossedWalk(links, g1, p1, g2, p2);
      CloseCycle(one, g2, p2);
    } else {
      if Above(one, p2, g2) {
        AboveAfter(links, g1, p1, p2, g2);
        AboveBack(links, g1, p1, g2);
        assert false;
      }
      StaysAcyclic(one, g2, Some(p2));
    }
  }

  /** With crossing parents the first change puts the second goal above its own new parent. */
  lemma CrossedWalk(links: Links, g1: string, p1: string, g2: string, p2: string)
    requires g1 in links && Above(links, p2, g1) && Above(links[g1 := Some(p1)], p1, g2)
    ensures Above(links[g1 := Some(p1)], p2, g2)
  {
    var one := links[g1 := Some(p1)];
    var k: nat :| Up(links, p2, k) == Some(g1);
    var i := FirstMeeting(links, p2, g1, k);
    SameUntil(links, g1, Some(p1), p2, i);
    assert Up(one, g1, 0) == Some(g1) && Up(one, g1, 1) == Some(p1);
    UpFrom(one, p2, i, g1, 1);
    var j: nat :| Up(one, p1, j) == Some(g2);
    UpFrom(one, p2, i + 1, p1, j);
  }

  /** What lies above the new parent after the change lay above it before. */
  lemma AboveBack(links: Links, g: string, p: string, h: string)
    requires g in links && Acyclic(links) && !Above(links, p, g)
    ensures Above(links[g := Some(p)], p, h) ==> Above(links, p, h)
  {
    if Above(links[g := Some(p)], p, h) {
      AboveAfter(links, g, p, p, h);
    }
  }

  /** Two goals made each other's parent at once. */
  lemma CheckThenUpdateRaces()
    ensures var links: Links := map["a" := None, "b" := None];
            Checked(links, "a", "b", "b", "a") && !Acyclic(links["a" := Some("b")]["b" := Some("a")])
  {
    var links: Links := map["a" := None, "b" := None];
    forall x, k: nat | x in links && k > 0 ensures Up(links, x, k).None? {
      assert Up(links, x, 0) == Some(x);
      assert Up(links, x, 1).None?;
      Ended(links, x, 1, k);
    }
    assert forall x, h, k: nat :: x in links && Up(links, x, k) == Some(h) ==> k == 0 && h == x by {
      forall x, h, k: nat | x in links && Up(links, x, k) == Some(h) ensures k == 0 && h == x {
        assert k > 0 ==> Up(links, x, k).None?;
      }
    }
    assert Up(links, "a", 0) == Some("a") && Up(links, "b", 0) == Some("b");
    TwoChangesSafeIff(links, "a", "b", "b", "a");
  }
}
