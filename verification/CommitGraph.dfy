/** The git objects of every clone of one repository, and what a partial
    local object store can see of them. */
module CommitGraph {
  import opened Octets

  /** A 20-byte object name. */
  type Oid = Bytes

  datatype Object =
    | Commit(parents: seq<Oid>, tree: Oid)
    | Tag(target: Oid)              // annotated tag
    | Tree(entries: set<Oid>)       // a blob is a tree without entries

  /** All objects ever written. An object's name hashes the names it links
      to, so links cannot form a cycle; `height` is the witness. */
  datatype Graph = Graph(objects: map<Oid, Object>, height: Oid -> nat) {
    function Edges(o: Oid): set<Oid> {
      if o !in objects then {}
      else match objects[o]
        case Commit(parents, tree) => (set p | p in parents) + {tree}
        case Tag(target) => {target}
        case Tree(entries) => entries
    }

    predicate IsTree(o: Oid) {
      o in objects && objects[o].Tree?
    }

    predicate IsCommit(o: Oid) {
      o in objects && objects[o].Commit?
    }

    predicate IsTag(o: Oid) {
      o in objects && objects[o].Tag?
    }

    /** Commits and annotated tags; trees and blobs are contents. */
    predicate InHistory(o: Oid) {
      IsCommit(o) || IsTag(o)
    }

    ghost predicate Valid() {
      && (forall o, e {:trigger e in Edges(o)} :: e in Edges(o) ==> height(e) < height(o))
      && (forall o, e {:trigger e in Edges(o)} :: IsTree(o) && e in Edges(o) ==> e !in objects || IsTree(e))
      && (forall o :: IsCommit(o) ==>
            && (objects[o].tree !in objects || IsTree(objects[o].tree))
            && (forall p :: p in objects[o].parents ==> p !in objects || IsCommit(p)))
    }
  }

  /** Everything reachable from `o`: what `git rev-list --objects o` names. */
  ghost function Reach(g: Graph, o: Oid): set<Oid>
    requires g.Valid()
    decreases g.height(o)
  {
    {o} + set e, x | e in g.Edges(o) && x in Reach(g, e) :: x
  }

  ghost function ReachAll(g: Graph, os: set<Oid>): set<Oid>
    requires g.Valid()
  {
    set o, x | o in os && x in Reach(g, o) :: x
  }

  /** `git rev-parse <o>^{commit}` against a store holding only `local`. */
  function Peel(g: Graph, local: set<Oid>, o: Oid): (c: Option<Oid>)
    requires g.Valid()
    ensures c.Some? ==> g.IsCommit(c.value) && c.value in local && o in local
    ensures c.Some? ==> g.height(c.value) <= g.height(o)
    decreases g.height(o)
  {
    if o !in local || o !in g.objects then None
    else match g.objects[o]
      case Commit(_, _) => Some(o)
      case Tag(target) => assert target in g.Edges(o); Peel(g, local, target)
      case Tree(_) => None
  }

  /** The next commits to visit from `o`: the parents of the commit it peels to. */
  function WalkEdges(g: Graph, local: set<Oid>, o: Oid): (es: set<Oid>)
    requires g.Valid()
    ensures forall e :: e in es ==> g.height(e) < g.height(o)
  {
    match Peel(g, local, o)
    case None => {}
    case Some(c) =>
      assert forall p :: p in g.objects[c].parents ==> p in g.Edges(c);
      set p | p in g.objects[c].parents
  }

  /** Commits found from `o` by walking only through local commits. */
  ghost function Visible(g: Graph, local: set<Oid>, o: Oid): set<Oid>
    requires g.Valid()
    decreases g.height(o)
  {
    {o} + set e, x | e in WalkEdges(g, local, o) && x in Visible(g, local, e) :: x
  }

  ghost function VisibleAll(g: Graph, local: set<Oid>, os: set<Oid>): set<Oid>
    requires g.Valid()
  {
    set o, x | o in os && x in Visible(g, local, o) :: x
  }

  /** Whoever holds an annotated tag of a commit or tag holds that too. */
  ghost predicate TagClosed(g: Graph, local: set<Oid>) {
    forall o :: o in local && g.IsTag(o) && g.InHistory(g.objects[o].target) ==> g.objects[o].target in local
  }

  // ----- reachability -----

  lemma {:induction false} ReachTransitive(g: Graph, a: Oid, b: Oid)
    requires g.Valid() && b in Reach(g, a)
    ensures Reach(g, b) <= Reach(g, a)
    decreases g.height(a)
  {
    if b != a {
      var e :| e in g.Edges(a) && b in Reach(g, e);
      ReachTransitive(g, e, b);
    }
  }

  /** A commit brings its parents and tree, a tag what it names, and a tree
      its entries. */
  ghost predicate Complete(g: Graph, s: set<Oid>) {
    forall x :: x in s && x in g.objects ==>
      match g.objects[x]
      case Commit(parents, tree) => tree in s && forall p :: p in parents ==> p in s
      case Tag(target) => target in s
      case Tree(entries) => entries <= s
  }

  /** What an object reaches is complete. */
  lemma ReachComplete(g: Graph, o: Oid)
    requires g.Valid()
    ensures o in Reach(g, o) && Complete(g, Reach(g, o))
  {
    forall x, e | x in Reach(g, o) && e in g.Edges(x) ensures e in Reach(g, o) {
      ReachTransitive(g, o, x);
      assert e in Reach(g, e) && e in Reach(g, x);
    }
    forall x | x in Reach(g, o) && x in g.objects
      ensures match g.objects[x]
              case Commit(parents, tree) => tree in Reach(g, o) && forall p :: p in parents ==> p in Reach(g, o)
              case Tag(target) => target in Reach(g, o)
              case Tree(entries) => entries <= Reach(g, o)
    {
      assert g.Edges(x) <= Reach(g, o);
    }
  }

  /** It is the least complete set with the object. */
  lemma {:induction false} ReachLeast(g: Graph, o: Oid, s: set<Oid>)
    requires g.Valid() && o in s && Complete(g, s)
    ensures Reach(g, o) <= s
    decreases g.height(o)
  {
    forall x | x in Reach(g, o) ensures x in s {
      if x != o {
        var e :| e in g.Edges(o) && x in Reach(g, e);
        assert e in s;
        ReachLeast(g, e, s);
      }
    }
  }

  lemma {:induction false} ReachDescends(g: Graph, a: Oid, b: Oid)
    requires g.Valid() && b in Reach(g, a)
    ensures b == a || g.height(b) < g.height(a)
    decreases g.height(a)
  {
    if b != a {
      var e :| e in g.Edges(a) && b in Reach(g, e);
      ReachDescends(g, e, b);
    }
  }

  lemma {:induction false} TreeReachesTrees(g: Graph, a: Oid, b: Oid)
    requires g.Valid() && b in Reach(g, a) && (a !in g.objects || g.IsTree(a))
    ensures b !in g.objects || g.IsTree(b)
    decreases g.height(a)
  {
    if b != a {
      var e :| e in g.Edges(a) && b in Reach(g, e);
      TreeReachesTrees(g, e, b);
    }
  }

  // ----- visibility -----

  lemma {:induction false} PeelReach(g: Graph, local: set<Oid>, o: Oid)
    requires g.Valid()
    ensures Peel(g, local, o).Some? ==> Peel(g, local, o).value in Reach(g, o)
    decreases g.height(o)
  {
    if Peel(g, local, o).Some? && g.IsTag(o) {
      var t := g.objects[o].target;
      assert t in g.Edges(o);
      PeelReach(g, local, t);
      ReachTransitive(g, o, t);
    }
  }

  lemma {:induction false} WalkEdgesReach(g: Graph, local: set<Oid>, o: Oid)
    requires g.Valid()
    ensures WalkEdges(g, local, o) <= Reach(g, o)
  {
    if Peel(g, local, o).Some? {
      var c := Peel(g, local, o).value;
      PeelReach(g, local, o);
      ReachTransitive(g, o, c);
      forall p | p in WalkEdges(g, local, o) ensures p in Reach(g, o) {
        assert p in g.Edges(c) && p in Reach(g, p);
      }
    }
  }

  lemma {:induction false} VisibleReach(g: Graph, local: set<Oid>, o: Oid)
    requires g.Valid()
    ensures Visible(g, local, o) <= Reach(g, o)
    decreases g.height(o)
  {
    WalkEdgesReach(g, local, o);
    forall x | x in Visible(g, local, o) ensures x in Reach(g, o) {
      if x != o {
        var e :| e in WalkEdges(g, local, o) && x in Visible(g, local, e);
        VisibleReach(g, local, e);
        ReachTransitive(g, o, e);
      }
    }
  }

  lemma {:induction false} VisibleTransitive(g: Graph, local: set<Oid>, a: Oid, b: Oid)
    requires g.Valid() && b in Visible(g, local, a)
    ensures Visible(g, local, b) <= Visible(g, local, a)
    decreases g.height(a)
  {
    if b != a {
      var e :| e in WalkEdges(g, local, a) && b in Visible(g, local, e);
      VisibleTransitive(g, local, e, b);
    }
  }

  /** A set that holds `o` and is closed under the walk holds all `o` sees. */
  lemma {:induction false} VisibleLeast(g: Graph, local: set<Oid>, o: Oid, s: set<Oid>)
    requires g.Valid() && o in s
    requires forall x :: x in s ==> WalkEdges(g, local, x) <= s
    ensures Visible(g, local, o) <= s
    decreases g.height(o)
  {
    forall x | x in Visible(g, local, o) ensures x in s {
      if x != o {
        var e :| e in WalkEdges(g, local, o) && x in Visible(g, local, e);
        VisibleLeast(g, local, e, s);
      }
    }
  }

  lemma {:induction false} PeelMonotone(g: Graph, local: set<Oid>, more: set<Oid>, o: Oid)
    requires g.Valid() && local <= more
    ensures Peel(g, local, o).Some? ==> Peel(g, more, o) == Peel(g, local, o)
    decreases g.height(o)
  {
    if o in local && g.IsTag(o) {
      assert g.objects[o].target in g.Edges(o);
      PeelMonotone(g, local, more, g.objects[o].target);
    }
  }

  /** Growing the store never changes what a tag-closed store already peeled. */
  lemma {:induction false} PeelStable(g: Graph, local: set<Oid>, more: set<Oid>, o: Oid)
    requires g.Valid() && local <= more && local <= g.objects.Keys
    requires TagClosed(g, local) && o in local
    ensures Peel(g, more, o) == Peel(g, local, o)
    decreases g.height(o)
  {
    if g.IsTag(o) && g.InHistory(g.objects[o].target) {
      assert g.objects[o].target in g.Edges(o);
      PeelStable(g, local, more, g.objects[o].target);
    }
  }

  lemma {:induction false} VisibleMonotone(g: Graph, local: set<Oid>, more: set<Oid>, o: Oid)
    requires g.Valid() && local <= more
    ensures Visible(g, local, o) <= Visible(g, more, o)
    decreases g.height(o)
  {
    PeelMonotone(g, local, more, o);
    forall x | x in Visible(g, local, o) ensures x in Visible(g, more, o) {
      if x != o {
        var e :| e in WalkEdges(g, local, o) && x in Visible(g, local, e);
        VisibleMonotone(g, local, more, e);
      }
    }
  }

  /** A walk that finds nothing missing has the whole commit history: every
      commit and tag reachable from `o` is in the store. */
  lemma {:induction false} NothingMissing(g: Graph, local: set<Oid>, o: Oid, x: Oid)
    requires g.Valid() && TagClosed(g, local)
    requires Visible(g, local, o) <= local
    requires x in Reach(g, o) && g.InHistory(x)
    ensures x in local
    decreases g.height(o)
  {
    if x != o {
      var e :| e in g.Edges(o) && x in Reach(g, e);
      if g.IsTag(o) && g.InHistory(e) {
        NothingMissing(g, local, e, x);
      } else if g.IsCommit(o) && e in g.objects[o].parents {
        assert e in WalkEdges(g, local, o);
        NothingMissing(g, local, e, x);
      } else {
        TreeReachesTrees(g, e, x);
      }
    }
  }
}
