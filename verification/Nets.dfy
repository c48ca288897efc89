/** Net connectivity of the netlist tools (fpga/tools/vnet.py, class Flat): a union-find over
    net names with path halving, in which constants stay representatives. */
module Nets {

  /** Net names are numbered; the two constant nets come first. */
  type Key = nat

  predicate IsConst(k: Key) { k < 2 }

  datatype Link = Link(a: Key, b: Key)

  /** A colouring that gives both ends of every link the same colour. */
  ghost predicate Respects(col: Key -> Key, links: set<Link>) {
    forall l :: l in links ==> col(l.a) == col(l.b)
  }

  /** Connected by the links: no colouring that respects them tells the two apart. */
  ghost predicate Connected(links: set<Link>, x: Key, y: Key) {
    forall col: Key -> Key :: Respects(col, links) ==> col(x) == col(y)
  }

  /** The parent pointers form a forest: `root` is where they lead, `rank` grows on the way. */
  datatype Forest = Forest(parent: map<Key, Key>, root: map<Key, Key>, rank: map<Key, nat>, top: nat)

  ghost predicate Node(f: Forest, k: Key) {
    && k in f.parent && k in f.root && k in f.rank && f.rank[k] <= f.top
    && var p := f.parent[k];
       && p in f.parent && p in f.root && p in f.rank && f.root[k] in f.parent
       && f.root[p] == f.root[k] && (p == k <==> f.root[k] == k)
       && (p != k ==> f.rank[k] < f.rank[p])
  }

  ghost predicate Sound(f: Forest) {
    && f.root.Keys == f.parent.Keys && f.rank.Keys == f.parent.Keys
    && forall k {:trigger Node(f, k)} :: k in f.parent ==> Node(f, k)
  }

  /** A name has the colour of its root. */
  ghost predicate Follows(root: map<Key, Key>, col: Key -> Key) {
    forall k :: k in root ==> col(root[k]) == col(k)
  }

  /** The roots say what the links connect. */
  ghost predicate Meets(root: map<Key, Key>, links: set<Link>) {
    && (forall l :: l in links ==> l.a in root && l.b in root && root[l.a] == root[l.b])
    && forall col: Key -> Key :: Respects(col, links) ==> Follows(root, col)
  }

  /** Two names share a representative exactly when the links connect them. */
  lemma SharedIffConnected(root: map<Key, Key>, links: set<Link>, x: Key, y: Key)
    requires Meets(root, links) && x in root && y in root
    ensures root[x] == root[y] <==> Connected(links, x, y)
  {
    var col := (k: Key) => if k in root then root[k] else k;
    assert Respects(col, links);
    if Connected(links, x, y) { assert col(x) == col(y); }
    if root[x] == root[y] {
      forall c: Key -> Key | Respects(c, links) ensures c(x) == c(y) {
        assert Follows(root, c);
      }
    }
  }

  /** What leads to k leads to k itself. */
  lemma LeadsToRoot(f: Forest, j: Key, k: Key)
    requires Sound(f) && j in f.root && f.root[j] == k
    ensures k in f.root && f.root[k] == k
  {
    assert Node(f, j);
    assert Node(f, k);
    if j != k { RootOfRoot(f, j); }
  }

  /** Following the parents, the root is its own root. */
  lemma {:induction false} RootOfRoot(f: Forest, j: Key)
    requires Sound(f) && j in f.root && j in f.parent && j in f.rank
    ensures f.root[j] in f.root && f.root[f.root[j]] == f.root[j]
    decreases f.top - f.rank[j]
  {
    assert Node(f, j);
    if f.parent[j] != j {
      assert Node(f, f.parent[j]);
      RootOfRoot(f, f.parent[j]);
    }
  }

  function Added(f: Forest, k: Key): Forest {
    if k in f.parent then f
    else f.(parent := f.parent[k := k], root := f.root[k := k], rank := f.rank[k := 0])
  }

  lemma AddedSound(f: Forest, k: Key)
    requires Sound(f)
    ensures Sound(Added(f, k))
  {
    var n := Added(f, k);
    forall j | j in n.parent ensures Node(n, j) {
      if j in f.parent { assert Node(f, j); }
    }
  }

  lemma AddedMeets(root: map<Key, Key>, k: Key, links: set<Link>)
    requires Meets(root, links) && k !in root
    ensures Meets(root[k := k], links)
  {
  }

  /** A parent pointer moved up: nothing that matters changes. */
  lemma Shortens(f: Forest, p: Key, q: Key)
    requires Sound(f) && p in f.parent && q in f.parent && p in f.root && q in f.root && p in f.rank && q in f.rank
    requires f.parent[p] != p && f.root[q] == f.root[p] && f.rank[p] < f.rank[q]
    ensures Sound(f.(parent := f.parent[p := q]))
  {
    var n := f.(parent := f.parent[p := q]);
    forall j | j in n.parent ensures Node(n, j) {
      assert Node(f, j);
    }
  }

  /** Two roots joined: `a` now leads to `b`. */
  function Joined(f: Forest, a: Key, b: Key): Forest
    requires a in f.rank && b in f.rank
  {
    var r := if f.rank[b] > f.rank[a] then f.rank[b] else f.rank[a] + 1;
    Forest(f.parent[a := b],
           map k | k in f.root :: if f.root[k] == a then b else f.root[k],
           f.rank[b := r],
           if f.top > r then f.top else r)
  }

  lemma JoinedSound(f: Forest, a: Key, b: Key)
    requires Sound(f) && Node(f, a) && Node(f, b) && a != b && f.root[a] == a && f.root[b] == b
    ensures Sound(Joined(f, a, b))
  {
    var n := Joined(f, a, b);
    forall j | j in n.parent ensures Node(n, j) {
      assert Node(f, j);
    }
  }

  lemma JoinedMeets(root: map<Key, Key>, n: map<Key, Key>, a: Key, b: Key, links: set<Link>, x: Key, y: Key)
    requires Meets(root, links) && x in root && y in root
    requires n == map k | k in root :: if root[k] == a then b else root[k]
    requires (root[x] == a && root[y] == b) || (root[x] == b && root[y] == a)
    ensures Meets(n, links + {Link(x, y)})
  {
    var all := links + {Link(x, y)};
    forall col: Key -> Key | Respects(col, all) ensures Follows(n, col) {
      forall l | l in links ensures col(l.a) == col(l.b) { assert l in all; }
      assert Link(x, y) in all;
      assert Follows(root, col);
    }
  }

  lemma Redundant(root: map<Key, Key>, links: set<Link>, a: Key, b: Key)
    requires Meets(root, links) && a in root && b in root && root[a] == root[b]
    ensures Meets(root, links + {Link(a, b)})
  {
  }

  /** The value noted for k's set is that of a constant in it: of net 0, which is low, or net 1, which is
      high. */
  predicate Valued(root: map<Key, Key>, consts: map<Key, bool>, k: Key)
    requires k in root && root[k] in consts
  {
    if consts[root[k]] then 1 in root && root[1] == root[k] else 0 in root && root[0] == root[k]
  }

  /** A set with a constant in it is represented by a constant, whose value is known. */
  ghost predicate Grounded(root: map<Key, Key>, consts: map<Key, bool>) {
    && (forall k :: k in consts ==> IsConst(k) && k in root)
    && (0 in root ==> IsConst(root[0]) && root[0] in consts && Valued(root, consts, 0))
    && (1 in root ==> IsConst(root[1]) && root[1] in consts && Valued(root, consts, 1))
  }

  /** Naming a net, and noting its own value if it is a constant, keeps that. */
  lemma NamedGrounded(f: Forest, consts: map<Key, bool>, k: Key)
    requires Sound(f) && Grounded(f.root, consts)
    ensures Grounded(Added(f, k).root, if IsConst(k) then consts[k := k == 1] else consts)
  {
    if IsConst(k) && k in f.root {
      if 0 in f.root && f.root[0] == k { LeadsToRoot(f, 0, k); }
      if 1 in f.root && f.root[1] == k { LeadsToRoot(f, 1, k); }
    }
  }

  lemma JoinedGrounded(root: map<Key, Key>, n: map<Key, Key>, a: Key, b: Key, consts: map<Key, bool>)
    requires Grounded(root, consts) && (IsConst(a) ==> IsConst(b))
    requires a in root && root[a] == a && b in root && root[b] == b
    requires n == map k | k in root :: if root[k] == a then b else root[k]
    ensures Grounded(n, if a in consts then consts[b := consts[a]] else consts)
  {
  }

  lemma JoinedAll(f: Forest, ra: Key, rb: Key, links: set<Link>, a: Key, b: Key, consts: map<Key, bool>)
    requires Sound(f) && Node(f, ra) && Node(f, rb) && ra != rb && f.root[ra] == ra && f.root[rb] == rb
    requires Meets(f.root, links) && Grounded(f.root, consts) && (IsConst(ra) ==> IsConst(rb))
    requires a in f.root && b in f.root
    requires (f.root[a] == ra && f.root[b] == rb) || (f.root[a] == rb && f.root[b] == ra)
    ensures var n := Joined(f, ra, rb);
            && Sound(n) && Meets(n.root, links + {Link(a, b)}) && n.root.Keys == f.root.Keys
            && Grounded(n.root, if ra in consts then consts[rb := consts[ra]] else consts)
  {
    JoinedSound(f, ra, rb);
    JoinedMeets(f.root, Joined(f, ra, rb).root, ra, rb, links, a, b);
    JoinedGrounded(f.root, Joined(f, ra, rb).root, ra, rb, consts);
  }

  /** The netlist's nets, as the tool keeps them; `f` is the forest the parent pointers form. */
  class Flat {
    var parent: map<Key, Key>
    var consts: map<Key, bool>
    ghost var f: Forest
    ghost var links: set<Link>

    ghost predicate Valid()
      reads this
    {
      f.parent == parent && Sound(f) && Meets(f.root, links) && Grounded(f.root, consts)
    }

    constructor ()
      ensures Valid() && f.root == map[] && links == {}
    {
      parent, consts, links := map[], map[], {};
      f := Forest(map[], map[], map[], 0);
    }

    /** key: a name is its own set at first; a constant's value is noted. */
    method Name(k: Key)
      requires Valid()
      modifies this
      ensures Valid() && k in parent && links == old(links)
      ensures f.root == if k in old(parent) then old(f.root) else old(f.root)[k := k]
    {
      AddedSound(f, k);
      NamedGrounded(f, consts, k);
      if k !in parent {
        AddedMeets(f.root, k, links);
        parent := parent[k := k];
        f := Added(f, k);
      }
      if IsConst(k) { consts := consts[k := k == 1]; }
    }

    /** find, with path halving: it terminates and changes no name's representative. */
    method Find(k: Key) returns (p: Key)
      requires Valid() && k in parent
      modifies this`parent, this`f
      ensures Valid() && parent.Keys == old(parent.Keys) && f.root == old(f.root) && f.rank == old(f.rank)
      ensures Node(f, k) && Node(f, p) && p == f.root[k] == f.root[p]
    {
      assert Node(f, k);
      p := parent[k];
      while p != parent[p]
        invariant f.parent == parent && Sound(f) && parent.Keys == old(parent.Keys)
        invariant f.root == old(f.root) && f.rank == old(f.rank) && f.top == old(f.top)
        invariant p in parent && Node(f, p) && Node(f, k) && f.root[p] == f.root[k]
        invariant p == k || f.rank[k] < f.rank[p]
        decreases f.top - f.rank[p]
      {
        Halve(p);
        p := parent[p];
        assert Node(f, p) && Node(f, k);
      }
      if p != k {
        Shortens(f, k, p);
      } else {
        assert parent[k := p] == parent;
      }
      parent := parent[k := p];
      f := f.(parent := parent);
      assert Node(f, k) && Node(f, p);
    }

    method Halve(p: Key)
      requires f.parent == parent && Sound(f) && p in parent && Node(f, p) && parent[p] != p
      modifies this`parent, this`f
      ensures f.parent == parent && Sound(f) && parent.Keys == old(parent.Keys)
      ensures f.root == old(f.root) && f.rank == old(f.rank) && f.top == old(f.top)
      ensures Node(f, p) && Node(f, parent[p]) && f.root[parent[p]] == f.root[p] && f.rank[p] < f.rank[parent[p]]
    {
      assert Node(f, parent[p]);
      var q := parent[parent[p]];
      assert Node(f, q);
      Shortens(f, p, q);
      parent := parent[p := q];
      f := f.(parent := parent);
      assert Node(f, p) && Node(f, q);
    }

    /** union: the two sets become one, a constant staying in front. */
    method Union(a: Key, b: Key)
      requires Valid() && a in parent && b in parent
      modifies this
      ensures Valid() && links == old(links) + {Link(a, b)} && parent.Keys == old(parent.Keys)
    {
      var ra := Find(a);
      var rb := Find(b);
      assert Node(f, a) && Node(f, ra);
      if ra == rb {
        Redundant(f.root, links, a, b);
        links := links + {Link(a, b)};
      } else if IsConst(ra) {
        Join(rb, ra, a, b);
      } else {
        Join(ra, rb, a, b);
      }
    }

    method Join(ra: Key, rb: Key, ghost a: Key, ghost b: Key)
      requires Valid() && Node(f, ra) && Node(f, rb) && ra != rb && f.root[ra] == ra && f.root[rb] == rb
      requires a in f.root && b in f.root && (IsConst(ra) ==> IsConst(rb))
      requires (f.root[a] == ra && f.root[b] == rb) || (f.root[a] == rb && f.root[b] == ra)
      modifies this
      ensures Valid() && links == old(links) + {Link(a, b)} && parent.Keys == old(parent.Keys)
    {
      JoinedAll(f, ra, rb, links, a, b, consts);
      f := Joined(f, ra, rb);
      links := links + {Link(a, b)};
      parent := parent[ra := rb];
      if ra in consts { consts := consts[rb := consts[ra]]; }
    }

    /** In every state: same representative exactly when connected; constants represent. */
    lemma Represents(x: Key, y: Key)
      requires Valid() && x in f.root && y in f.root
      ensures f.root[x] == f.root[y] <==> Connected(links, x, y)
      ensures IsConst(x) && Connected(links, x, y) ==> IsConst(f.root[y]) && f.root[y] in consts
    {
      SharedIffConnected(f.root, links, x, y);
    }

    /** The value noted for a net connected to one constant only: low for net 0, high for net 1. */
    lemma Value(y: Key, c: Key)
      requires Valid() && y in f.root && IsConst(c) && c in f.root && Connected(links, c, y)
      requires 1 - c in f.root ==> !Connected(links, 1 - c, y)
      ensures f.root[y] in consts && consts[f.root[y]] == (c == 1)
    {
      SharedIffConnected(f.root, links, c, y);
      if 1 - c in f.root { SharedIffConnected(f.root, links, 1 - c, y); }
      assert Valued(f.root, consts, c);
    }
  }
}
