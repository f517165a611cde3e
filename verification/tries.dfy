/** The byte trie of the tokenizer: nodes with 256 children each, linked and written in place. */
module Tries {
  import opened Utf8

  // The children of a node by byte, and one more than the id of the entry that ends here (0 for none).
  class TrieNode {
    const to: array<TrieNode?>
    var token: nat

    constructor ()
      ensures fresh(to) && to.Length == 256 && token == 0
      ensures forall b :: 0 <= b < 256 ==> to[b] == null
    {
      to := new TrieNode?[256](_ => null);
      token := 0;
    }

    // Walk down along the key, making the nodes that are missing, and mark the last one.
    method Add(key: Bytes, val: nat, ghost t: Tree, ghost vocab: map<Bytes, nat>) returns (ghost grown: Tree)
      requires t.Represents(vocab) && t.nodes[[]] == this
      modifies t.owner.Keys
      ensures grown.Represents(vocab[key := val]) && [] in grown.nodes && grown.nodes[[]] == this
      ensures t.Within(grown) && fresh(grown.owner.Keys - t.owner.Keys)
    {
      hide Tree.Linked, LeadsTo, Tree.Marks;
      grown := t;
      var node := this;
      var i := 0;
      assert key[..0] == [] && grown.Along(vocab, key);
      while i < |key|
        invariant 0 <= i <= |key|
        invariant grown.Along(vocab, key) && t.Within(grown) && fresh(grown.owner.Keys - t.owner.Keys)
        invariant key[..i] in grown.nodes && grown.nodes[key[..i]] == node
      {
        assert key[..i] + [key[i]] == key[..i + 1];
        node, grown := node.Descend(key[i], key[..i], grown, vocab, key);
        i := i + 1;
      }
      assert key[..i] == key;
      node.Mark(val, key, grown, vocab);
    }

    // The child by a byte, made if it is missing.
    method Descend(b: Byte, ghost p: Bytes, ghost t: Tree, ghost vocab: map<Bytes, nat>, ghost key: Bytes)
      returns (next: TrieNode, ghost grown: Tree)
      requires p in t.nodes && t.nodes[p] == this
      requires t.Along(vocab, key) && p + [b] <= key
      modifies to
      ensures grown.Along(vocab, key) && t.Within(grown) && fresh(grown.owner.Keys - t.owner.Keys)
      ensures grown.nodes == t.nodes[p + [b] := next]
    {
      hide LeadsTo, Tree.Linked;
      var found := to[b];
      if found == null {
        next, grown := Attach(b, p, t);
      } else {
        t.LinkIsNode(p, b);
        next := found;
        grown := t;
      }
    }

    method Attach(b: Byte, ghost p: Bytes, ghost t: Tree) returns (next: TrieNode, ghost grown: Tree)
      requires p in t.nodes && t.nodes[p] == this
      requires t.Apart() && t.Linked() && to[b] == null
      modifies to
      ensures grown.Apart() && grown.Linked() && t.Within(grown) && fresh(grown.owner.Keys - t.owner.Keys)
      ensures p + [b] !in t.nodes && grown.nodes == t.nodes[p + [b] := next] && next.token == 0
    {
      assert p + [b] !in t.nodes by { assert t.ChildrenOf(p); }
      next := new TrieNode();
      to[b] := next;
      grown := t.With(p + [b], next);
      t.WithApart(p + [b], next);
      Snocs(p, b);
      forall q | q in grown.nodes
        ensures grown.ChildrenOf(q)
      {
        assert q in t.nodes ==> old(t.ChildrenOf(q));
      }
    }

    // Mark the node of a key with its id.
    method Mark(val: nat, ghost key: Bytes, ghost t: Tree, ghost vocab: map<Bytes, nat>)
      requires t.Along(vocab, key) && key in t.nodes && t.nodes[key] == this
      modifies `token
      ensures t.Represents(vocab[key := val])
    {
      hide LeadsTo;
      token := val + 1;
      assert t.Linked() by {
        forall p | p in t.nodes
          ensures t.ChildrenOf(p)
        {
          assert old(t.ChildrenOf(p));
        }
      }
      forall p | p in t.nodes
        ensures LeadsTo(p, vocab[key := val])
      {
        LeadsToMore(p, vocab, key, val);
      }
    }
  }

  // Some entry starts with these bytes, as the root's empty string always does.
  ghost predicate LeadsTo(p: Bytes, vocab: map<Bytes, nat>) {
    p == [] || exists k :: k in vocab && p <= k
  }

  lemma LeadsToMore(p: Bytes, vocab: map<Bytes, nat>, key: Bytes, val: nat)
    requires LeadsTo(p, vocab) || p <= key
    ensures LeadsTo(p, vocab[key := val])
  {
    if p <= key {
      assert key in vocab[key := val];
    } else if p != [] {
      var k :| k in vocab && p <= k;
      assert k in vocab[key := val];
    }
  }

  lemma Snocs(p: Bytes, b: Byte)
    ensures forall q: Bytes, c: Byte :: q + [c] == p + [b] ==> q == p && c == b
  {
    forall q: Bytes, c: Byte | q + [c] == p + [b]
      ensures q == p && c == b
    {
      assert (q + [c])[..|q|] == q && (p + [b])[..|p|] == p;
    }
  }

  // The nodes of a tree by the bytes that lead to them, and the objects they consist of by the same.
  datatype Tree = Tree(nodes: map<Bytes, TrieNode>, owner: map<object, Bytes>) {
    // No two nodes share anything.
    ghost predicate Apart() {
      && [] in nodes
      && forall p :: p in nodes ==>
          && nodes[p] in owner && owner[nodes[p]] == p
          && nodes[p].to in owner && owner[nodes[p].to] == p
          && nodes[p].to.Length == 256
    }

    ghost function With(p: Bytes, next: TrieNode): Tree {
      Tree(nodes[p := next], owner[next := p][next.to := p])
    }

    lemma WithApart(p: Bytes, next: TrieNode)
      requires Apart() && p !in nodes && next !in owner && next.to !in owner && next.to.Length == 256
      ensures With(p, next).Apart()
    {
    }

    // The children of a node are the nodes one byte further.
    ghost predicate ChildrenOf(p: Bytes)
      requires Apart() && p in nodes
      reads owner.Keys
    {
      forall b: Byte :: nodes[p].to[b] == if p + [b] in nodes then nodes[p + [b]] else null
    }

    // One byte leads from a parent to each node but the root, and nowhere else.
    ghost predicate Linked()
      requires Apart()
      reads owner.Keys
    {
      && (forall p: Bytes, b: Byte :: p + [b] in nodes ==> p in nodes)
      && (forall p :: p in nodes ==> ChildrenOf(p))
    }

    lemma LinkIsNode(p: Bytes, b: Byte)
      requires Apart() && Linked() && p in nodes && nodes[p].to[b] != null
      ensures nodes == nodes[p + [b] := nodes[p].to[b]]
    {
      assert ChildrenOf(p);
    }

    // What leads further leads here first.
    lemma {:induction false} BeginningIsNode(q: Bytes, n: nat)
      requires Apart() && Linked() && q in nodes && n <= |q|
      ensures q[..n] in nodes
      decreases |q|
    {
      if n == |q| {
        assert q[..n] == q;
      } else {
        assert q == q[..|q| - 1] + [q[|q| - 1]];
        BeginningIsNode(q[..|q| - 1], n);
        assert q[..|q| - 1][..n] == q[..n];
      }
    }

    // Every entry has a node, marked with its id; no other node is marked.
    ghost predicate Marks(vocab: map<Bytes, nat>)
      requires Apart()
      reads owner.Keys
    {
      && (forall k :: k in vocab ==> k in nodes)
      && (forall p :: p in nodes ==> nodes[p].token == if p in vocab then vocab[p] + 1 else 0)
    }

    // The tree while the key is being added.
    ghost predicate Along(vocab: map<Bytes, nat>, key: Bytes)
      reads owner.Keys
    {
      Apart() && Linked() && Marks(vocab) && forall p :: p in nodes ==> LeadsTo(p, vocab) || p <= key
    }

    // The tree is exactly the vocabulary: its marks, and a node for every beginning of an entry.
    ghost predicate Represents(vocab: map<Bytes, nat>)
      reads owner.Keys
    {
      Apart() && Linked() && Marks(vocab) && forall p :: p in nodes ==> LeadsTo(p, vocab)
    }

    // What a walk sees at a node.
    lemma AtNode(vocab: map<Bytes, nat>, p: Bytes)
      requires Represents(vocab) && p in nodes
      ensures nodes[p].to.Length == 256 && nodes[p].token == if p in vocab then vocab[p] + 1 else 0
      ensures forall b: Byte :: nodes[p].to[b] == if p + [b] in nodes then nodes[p + [b]] else null
    {
      assert ChildrenOf(p);
    }

    lemma NodesLead(vocab: map<Bytes, nat>, p: Bytes)
      requires Represents(vocab) && p in nodes
      ensures LeadsTo(p, vocab)
    {
    }

    // Where the walk stops no entry goes on.
    lemma NothingPast(vocab: map<Bytes, nat>, q: Bytes, n: nat)
      requires Represents(vocab) && n <= |q| && q[..n] !in nodes
      ensures q !in vocab
    {
      if q in vocab {
        BeginningIsNode(q, n);
        assert false;
      }
    }

    ghost predicate Within(t: Tree) {
      && (forall p :: p in nodes ==> p in t.nodes && t.nodes[p] == nodes[p])
      && owner.Keys <= t.owner.Keys
    }
  }
}
