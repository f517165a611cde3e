/** The tokenizer object: its tables, its trie, and the loops that fill and walk them. */
module RwkvTokenizer {
  import opened Wrappers
  import opened Utf8
  import opened Tries
  import opened Greedy
  import opened Vocabulary

  class RWKVTokenizer {
    var idx2token: seq<Bytes>
    var token2idx: Vocab
    var root: TrieNode?
    ghost var tree: Tree

    constructor ()
      ensures root == null
    {
      idx2token, token2idx, root := [], map[], null;
    }

    // The trie is the vocabulary, and the two tables agree.
    ghost predicate Valid()
      reads this, tree.owner.Keys
    {
      && root != null && tree.Represents(token2idx) && [] in tree.nodes && tree.nodes[[]] == root
      && Agree(token2idx, idx2token)
    }

    // _load_vocab after parsing; without a single line there is no largest id and nothing is set.
    method LoadVocab(lines: seq<Line>) returns (ok: bool)
      modifies this
      ensures ok <==> lines != []
      ensures ok ==> Valid() && fresh(tree.owner.Keys) && token2idx == Entries(lines) && idx2token == Table(lines)
      ensures !ok ==> unchanged(this)
    {
      hide Tree.Represents, Agree, Items, Inverted, Filled, MaxId;
      var items := ReadItems(lines);
      if items == [] {
        return false;
      }
      ItemsNonEmpty(lines);
      var entries := Invert(items);
      var list := Fill(items, MaxId(items) + 1);
      var node, t := BuildTrie(entries);
      TablesAgree(lines);
      idx2token, token2idx, root, tree := list, entries, node, t;
      ok := true;
    }

    // None stands for the error where a byte leads to no node.
    method Encode(text: string) returns (r: Option<seq<int>>)
      requires Valid()
      ensures r == Encoded(token2idx, EncodeAll(text))
    {
      hide Tree.Represents, Front, Begins, Agree, Encoded, EncodeAll;
      var src := EncodeAll(text);
      var tokens: seq<int> := [];
      var idx := 0;
      assert src[0..] == src;
      BeforeBefore(tokens, [], Encoded(token2idx, src));
      while idx < |src|
        invariant idx <= |src|
        invariant Encoded(token2idx, src) == Before(tokens, Encoded(token2idx, src[idx..]))
      {
        ByteLeads(tree, token2idx, src[idx]);
        Round(token2idx, src, idx, tokens);
        var node := root.to[src[idx]];
        if node == null {
          return None;
        }
        var token, end := Match(src, idx, node);
        tokens := tokens + [token as int - 1];
        idx := end;
      }
      assert src[idx..] == [];
      BeforeBefore(tokens, [], Some([]));
      EncodedNothing(token2idx);
      r := Some(tokens);
    }

    // None stands for the error where a negative id points before the table.
    method Decode(ids: seq<int>) returns (r: Option<string>)
      ensures r == Decoded(idx2token, ids)
    {
      var raw: Bytes := [];
      BeforeBefore(raw, [], Join(idx2token, ids));
      assert ids[0..] == ids;
      for i := 0 to |ids|
        invariant Join(idx2token, ids) == Before(raw, Join(idx2token, ids[i..]))
      {
        assert ids[i..][1..] == ids[i + 1..];
        var entry := Entry(idx2token, ids[i]);
        if entry.None? {
          return None;
        }
        BeforeBefore(raw, entry.value, Join(idx2token, ids[i + 1..]));
        raw := raw + entry.value;
      }
      BeforeBefore(raw, [], Some([]));
      r := Some(DecodeReplacing(raw));
    }

    // The inner loop: as deep into the trie as the bytes lead, keeping the last entry passed.
    method Match(src: Bytes, idx: nat, first: TrieNode) returns (token: nat, end: nat)
      requires Valid()
      requires idx < |src| && [src[idx]] in tree.nodes && first == tree.nodes[[src[idx]]]
      ensures idx < end <= |src|
      ensures (token - 1, end - idx) == Front(token2idx, src[idx..])
    {
      hide Tree.Represents, Agree;
      var node := first;
      token := node.token;
      end := idx + 1;
      var j := idx + 1;
      ghost var s := src[idx..];
      assert s[..1] == [src[idx]];
      tree.AtNode(token2idx, s[..1]);
      while j < |src|
        invariant idx < j <= |src|
        invariant s[..j - idx] in tree.nodes && node == tree.nodes[s[..j - idx]]
        invariant (token, end - idx) == Best(token2idx, s, j - idx)
      {
        tree.AtNode(token2idx, s[..j - idx]);
        assert s[..j - idx] + [src[j]] == s[..j - idx + 1];
        var next := node.to[src[j]];
        if next == null {
          NoneLonger(tree, token2idx, s, j - idx);
          return;
        }
        node := next;
        tree.AtNode(token2idx, s[..j - idx + 1]);
        if node.token != 0 {
          token := node.token;
          end := j + 1;
        }
        j := j + 1;
      }
    }
  }

  function Before<T>(done: seq<T>, rest: Option<seq<T>>): Option<seq<T>> {
    match rest
    case None => None
    case Some(more) => Some(done + more)
  }

  lemma BeforeBefore<T>(a: seq<T>, b: seq<T>, rest: Option<seq<T>>)
    ensures Before(a, Before(b, rest)) == Before(a + b, rest)
    ensures Before([], rest) == rest && Before(a, Some([])) == Some(a)
  {
    assert a + [] == a;
    if rest.Some? {
      assert a + (b + rest.value) == a + b + rest.value;
      assert [] + rest.value == rest.value;
    }
  }

  lemma EncodedNothing(vocab: Vocab)
    ensures Encoded(vocab, []) == Some([])
  {
  }

  // One round of the outer loop.
  lemma Round(vocab: Vocab, src: Bytes, idx: nat, tokens: seq<int>)
    requires idx < |src|
    ensures !Begins(vocab, src[idx]) ==> Encoded(vocab, src[idx..]) == None
    ensures Begins(vocab, src[idx]) ==>
      var (id, n) := Front(vocab, src[idx..]);
      Before(tokens, Encoded(vocab, src[idx..])) == Before(tokens + [id], Encoded(vocab, src[idx + n..]))
  {
    var s := src[idx..];
    var (id, n) := Front(vocab, s);
    assert s[n..] == src[idx + n..];
    BeforeBefore(tokens, [id], Encoded(vocab, s[n..]));
  }

  // The mark and the length to remember after the first n bytes.
  function Best(vocab: Vocab, s: Bytes, n: nat): (nat, nat)
    requires n <= |s|
  {
    var l := Longest(vocab, s, n);
    if l == 0 then (0, 1) else (vocab[s[..l]] + 1, l)
  }

  lemma NoneLonger(t: Tree, vocab: Vocab, s: Bytes, n: nat)
    requires t.Represents(vocab) && n < |s| && s[..n + 1] !in t.nodes
    ensures Longest(vocab, s, |s|) == Longest(vocab, s, n)
  {
    hide Tree.Represents, Longest;
    forall m | n < m <= |s|
      ensures s[..m] !in vocab
    {
      assert s[..m][..n + 1] == s[..n + 1];
      t.NothingPast(vocab, s[..m], n + 1);
    }
  }

  // A byte has a node below the root exactly when some entry begins with it.
  lemma ByteLeads(t: Tree, vocab: Vocab, b: Byte)
    requires t.Represents(vocab) && [] in t.nodes
    ensures [b] in t.nodes <==> Begins(vocab, b)
    ensures t.nodes[[]].to.Length == 256
    ensures t.nodes[[]].to[b] == if [b] in t.nodes then t.nodes[[b]] else null
  {
    hide Tree.Represents;
    t.AtNode(vocab, []);
    assert [] + [b] == [b];
    if k :| k in vocab && k != [] && k[0] == b {
      assert k[..1] == [b];
      if [b] !in t.nodes {
        t.NothingPast(vocab, k, 1);
        assert false;
      }
    }
    if [b] in t.nodes {
      t.NodesLead(vocab, [b]);
      var k :| k in vocab && [b] <= k;
      assert k[0] == b;
    }
  }

  method ReadItems(lines: seq<Line>) returns (items: seq<Line>)
    ensures items == Items(lines) && (items == [] <==> lines == [])
  {
    items := [];
    for i := 0 to |lines|
      invariant items == Items(lines[..i]) && (items == [] <==> i == 0)
    {
      assert lines[..i + 1][..i] == lines[..i];
      items := Assign(items, lines[i]);
    }
    assert lines[..|lines|] == lines;
  }

  method Invert(items: seq<Line>) returns (entries: Vocab)
    ensures entries == Inverted(items)
  {
    entries := map[];
    for i := 0 to |items|
      invariant entries == Inverted(items[..i])
    {
      assert items[..i + 1][..i] == items[..i];
      entries := entries[items[i].token := items[i].id];
    }
    assert items[..|items|] == items;
  }

  method Fill(items: seq<Line>, n: nat) returns (list: seq<Bytes>)
    requires forall l :: l in items ==> l.id < n
    ensures list == Filled(items, n)
  {
    list := seq(n, _ => []);
    for i := 0 to |items|
      invariant list == Filled(items[..i], n)
    {
      assert items[..i + 1][..i] == items[..i];
      list := list[items[i].id := items[i].token];
    }
    assert items[..|items|] == items;
  }

  ghost function Bare(root: TrieNode): Tree {
    Tree(map[[] := root], map[root := [], root.to := []])
  }

  lemma BareIsEmpty(root: TrieNode)
    requires root.to.Length == 256 && root.token == 0 && forall b :: 0 <= b < 256 ==> root.to[b] == null
    ensures Bare(root).Represents(map[])
    ensures Bare(root).nodes[[]] == root && Bare(root).owner.Keys == {root, root.to}
  {
  }

  // Every entry is added to an empty trie, in whatever order.
  method BuildTrie(entries: Vocab) returns (root: TrieNode, ghost t: Tree)
    ensures t.Represents(entries) && [] in t.nodes && t.nodes[[]] == root && fresh(t.owner.Keys)
  {
    hide Tree.Represents;
    root := new TrieNode();
    t := Bare(root);
    var todo := entries.Keys;
    ghost var done: Vocab := map[];
    BareIsEmpty(root);
    while todo != {}
      invariant t.Represents(done) && [] in t.nodes && t.nodes[[]] == root && fresh(t.owner.Keys)
      invariant todo <= entries.Keys && done == entries - todo
      decreases |todo|
    {
      var key :| key in todo;
      t := root.Add(key, entries[key], t, done);
      todo := todo - {key};
      done := done[key := entries[key]];
    }
    assert entries - todo == entries;
  }
}
