/** The vocabulary tables built from the lines of the vocabulary file. */
module Vocabulary {
  import opened Wrappers
  import opened Utf8
  import opened Greedy

  // A line of the file: an id and the bytes of its token.
  datatype Line = Line(id: nat, token: Bytes)

  // Assignment in a dict that keeps its order: an id it has keeps its place, a new one goes last.
  function Assign(items: seq<Line>, line: Line): (r: seq<Line>)
    ensures |items| <= |r|
  {
    if items == [] then [line]
    else if items[0].id == line.id then [line] + items[1..]
    else [items[0]] + Assign(items[1..], line)
  }

  // idx2token, in order.
  function Items(lines: seq<Line>): seq<Line> {
    if lines == [] then [] else Assign(Items(lines[..|lines| - 1]), lines[|lines| - 1])
  }

  // token2idx: a later item wins over an earlier one with the same bytes.
  function Inverted(items: seq<Line>): Vocab {
    if items == [] then map[]
    else
      var last := items[|items| - 1];
      Inverted(items[..|items| - 1])[last.token := last.id]
  }

  function MaxId(items: seq<Line>): (m: nat)
    requires items != []
    ensures forall l :: l in items ==> l.id <= m
    ensures exists l :: l in items && l.id == m
  {
    if |items| == 1 then items[0].id
    else
      var m := MaxId(items[1..]);
      if items[0].id > m then items[0].id else m
  }

  // A list of n empty tokens with the items filled in.
  function Filled(items: seq<Line>, n: nat): (t: seq<Bytes>)
    requires forall l :: l in items ==> l.id < n
    ensures |t| == n
  {
    if items == [] then seq(n, _ => [])
    else
      var last := items[|items| - 1];
      Filled(items[..|items| - 1], n)[last.id := last.token]
  }

  function Table(lines: seq<Line>): seq<Bytes>
    requires lines != []
  {
    ItemsNonEmpty(lines);
    Filled(Items(lines), MaxId(Items(lines)) + 1)
  }

  function Entries(lines: seq<Line>): Vocab {
    Inverted(Items(lines))
  }

  // ---------------------------------------------------------------- what the tables hold

  // The token of the last line with an id.
  function LastLine(lines: seq<Line>, id: nat): Option<Bytes> {
    if lines == [] then None
    else if lines[|lines| - 1].id == id then Some(lines[|lines| - 1].token)
    else LastLine(lines[..|lines| - 1], id)
  }

  // Where an id appears first.
  function First(lines: seq<Line>, id: nat): (i: nat)
    ensures i <= |lines|
    ensures i < |lines| ==> lines[i].id == id
    ensures forall j :: 0 <= j < i ==> lines[j].id != id
  {
    if lines == [] || lines[0].id == id then 0 else First(lines[1..], id) + 1
  }

  lemma ItemsNonEmpty(lines: seq<Line>)
    requires lines != []
    ensures Items(lines) != []
  {
    var items := Items(lines[..|lines| - 1]);
  }

  ghost predicate DistinctIds(items: seq<Line>) {
    forall i, j :: 0 <= i < j < |items| ==> items[i].id != items[j].id
  }

  // Where assignment leaves things.
  lemma {:induction false} AssignPlaces(items: seq<Line>, line: Line)
    requires DistinctIds(items)
    ensures var r := Assign(items, line);
      && DistinctIds(r)
      && (|r| == |items| || (|r| == |items| + 1 && r[|items|] == line && forall l :: l in items ==> l.id != line.id))
      && (forall i :: 0 <= i < |items| ==> r[i] == if items[i].id == line.id then line else items[i])
      && (|r| == |items| ==> HasId(items, line.id))
  {
    if items != [] && items[0].id != line.id {
      AssignPlaces(items[1..], line);
      var t := Assign(items[1..], line);
      assert forall i :: 0 <= i < |t| ==> t[i].id != items[0].id by {
        forall i | 0 <= i < |t|
          ensures t[i].id != items[0].id
        {
          assert i < |items[1..]| ==> items[1..][i].id != items[0].id;
        }
      }
    }
  }

  ghost predicate HasId(items: seq<Line>, id: nat) {
    exists l :: l in items && l.id == id
  }

  lemma ItemsGrow(lines: seq<Line>)
    requires lines != []
    ensures Items(lines) == Assign(Items(lines[..|lines| - 1]), lines[|lines| - 1])
    ensures var (rest, last) := (lines[..|lines| - 1], lines[|lines| - 1]);
      forall id :: LastLine(lines, id) == if last.id == id then Some(last.token) else LastLine(rest, id)
  {
  }

  // The items are the ids of the lines, each with its last token.
  lemma {:induction false} ItemsAre(lines: seq<Line>)
    ensures DistinctIds(Items(lines))
    ensures forall i :: 0 <= i < |Items(lines)| ==> LastLine(lines, Items(lines)[i].id) == Some(Items(lines)[i].token)
  {
    hide Assign;
    if lines != [] {
      var n := |lines| - 1;
      ItemsAre(lines[..n]);
      ItemsGrow(lines);
      AssignPlaces(Items(lines[..n]), lines[n]);
    }
  }

  lemma {:induction false} ItemsHaveAll(lines: seq<Line>, id: nat)
    requires LastLine(lines, id).Some?
    ensures exists i :: 0 <= i < |Items(lines)| && Items(lines)[i] == Line(id, LastLine(lines, id).value)
  {
    hide Assign;
    var n := |lines| - 1;
    ItemsAre(lines[..n]);
    ItemsGrow(lines);
    var items := Items(lines[..n]);
    AssignPlaces(items, lines[n]);
    if lines[n].id != id {
      ItemsHaveAll(lines[..n], id);
      var i :| 0 <= i < |items| && items[i] == Line(id, LastLine(lines[..n], id).value);
      assert Items(lines)[i] == items[i];
    } else if |Items(lines)| == |items| {
      var l :| l in items && l.id == id;
      var i :| 0 <= i < |items| && items[i] == l;
      assert Items(lines)[i] == lines[n];
    } else {
      assert Items(lines)[|items|] == lines[n];
    }
  }

  lemma {:induction false} FirstOfMore(lines: seq<Line>, more: Line, id: nat)
    ensures First(lines + [more], id) == if First(lines, id) < |lines| then First(lines, id) else if more.id == id then |lines| else |lines| + 1
  {
    if lines != [] && lines[0].id != id {
      assert (lines + [more])[1..] == lines[1..] + [more];
      FirstOfMore(lines[1..], more, id);
    } else if lines == [] {
      assert (lines + [more])[1..] == [];
    }
  }

  // The items stand in the order in which their ids first appear.
  lemma {:induction false} ItemsInOrder(lines: seq<Line>, i: nat, j: nat)
    requires i < j < |Items(lines)|
    ensures First(lines, Items(lines)[i].id) < First(lines, Items(lines)[j].id)
  {
    hide Assign, First;
    var n := |lines| - 1;
    var items := Items(lines[..n]);
    ItemsAre(lines[..n]);
    ItemsGrow(lines);
    AssignPlaces(items, lines[n]);
    assert lines == lines[..n] + [lines[n]];
    FirstOfItem(lines, i);
    if j < |items| {
      FirstOfItem(lines, j);
      ItemsInOrder(lines[..n], i, j);
    } else {
      NotBefore(lines[..n], lines[n].id);
      FirstOfMore(lines[..n], lines[n], lines[n].id);
    }
  }

  lemma FirstOfItem(lines: seq<Line>, i: nat)
    requires lines != [] && i < |Items(lines[..|lines| - 1])|
    ensures var n := |lines| - 1; var id := Items(lines[..n])[i].id;
      First(lines, id) == First(lines[..n], id) < n
  {
    var n := |lines| - 1;
    ItemsAre(lines[..n]);
    HasLine(lines[..n], Items(lines[..n])[i].id);
    FirstOfMore(lines[..n], lines[n], Items(lines[..n])[i].id);
    assert lines == lines[..n] + [lines[n]];
  }

  lemma NotBefore(lines: seq<Line>, id: nat)
    requires !HasId(Items(lines), id)
    ensures First(lines, id) == |lines|
  {
    HasLine(lines, id);
    if LastLine(lines, id).Some? {
      ItemsHaveAll(lines, id);
    }
  }

  lemma {:induction false} HasLine(lines: seq<Line>, id: nat)
    ensures LastLine(lines, id).Some? <==> First(lines, id) < |lines|
  {
    if lines != [] {
      var n := |lines| - 1;
      HasLine(lines[..n], id);
      FirstOfMore(lines[..n], lines[n], id);
      assert lines == lines[..n] + [lines[n]];
    }
  }

  // The inverted table holds every token, under the id of the last item that has it.
  lemma {:induction false} InvertedIs(items: seq<Line>)
    ensures forall l :: l in items ==> l.token in Inverted(items)
    ensures forall t :: t in Inverted(items) ==> exists j :: LastItem(items, t, j) && items[j].id == Inverted(items)[t]
  {
    if items != [] {
      var n := |items| - 1;
      InvertedIs(items[..n]);
      forall t | t in Inverted(items)
        ensures exists j :: LastItem(items, t, j) && items[j].id == Inverted(items)[t]
      {
        if t == items[n].token {
          assert LastItem(items, t, n);
        } else {
          var j :| LastItem(items[..n], t, j) && items[..n][j].id == Inverted(items[..n])[t];
          assert LastItem(items, t, j);
        }
      }
    }
  }

  ghost predicate LastItem(items: seq<Line>, t: Bytes, j: int) {
    0 <= j < |items| && items[j].token == t && forall i :: j < i < |items| ==> items[i].token != t
  }

  lemma {:induction false} FilledIs(items: seq<Line>, n: nat)
    requires DistinctIds(items) && forall l :: l in items ==> l.id < n
    ensures forall j :: 0 <= j < |items| ==> Filled(items, n)[items[j].id] == items[j].token
    ensures forall id :: 0 <= id < n && (forall l :: l in items ==> l.id != id) ==> Filled(items, n)[id] == []
  {
    if items != [] {
      FilledIs(items[..|items| - 1], n);
    }
  }

  // idx2token: the last token given for each id, empty for the ids between that have none.
  lemma {:induction false} TableHoldsLastLines(lines: seq<Line>, id: nat)
    requires lines != []
    ensures LastLine(lines, id).Some? ==> id < |Table(lines)|
    ensures id < |Table(lines)| ==>
      Table(lines)[id] == match LastLine(lines, id) case None => [] case Some(t) => t
  {
    hide Filled, Items, LastLine;
    ItemsNonEmpty(lines);
    ItemsAre(lines);
    var items := Items(lines);
    FilledIs(items, MaxId(items) + 1);
    if LastLine(lines, id).Some? {
      ItemsHaveAll(lines, id);
    } else {
      assert forall l :: l in items ==> l.id != id;
    }
  }

  // token2idx: exactly the tokens some id ends up with,
  lemma EntriesAreTheTokens(lines: seq<Line>, t: Bytes)
    ensures t in Entries(lines) <==> IsSomeToken(lines, t)
    ensures t in Entries(lines) ==> LastLine(lines, Entries(lines)[t]) == Some(t)
  {
    hide Inverted, Items, LastLine;
    var items := Items(lines);
    ItemsAre(lines);
    InvertedIs(items);
    if id :| LastLine(lines, id) == Some(t) {
      ItemsHaveAll(lines, id);
    }
    if t in Entries(lines) {
      var j :| LastItem(items, t, j) && items[j].id == Entries(lines)[t];
    }
  }

  // and of several ids with the same token, the one that appears last for the first time.
  lemma LatestIdWins(lines: seq<Line>, t: Bytes, id: nat)
    requires LastLine(lines, id) == Some(t)
    ensures t in Entries(lines) && First(lines, id) <= First(lines, Entries(lines)[t])
  {
    hide Inverted, Items, LastLine, First;
    var items := Items(lines);
    EntriesAreTheTokens(lines, t);
    InvertedIs(items);
    ItemsHaveAll(lines, id);
    var i :| 0 <= i < |items| && items[i] == Line(id, t);
    var j :| LastItem(items, t, j) && items[j].id == Entries(lines)[t];
    if i != j {
      assert i < j;
      ItemsInOrder(lines, i, j);
    }
  }

  // Whatever the file says, the two tables agree.
  lemma TablesAgree(lines: seq<Line>)
    requires lines != []
    ensures Agree(Entries(lines), Table(lines))
  {
    forall t | t in Entries(lines)
      ensures Entries(lines)[t] < |Table(lines)| && Table(lines)[Entries(lines)[t]] == t
    {
      EntriesAreTheTokens(lines, t);
      TableHoldsLastLines(lines, Entries(lines)[t]);
    }
  }

  ghost predicate IsSomeToken(lines: seq<Line>, t: Bytes) {
    exists id :: LastLine(lines, id) == Some(t)
  }

  // decode(encode(text)) == text for every vocabulary file in which each single byte is some id's token.
  lemma {:induction false} FileRoundTrip(lines: seq<Line>, text: string)
    requires lines != []
    requires forall b: Byte :: IsSomeToken(lines, [b])
    ensures var ids := Encoded(Entries(lines), EncodeAll(text)); ids.Some? && Decoded(Table(lines), ids.value) == Some(text)
  {
    forall b: Byte
      ensures [b] in Entries(lines)
    {
      assert IsSomeToken(lines, [b]);
      EntriesAreTheTokens(lines, [b]);
    }
    TablesAgree(lines);
    TextRoundTrip(Entries(lines), Table(lines), text);
  }
}
