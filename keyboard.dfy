/** Telegram inline keyboards, as the handlers build them: rows of buttons. */
module Keyboard {
  /** An inline keyboard button: its text and its callback data. */
  datatype Button = Button(text: string, data: string)

  /** The buttons of a keyboard, row after row. */
  function Flatten(rows: seq<seq<Button>>): (bs: seq<Button>)
    ensures rows == [] ==> bs == []
  {
    if rows == [] then [] else rows[0] + Flatten(rows[1..])
  }

  /** Flattening distributes over concatenating keyboards. */
  lemma {:induction false} FlattenAppend(a: seq<seq<Button>>, b: seq<seq<Button>>)
    ensures Flatten(a + b) == Flatten(a) + Flatten(b)
  {
    if a != [] {
      assert (a + b)[1..] == a[1..] + b;
      FlattenAppend(a[1..], b);
    } else {
      assert a + b == b;
    }
  }

  /**
   * Buttons laid out two to a row, where a button flagged in `ends`
   * closes its row early.
   */
  function Group(bs: seq<Button>, ends: seq<bool>): seq<seq<Button>>
    requires |ends| == |bs|
    decreases |bs|
  {
    if bs == [] then []
    else if ends[0] || |bs| == 1 then [[bs[0]]] + Group(bs[1..], ends[1..])
    else [[bs[0], bs[1]]] + Group(bs[2..], ends[2..])
  }

  /** One step of a row-building loop: the button joins the open row, which closes when full or when the button is flagged. */
  function Place(rows: seq<seq<Button>>, row: seq<Button>, b: Button, end: bool): (seq<seq<Button>>, seq<Button>)
  {
    var r := row + [b];
    if |r| == 2 || end then (rows + [r], []) else (rows, r)
  }

  /** The loop run over the remaining buttons from `rows` and the open `row`, closing a last open row. */
  function Layout(bs: seq<Button>, ends: seq<bool>, rows: seq<seq<Button>>, row: seq<Button>): seq<seq<Button>>
    requires |ends| == |bs|
    decreases |bs|
  {
    if bs == [] then (if row == [] then rows else rows + [row])
    else
      var next := Place(rows, row, bs[0], ends[0]);
      Layout(bs[1..], ends[1..], next.0, next.1)
  }

  /** Run from no open row, the loop appends `Group` to what it has. */
  lemma {:induction false} LayoutClosed(bs: seq<Button>, ends: seq<bool>, rows: seq<seq<Button>>)
    requires |ends| == |bs|
    ensures Layout(bs, ends, rows, []) == rows + Group(bs, ends)
    decreases |bs|, 0
  {
    if bs == [] {
      assert rows + [] == rows;
    } else {
      var rest, restEnds := bs[1..], ends[1..];
      assert [] + [bs[0]] == [bs[0]];
      if ends[0] {
        LayoutClosed(rest, restEnds, rows + [[bs[0]]]);
        assert rows + [[bs[0]]] + Group(rest, restEnds) == rows + ([[bs[0]]] + Group(rest, restEnds));
      } else {
        LayoutOpen(rest, restEnds, rows, bs[0]);
        assert [bs[0]] + rest == bs && [false] + restEnds == ends;
      }
    }
  }

  /** Run with one unflagged button open, the loop groups that button with the rest. */
  lemma {:induction false} LayoutOpen(bs: seq<Button>, ends: seq<bool>, rows: seq<seq<Button>>, p: Button)
    requires |ends| == |bs|
    ensures Layout(bs, ends, rows, [p]) == rows + Group([p] + bs, [false] + ends)
    decreases |bs|, 1
  {
    var all, allEnds := [p] + bs, [false] + ends;
    if bs == [] {
      assert all == [p] && allEnds == [false];
      assert Group(all, allEnds) == [[p]] + Group([], []);
    } else {
      var rest, restEnds := bs[1..], ends[1..];
      assert [p] + [bs[0]] == [p, bs[0]];
      LayoutClosed(rest, restEnds, rows + [[p, bs[0]]]);
      assert all[0] == p && all[1] == bs[0] && !allEnds[0] && all[2..] == rest && allEnds[2..] == restEnds;
      assert Group(all, allEnds) == [[p, bs[0]]] + Group(rest, restEnds);
      assert rows + [[p, bs[0]]] + Group(rest, restEnds) == rows + ([[p, bs[0]]] + Group(rest, restEnds));
    }
  }

  /** The loop run from nothing builds `Group`. */
  lemma LayoutGroup(bs: seq<Button>, ends: seq<bool>)
    requires |ends| == |bs|
    ensures Layout(bs, ends, [], []) == Group(bs, ends)
  {
    LayoutClosed(bs, ends, []);
    assert [] + Group(bs, ends) == Group(bs, ends);
  }

  /** Grouping keeps every button, in order. */
  lemma {:induction false} GroupFlatten(bs: seq<Button>, ends: seq<bool>)
    requires |ends| == |bs|
    ensures Flatten(Group(bs, ends)) == bs
    decreases |bs|
  {
    if bs != [] {
      var g := Group(bs, ends);
      if ends[0] || |bs| == 1 {
        GroupFlatten(bs[1..], ends[1..]);
        assert g[1..] == Group(bs[1..], ends[1..]);
        assert bs == [bs[0]] + bs[1..];
      } else {
        GroupFlatten(bs[2..], ends[2..]);
        assert g[1..] == Group(bs[2..], ends[2..]);
        assert bs == [bs[0], bs[1]] + bs[2..];
      }
    }
  }

  /** Every row has one or two buttons. */
  lemma {:induction false} GroupSizes(bs: seq<Button>, ends: seq<bool>)
    requires |ends| == |bs|
    ensures forall k :: 0 <= k < |Group(bs, ends)| ==> 1 <= |Group(bs, ends)[k]| <= 2
    decreases |bs|
  {
    if bs != [] {
      var n := if ends[0] || |bs| == 1 then 1 else 2;
      GroupSizes(bs[n..], ends[n..]);
      var g := Group(bs, ends);
      assert g[1..] == Group(bs[n..], ends[n..]);
      forall k | 1 <= k < |g| ensures 1 <= |g[k]| <= 2 {
        assert g[k] == g[1..][k - 1];
      }
    }
  }

  /** A flagged button always ends a row: the keyboard splits into the rows up to it and the rows after it. */
  lemma {:induction false} GroupSplit(bs: seq<Button>, ends: seq<bool>, k: nat)
    requires |ends| == |bs| && k < |bs| && ends[k]
    ensures Group(bs, ends) == Group(bs[..k + 1], ends[..k + 1]) + Group(bs[k + 1..], ends[k + 1..])
    decreases |bs|
  {
    var p, e := bs[..k + 1], ends[..k + 1];
    var n := if ends[0] || |bs| == 1 then 1 else 2;
    var first := if n == 1 then [bs[0]] else [bs[0], bs[1]];
    assert Group(bs, ends) == [first] + Group(bs[n..], ends[n..]);
    assert k + 1 >= n;
    assert p[0] == bs[0] && e[0] == ends[0];
    assert n == 2 ==> p[1] == bs[1];
    assert Group(p, e) == [first] + Group(p[n..], e[n..]);
    if k + 1 == n {
      assert p[n..] == [] && e[n..] == [];
      assert bs[n..] == bs[k + 1..] && ends[n..] == ends[k + 1..];
    } else {
      GroupSplit(bs[n..], ends[n..], k - n);
      assert p[n..] == bs[n..][..k + 1 - n] && e[n..] == ends[n..][..k + 1 - n];
      assert bs[n..][k + 1 - n..] == bs[k + 1..] && ends[n..][k + 1 - n..] == ends[k + 1..];
      var x, y := Group(p[n..], e[n..]), Group(bs[k + 1..], ends[k + 1..]);
      assert [first] + (x + y) == ([first] + x) + y;
    }
  }
}
