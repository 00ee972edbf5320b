/** waitRead and Until of a connection, as functions of what arrives between the loads of the reader.
    The length of the input and the closing word are loaded one after the other, so bytes can
    come, and the connection can be closed, between any two of them. */
module Waiting {
  import opened LinkChain

  /** What happens before one load: bytes arrive, and the connection may be closed.  If the reader was
      asleep, `err` says whether the closer's error woke it. */
  datatype Turn = Turn(bytes: nat, close: bool, err: bool)

  /** How many bytes have arrived, whether the connection is closed, and the turns to come.  When none is
      left the connection is closed and nothing arrives any more. */
  datatype Feed = Feed(have: nat, closed: bool, turns: seq<Turn>)

  /** One turn passes; no more than `total` bytes are ever sent. */
  function After(f: Feed, total: nat): (g: Feed)
    ensures f.have <= total ==> f.have <= g.have <= total
    ensures |g.turns| <= |f.turns| && (g.closed || |g.turns| < |f.turns|)
  {
    if f.turns == [] then f.(closed := true)
    else
      var t := f.turns[0];
      var now := if f.have + t.bytes < total then f.have + t.bytes else if f.have < total then total else f.have;
      Feed(now, f.closed || t.close, f.turns[1..])
  }

  predicate WokenByError(f: Feed)
  {
    f.turns == [] || f.turns[0].err
  }

  datatype Wait = Wait(ok: bool, feed: Feed)

  /** The loop of waitRead: load the length, load the closing word, sleep. */
  function WaitLoop(f: Feed, n: nat, total: nat): (w: Wait)
    requires f.have <= total
    ensures f.have <= w.feed.have <= total && (w.ok ==> n <= w.feed.have)
    decreases |f.turns|
  {
    var a := After(f, total);
    if n <= a.have then Wait(true, a)
    else
      var b := After(a, total);
      if b.closed then Wait(false, b)
      else
        var c := After(b, total);
        if c.closed && WokenByError(b) then Wait(false, c) else WaitLoop(c, n, total)
  }

  function WaitRead(f: Feed, n: nat, total: nat): (w: Wait)
    requires f.have <= total
    ensures f.have <= w.feed.have <= total && (w.ok ==> n <= w.feed.have)
  {
    var a := After(f, total);
    if n <= a.have then Wait(true, a) else WaitLoop(a, n, total)
  }

  /** The first place from `n` on that holds `c`, or -1. */
  function First(s: seq<byte>, c: byte, n: nat): (i: int)
    requires n <= |s|
    ensures i == -1 || (n <= i < |s| && s[i] == c)
    ensures forall j :: n <= j < (if i == -1 then |s| else i) ==> s[j] != c
    decreases |s| - n
  {
    if n == |s| then -1 else if s[n] == c then n else First(s, c, n + 1)
  }

  /** `take` bytes are returned; the first `seen` of them were searched in vain. */
  datatype Line = Line(ok: bool, take: nat, seen: nat, feed: Feed)

  /** Until, of which the first `n` bytes have been searched.  The line that was found is read by Next,
      which waits for bytes that are there. */
  function UntilLine(all: seq<byte>, f: Feed, n: nat, c: byte): (r: Line)
    requires n <= f.have <= |all|
    ensures n <= r.seen <= r.take <= r.feed.have <= |all|
    decreases |all| - n
  {
    var w := WaitRead(f, n + 1, |all|);
    if !w.ok then
      var g := After(w.feed, |all|);
      Line(false, g.have, n, After(g, |all|))
    else
      var g := After(w.feed, |all|);
      var h := After(g, |all|);
      var i := First(all[..h.have], c, n);
      if i >= 0 then Line(true, i + 1, n, After(After(h, |all|), |all|))
      else UntilLine(all, h, g.have, c)
  }

  /** One round of the loop. */
  lemma UntilStep(all: seq<byte>, f: Feed, n: nat, c: byte)
    requires n <= f.have <= |all|
    ensures var w := WaitRead(f, n + 1, |all|);
            var g := After(w.feed, |all|);
            var h := After(g, |all|);
            && n <= h.have <= |all|
            && (!w.ok ==> UntilLine(all, f, n, c) == Line(false, g.have, n, h))
            && (w.ok ==> var i := First(all[..h.have], c, n);
                  UntilLine(all, f, n, c) == if i >= 0 then Line(true, i + 1, n, After(After(h, |all|), |all|)) else UntilLine(all, h, g.have, c))
  {
    hide After, WaitRead, First;
  }

  // ---------------------------------------------------------------- what a caller may conclude

  /** A line that was found ends with the first delimiter of all that is sent. */
  lemma {:induction false} FoundIsFirst(all: seq<byte>, f: Feed, n: nat, c: byte)
    requires n <= f.have <= |all| && c !in all[..n]
    ensures var r := UntilLine(all, f, n, c);
            && (r.ok ==> 0 < r.take && all[r.take - 1] == c && c !in all[..r.take - 1])
            && (!r.ok ==> c !in all[..r.seen])
    decreases |all| - n
  {
    hide After, WaitRead, First;
    var w := WaitRead(f, n + 1, |all|);
    if w.ok {
      var g := After(w.feed, |all|);
      var h := After(g, |all|);
      var i := First(all[..h.have], c, n);
      SearchedSoFar(all, h.have, c, n);
      if i < 0 {
        assert all[..g.have] == all[..h.have][..g.have];
        FoundIsFirst(all, h, g.have, c);
      }
    }
  }

  lemma SearchedSoFar(all: seq<byte>, have: nat, c: byte, n: nat)
    requires n <= have <= |all| && c !in all[..n]
    ensures var i := First(all[..have], c, n);
            if i < 0 then c !in all[..have] else i < have && all[i] == c && c !in all[..i]
  {
    var i := First(all[..have], c, n);
    var e := if i < 0 then have else i;
    forall j | 0 <= j < e ensures all[..e][j] != c {
      if j < n { assert all[j] == all[..n][j]; } else { assert all[j] == all[..have][j]; }
    }
  }

  /** A delimiter that was there before the call is found, whatever happens meanwhile. */
  lemma ThereIsFound(all: seq<byte>, f: Feed, c: byte)
    requires f.have <= |all| && c in all[..f.have]
    ensures UntilLine(all, f, 0, c).ok
  {
    var w := WaitRead(f, 1, |all|);
    var h := After(After(w.feed, |all|), |all|);
    var k :| 0 <= k < f.have && all[k] == c;
    assert all[..h.have][k] == c;
  }

  const QUIET := Turn(0, false, false)

  /** Nothing happens until the length has been found too small; then everything comes, and the end. */
  function JustTooLate(all: seq<byte>, have: nat): seq<Turn>
  {
    var late := Turn(|all|, true, true);
    if have == 0 then [QUIET, QUIET, late] else [QUIET, QUIET, QUIET, QUIET, QUIET, late]
  }

  /** waitRead fails although `n` bytes are there when it returns. */
  lemma FailsWithEnough(f: Feed, n: nat, total: nat)
    requires f.have < n <= total && |f.turns| == 3 && f.turns[0] == QUIET && f.turns[1] == QUIET
    requires f.turns[2] == Turn(total, true, true)
    ensures var w := WaitRead(f, n, total); !w.ok && w.feed == Feed(total, true, [])
  {
    var a := After(f, total);
    assert a == Feed(f.have, f.closed, f.turns[1..]);
    var b := After(a, total);
    assert b == Feed(f.have, f.closed, f.turns[2..]);
    assert After(b, total) == Feed(total, true, f.turns[3..]);
  }

  /** So a failed Until can return text with the delimiter in it. */
  lemma MissedDelimiter(all: seq<byte>, have: nat, closed: bool, c: byte)
    requires have <= |all| && c !in all[..have] && c in all
    ensures var r := UntilLine(all, Feed(have, closed, JustTooLate(all, have)), 0, c); !r.ok && r.take == |all|
  {
    var turns := JustTooLate(all, have);
    var f := Feed(have, closed, turns);
    if have == 0 {
      FailsWithEnough(f, 1, |all|);
    } else {
      var w := WaitRead(f, 1, |all|);
      assert w == Wait(true, Feed(have, closed, turns[1..]));
      var g := After(w.feed, |all|);
      assert g == Feed(have, closed, turns[2..]);
      var h := After(g, |all|);
      assert h == Feed(have, closed, turns[3..]);
      SearchedSoFar(all, have, c, 0);
      assert h.have < |all| by { assert all[..|all|] == all; }
      FailsWithEnough(h, have + 1, |all|);
    }
  }

  /** The text of a failed Until never holds the delimiter, whatever happens meanwhile, exactly if the
      delimiter was there before the call or is never sent. */
  lemma FailedTextExactlyIf(all: seq<byte>, have: nat, closed: bool, c: byte)
    requires have <= |all|
    ensures (forall turns: seq<Turn> ::
               var r := UntilLine(all, Feed(have, closed, turns), 0, c); !r.ok ==> c !in all[..r.take])
            <==> (c in all[..have] || c !in all)
  {
    if c in all[..have] {
      forall turns: seq<Turn> ensures UntilLine(all, Feed(have, closed, turns), 0, c).ok {
        ThereIsFound(all, Feed(have, closed, turns), c);
      }
    } else if c in all {
      MissedDelimiter(all, have, closed, c);
      assert all[..|all|] == all;
      var r := UntilLine(all, Feed(have, closed, JustTooLate(all, have)), 0, c);
      assert !r.ok && c in all[..r.take];
    }
  }
}
