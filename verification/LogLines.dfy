/** Newline-terminated lines: splitting, joining, and that a splitting is determined by the bytes. */
module LogLines {
  newtype Octet = b: int | 0 <= b < 256

  type Data = seq<Octet>

  const NEWLINE: Octet := 10

  /** The position of the first newline, or -1. */
  function NewlineAt(d: Data): (i: int)
    ensures if i < 0 then i == -1 && NEWLINE !in d else i < |d| && d[i] == NEWLINE && NEWLINE !in d[..i]
  {
    if d == [] then -1
    else if d[0] == NEWLINE then 0
    else
      var i := NewlineAt(d[1..]);
      assert i >= 0 ==> d[..i + 1] == [d[0]] + d[1..][..i];
      if i < 0 then -1 else i + 1
  }

  predicate IsLine(l: Data) {
    |l| > 0 && l[|l| - 1] == NEWLINE && NEWLINE !in l[..|l| - 1]
  }

  predicate AreLines(ls: seq<Data>) {
    forall k :: 0 <= k < |ls| ==> IsLine(ls[k])
  }

  function Lines(d: Data): seq<Data>
    decreases |d|
  {
    var i := NewlineAt(d);
    if i < 0 then [] else [d[..i + 1]] + Lines(d[i + 1..])
  }

  /** What follows the last newline. */
  function Tail(d: Data): Data
    decreases |d|
  {
    var i := NewlineAt(d);
    if i < 0 then d else Tail(d[i + 1..])
  }

  function Join(ls: seq<Data>): Data {
    if ls == [] then [] else ls[0] + Join(ls[1..])
  }

  lemma {:induction false} JoinAppend(a: seq<Data>, b: seq<Data>)
    ensures Join(a + b) == Join(a) + Join(b)
  {
    if a == [] {
      assert a + b == b;
    } else {
      assert (a + b)[1..] == a[1..] + b;
      JoinAppend(a[1..], b);
    }
  }

  /** Splitting loses nothing: the lines, then an unterminated rest. */
  lemma {:induction false} SplitJoins(d: Data)
    ensures Join(Lines(d)) + Tail(d) == d
    ensures AreLines(Lines(d)) && NEWLINE !in Tail(d)
    decreases |d|
  {
    var i := NewlineAt(d);
    if i >= 0 {
      var first, rest := d[..i + 1], d[i + 1..];
      SplitJoins(rest);
      FirstIsLine(d);
      LinesCons(first, Lines(rest));
      Reassociate(first, Join(Lines(rest)), Tail(rest));
    }
  }

  lemma FirstIsLine(d: Data)
    requires NewlineAt(d) >= 0
    ensures var i := NewlineAt(d) + 1;
            IsLine(d[..i]) && d[..i] + d[i..] == d
  {
    var i := NewlineAt(d);
    assert d[..i + 1][..i] == d[..i];
  }

  lemma LinesCons(l: Data, ls: seq<Data>)
    requires IsLine(l) && AreLines(ls)
    ensures AreLines([l] + ls) && Join([l] + ls) == l + Join(ls)
  {
    assert ([l] + ls)[1..] == ls;
  }

  lemma Reassociate<T>(a: seq<T>, b: seq<T>, c: seq<T>)
    ensures a + b + c == a + (b + c)
  {
  }

  /** The first newline of a line and what follows it is the line's own. */
  lemma LineFirst(l: Data, rest: Data)
    requires IsLine(l)
    ensures NewlineAt(l + rest) == |l| - 1 && (l + rest)[..|l|] == l && (l + rest)[|l|..] == rest
  {
    var d, i := l + rest, NewlineAt(l + rest);
    assert d[|l| - 1] == NEWLINE;
    assert forall k :: 0 <= k < |l| - 1 ==> d[k] == l[..|l| - 1][k];
    assert forall k :: 0 <= k < i ==> d[k] == d[..i][k];
  }

  lemma LineOff(l: Data, rest: Data)
    requires IsLine(l)
    ensures Lines(l + rest) == [l] + Lines(rest) && Tail(l + rest) == Tail(rest)
  {
    LineFirst(l, rest);
  }

  lemma ConsAppend<T>(s: seq<T>, t: seq<T>)
    requires s != []
    ensures [s[0]] + (s[1..] + t) == s + t
  {
  }

  lemma JoinFirst(ls: seq<Data>, rest: Data)
    requires ls != []
    ensures Join(ls) + rest == ls[0] + (Join(ls[1..]) + rest)
  {
  }

  /** Whatever lines are taken off the front, the rest splits into the others. */
  lemma {:induction false} LinesAfter(ls: seq<Data>, rest: Data, d: Data)
    requires AreLines(ls) && d == Join(ls) + rest
    ensures Lines(d) == ls + Lines(rest) && Tail(d) == Tail(rest)
  {
    if ls != [] {
      var e := Join(ls[1..]) + rest;
      LinesAfter(ls[1..], rest, e);
      JoinFirst(ls, rest);
      LineOff(ls[0], e);
      ConsAppend(ls, Lines(rest));
    } else {
      assert d == rest;
    }
  }

  /** Lines and an unterminated rest are determined by the bytes they make up. */
  lemma SplitUnique(ls: seq<Data>, rest: Data)
    requires AreLines(ls) && NEWLINE !in rest
    ensures ls == Lines(Join(ls) + rest) && rest == Tail(Join(ls) + rest)
  {
    LinesAfter(ls, rest, Join(ls) + rest);
  }

  /** Splitting in two goes takes the rest of the first along. */
  lemma SplitInTwo(a: Data, b: Data)
    ensures Lines(a + b) == Lines(a) + Lines(Tail(a) + b) && Tail(a + b) == Tail(Tail(a) + b)
  {
    SplitJoins(a);
    assert Join(Lines(a)) + (Tail(a) + b) == a + b;
    LinesAfter(Lines(a), Tail(a) + b, a + b);
  }

  /** A prefix of the lines joins to a prefix of the bytes. */
  lemma JoinPrefix(ls: seq<Data>, n: nat, d: Data)
    requires n <= |ls| && Join(ls) <= d
    ensures Join(ls[..n]) <= d
  {
    assert ls == ls[..n] + ls[n..];
    JoinAppend(ls[..n], ls[n..]);
    PrefixOfPrefix(Join(ls[..n]), Join(ls[n..]), d);
  }

  lemma PrefixOfPrefix(a: Data, b: Data, d: Data)
    requires a + b <= d
    ensures a <= d
  {
    assert forall k :: 0 <= k < |a| ==> a[k] == (a + b)[k];
  }

  /** Joined lines are nothing or end in a newline. */
  predicate Terminated(d: Data) {
    d == [] || d[|d| - 1] == NEWLINE
  }

  lemma {:induction false} JoinTerminated(ls: seq<Data>)
    requires AreLines(ls)
    ensures Terminated(Join(ls))
  {
    if ls != [] {
      JoinTerminated(ls[1..]);
    }
  }
}
