/**
  The host side of the log: on every connection the guest's log is received from its first entry, and a
  counter kept across connections decides which of the received entries are new.
 */
module HostLog {
  /** `handed` is what has been given to `writeLog`, `stored` what it managed to write. */
  datatype Host<T> = Host(count: nat, handed: seq<T>, stored: seq<T>)

  /** One received entry, the `position`-th of its connection. */
  function Received<T>(h: Host<T>, position: nat, entry: T, writeOk: bool): Host<T> {
    if position <= h.count then h
    else Host(h.count + 1, h.handed + [entry], h.stored + if writeOk then [entry] else [])
  }

  /** What a whole connection leaves behind. */
  function Connected<T>(h: Host<T>, delivered: seq<T>, writes: nat -> bool): Host<T>
    decreases |delivered|
  {
    if delivered == [] then h
    else
      var n := |delivered| - 1;
      Received(Connected(h, delivered[..n], writes), n + 1, delivered[n], writes(n))
  }

  /** One connection: the entries received on it, and for each position whether writing it succeeds. */
  datatype Connection<T> = Connection(delivered: seq<T>, writes: nat -> bool)

  function Replay<T>(h: Host<T>, connections: seq<Connection<T>>): Host<T>
    decreases |connections|
  {
    if connections == [] then h
    else
      var n := |connections| - 1;
      Connected(Replay(h, connections[..n]), connections[n].delivered, connections[n].writes)
  }

  /** The entries from `from` on whose writing succeeds. */
  function Kept<T>(delivered: seq<T>, writes: nat -> bool, from: nat): seq<T>
    decreases |delivered|
  {
    if |delivered| <= from then []
    else
      var n := |delivered| - 1;
      Kept(delivered[..n], writes, from) + if writes(n) then [delivered[n]] else []
  }

  /** A connection hands on exactly what it delivers past the counter, whatever failed to be written. */
  lemma {:induction false} ConnectionAdds<T>(h: Host<T>, delivered: seq<T>, writes: nat -> bool)
    ensures var u := Connected(h, delivered, writes);
            && u.count == (if |delivered| > h.count then |delivered| else h.count)
            && u.handed == h.handed + (if |delivered| > h.count then delivered[h.count..] else [])
    decreases |delivered|
  {
    if delivered != [] {
      var n := |delivered| - 1;
      ConnectionAdds(h, delivered[..n], writes);
      if n >= h.count { assert delivered[h.count..] == delivered[..n][h.count..] + [delivered[n]]; }
    }
  }

  /** It stores those of them whose writing succeeds. The others are counted all the same, so no later
      connection offers them again. */
  lemma {:induction false} ConnectionStores<T>(h: Host<T>, delivered: seq<T>, writes: nat -> bool)
    ensures Connected(h, delivered, writes).stored == h.stored + Kept(delivered, writes, h.count)
    decreases |delivered|
  {
    if delivered != [] {
      var n := |delivered| - 1;
      ConnectionStores(h, delivered[..n], writes);
      ConnectionAdds(h, delivered[..n], writes);
    }
  }

  lemma {:induction false} KeptAll<T>(delivered: seq<T>, writes: nat -> bool, from: nat)
    requires from <= |delivered|
    ensures (forall k: nat :: from <= k < |delivered| ==> writes(k)) ==>
              Kept(delivered, writes, from) == delivered[from..]
    ensures (forall k: nat :: from <= k < |delivered| ==> !writes(k)) ==> Kept(delivered, writes, from) == []
    decreases |delivered|
  {
    if from < |delivered| {
      var n := |delivered| - 1;
      KeptAll(delivered[..n], writes, from);
      assert delivered[from..] == delivered[..n][from..] + [delivered[n]];
    }
  }

  /** If everything can be written, everything that is handed on is stored, and if nothing can, nothing is. */
  lemma StoresAllOrNothing<T>(h: Host<T>, delivered: seq<T>, writes: nat -> bool)
    ensures var u := Connected(h, delivered, writes);
            && ((forall k: nat :: h.count <= k < |delivered| ==> writes(k)) ==>
                u.stored == h.stored + if |delivered| > h.count then delivered[h.count..] else [])
            && ((forall k: nat :: h.count <= k < |delivered| ==> !writes(k)) ==> u.stored == h.stored)
  {
    ConnectionStores(h, delivered, writes);
    if h.count <= |delivered| { KeptAll(delivered, writes, h.count); }
  }

  function NewHost<T>(): Host<T> {
    Host(0, [], [])
  }

  /** The length of the longest connection. */
  function Longest<T>(connections: seq<Connection<T>>): nat {
    if connections == [] then 0
    else
      var n := |connections| - 1;
      var before := Longest(connections[..n]);
      if |connections[n].delivered| > before then |connections[n].delivered| else before
  }

  lemma {:induction false} CountIsLongest<T>(connections: seq<Connection<T>>)
    ensures var h := Replay(NewHost(), connections);
            h.count == |h.handed| == Longest(connections)
  {
    if connections != [] {
      var n := |connections| - 1;
      CountIsLongest(connections[..n]);
      ConnectionAdds(Replay(NewHost(), connections[..n]), connections[n].delivered, connections[n].writes);
    }
  }

  ghost predicate DeliverPrefixes<T>(connections: seq<Connection<T>>, log: seq<T>) {
    forall i :: 0 <= i < |connections| ==> connections[i].delivered <= log
  }

  /** If each connection delivers some prefix of one log, then after any number of connections exactly the
      log's first entries have been handed on, each once and in order, as many as the longest prefix has. */
  lemma {:induction false} ExactlyOnce<T>(connections: seq<Connection<T>>, log: seq<T>)
    requires DeliverPrefixes(connections, log)
    ensures var h := Replay(NewHost(), connections);
            h.count == Longest(connections) <= |log| && h.handed == log[..h.count]
  {
    CountIsLongest(connections);
    if connections != [] {
      var n := |connections| - 1;
      var init, last := connections[..n], connections[n];
      var before := Replay(NewHost(), init);
      ExactlyOnce(init, log);
      ConnectionAdds(before, last.delivered, last.writes);
      if |last.delivered| > before.count {
        assert last.delivered == log[..|last.delivered|];
        assert log[..before.count] + last.delivered[before.count..] == log[..|last.delivered|];
      }
    }
  }

  /** Where a connection delivers anything new, it agrees with the log there. */
  ghost predicate AgreesPast<T>(delivered: seq<T>, log: seq<T>, count: nat) {
    forall k :: count <= k < |delivered| ==> k < |log| && delivered[k] == log[k]
  }

  /** For a connection that may deliver anything at all: the record stays exact exactly when what lies past
      the counter agrees with the log; what lies before it is never looked at. */
  lemma ExactIff<T>(h: Host<T>, delivered: seq<T>, writes: nat -> bool, log: seq<T>)
    requires h.count == |h.handed| <= |log| && h.handed == log[..h.count]
    ensures var u := Connected(h, delivered, writes);
            (u.count <= |log| && u.handed == log[..u.count]) <==> AgreesPast(delivered, log, h.count)
  {
    var u := Connected(h, delivered, writes);
    ConnectionAdds(h, delivered, writes);
    if |delivered| > h.count {
      assert forall k :: h.count <= k < |delivered| ==> u.handed[k] == delivered[k];
      if u.count <= |log| && u.handed == log[..u.count] {
        assert forall k :: h.count <= k < |delivered| ==> u.handed[k] == log[k];
      }
      if AgreesPast(delivered, log, h.count) {
        assert delivered[|delivered| - 1] == log[|delivered| - 1];
        assert u.handed == log[..u.count];
      }
    } else {
      assert u.handed == h.handed;
    }
  }

  /** From any record on, connections that deliver prefixes of one log hand on its entries past the counter. */
  lemma {:induction false} ReplayAdds<T>(h: Host<T>, connections: seq<Connection<T>>, log: seq<T>)
    requires DeliverPrefixes(connections, log) && h.count <= |log|
    ensures var u := Replay(h, connections);
            h.count <= u.count <= |log| && u.handed == h.handed + log[h.count..u.count]
    decreases |connections|
  {
    if connections != [] {
      var n := |connections| - 1;
      var init, last := connections[..n], connections[n];
      ReplayAdds(h, init, log);
      var before := Replay(h, init);
      ConnectionAdds(before, last.delivered, last.writes);
      if |last.delivered| > before.count { SlicesJoin(h.handed, log, last.delivered, h.count, before.count); }
    }
  }

  lemma SlicesJoin<T>(s: seq<T>, log: seq<T>, delivered: seq<T>, i: nat, j: nat)
    requires delivered <= log && i <= j <= |delivered|
    ensures s + log[i..j] + delivered[j..] == s + log[i..|delivered|]
  {
  }

  /** An entry that a connection skips is lost for good: the next full connection records the last entry once
      more in its stead, and whatever later connections deliver of the log as it grows comes after that. The
      record is right if and only if all entries from the skipped one on are alike, so for certain when the
      last one was skipped. */
  lemma SkippedForEver<T>(log: seq<T>, hole: nat, writes: nat -> bool, more: seq<Connection<T>>, grown: seq<T>)
    requires hole < |log| && log <= grown && DeliverPrefixes(more, grown)
    ensures var first := Connection(log[..hole] + log[hole + 1..], writes);
            var h := Replay(NewHost(), [first, Connection(log, writes)]);
            var u := Replay(h, more);
            && h.count == |log| && h.handed == log[..hole] + log[hole + 1..] + [log[|log| - 1]]
            && |log| <= u.count <= |grown| && u.handed == h.handed + grown[|log|..u.count]
            && (u.handed == grown[..u.count] <==> forall k :: hole <= k < |log| - 1 ==> log[k] == log[k + 1])
  {
    var rest := log[..hole] + log[hole + 1..];
    var h := Replay(NewHost<T>(), [Connection(rest, writes), Connection(log, writes)]);
    OneMissing(log, rest, writes);
    ReplayAdds(h, more, grown);
    ShiftedIff(log, hole, grown, Replay(h, more).count);
  }

  lemma OneMissing<T>(log: seq<T>, rest: seq<T>, writes: nat -> bool)
    requires |log| == |rest| + 1
    ensures var h := Replay(NewHost(), [Connection(rest, writes), Connection(log, writes)]);
            h.count == |log| && h.handed == rest + [log[|log| - 1]]
  {
    ReplayTwo(Connection(rest, writes), Connection(log, writes));
    ConnectionAdds(NewHost<T>(), rest, writes);
    ConnectionAdds(Connected(NewHost<T>(), rest, writes), log, writes);
    assert log[|rest|..] == [log[|rest|]];
  }

  lemma ShiftedIff<T>(log: seq<T>, hole: nat, grown: seq<T>, n: nat)
    requires hole < |log| <= n <= |grown| && log <= grown
    ensures log[..hole] + log[hole + 1..] + [log[|log| - 1]] + grown[|log|..n] == grown[..n] <==>
      forall k :: hole <= k < |log| - 1 ==> log[k] == log[k + 1]
  {
    var s := log[..hole] + log[hole + 1..] + [log[|log| - 1]];
    assert forall k :: hole <= k < |log| - 1 ==> s[k] == log[k + 1];
    assert s[|log| - 1] == log[|log| - 1] && |s| == |log|;
    var t := s + grown[|log|..n];
    assert forall k :: 0 <= k < |log| ==> t[k] == s[k] && grown[k] == log[k];
    if t == grown[..n] {
      forall k | hole <= k < |log| - 1 ensures log[k] == log[k + 1] {
        assert t[k] == grown[..n][k] == grown[k];
      }
    }
    if forall k :: hole <= k < |log| - 1 ==> log[k] == log[k + 1] {
      assert forall k :: 0 <= k < |log| ==> s[k] == log[k];
      assert t == grown[..n];
    }
  }

  lemma ReplayTwo<T>(c: Connection<T>, d: Connection<T>)
    ensures Replay(NewHost(), [c, d]) == Connected(Connected(NewHost(), c.delivered, c.writes), d.delivered, d.writes)
  {
    assert [c, d][..1] == [c] && [c][..0] == [];
    assert Replay(NewHost(), [c]) == Connected(Replay(NewHost(), [c][..0]), c.delivered, c.writes);
  }

  /** The listener: the counter outlives its connections. */
  class LogManager<T> {
    var containerLogSeq: nat
    var stored: seq<T>
    ghost var handed: seq<T>

    ghost function View(): Host<T>
      reads this
    {
      Host(containerLogSeq, handed, stored)
    }

    constructor ()
      ensures View() == NewHost()
    {
      containerLogSeq, stored, handed := 0, [], [];
    }

    method WriteLog(entry: T, ok: bool)
      modifies this
      ensures containerLogSeq == old(containerLogSeq) && handed == old(handed) + [entry]
      ensures stored == old(stored) + if ok then [entry] else []
    {
      handed := handed + [entry];
      stored := stored + if ok then [entry] else [];
    }

    /** One connection of `ListenInitLogs`; a failed write is passed over and counted. */
    method Listen(delivered: seq<T>, writes: nat -> bool)
      modifies this
      ensures View() == Connected(old(View()), delivered, writes)
    {
      var seqNo := 0;
      while seqNo < |delivered|
        invariant 0 <= seqNo <= |delivered|
        invariant View() == Connected(old(View()), delivered[..seqNo], writes)
      {
        seqNo := seqNo + 1;
        assert delivered[..seqNo][..seqNo - 1] == delivered[..seqNo - 1];
        if seqNo <= containerLogSeq { continue; }
        WriteLog(delivered[seqNo - 1], writes(seqNo - 1));
        containerLogSeq := containerLogSeq + 1;
      }
      assert delivered[..seqNo] == delivered;
    }
  }
}
