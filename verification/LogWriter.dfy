/**
  The guest side of the log: one line-splitting writer per container stream, over one service that
  appends entries in a single order. An append may fail; the failing line is gone from the buffer then,
  what follows it waits for the next write.
 */
module LogWriter {
  import opened LogLines

  datatype Offer = Offer(line: Data, ok: bool)

  /** A writer as a value: its buffer, and every append it has asked for. */
  datatype Writer = Writer(buf: Data, attempts: seq<Offer>)

  /** One `Write` call: its bytes, and whether its k-th append succeeds. */
  datatype Call = Call(bytes: Data, oks: nat -> bool)

  /** The first line leaves the buffer and is offered to the service. */
  function Pulled(w: Writer, ok: bool): Writer
    requires NewlineAt(w.buf) >= 0
  {
    var i := NewlineAt(w.buf);
    Writer(w.buf[i + 1..], w.attempts + [Offer(w.buf[..i + 1], ok)])
  }

  function Drained(w: Writer, oks: nat -> bool, k: nat): Writer
    decreases |w.buf|
  {
    if NewlineAt(w.buf) < 0 then w
    else if oks(k) then Drained(Pulled(w, true), oks, k + 1)
    else Pulled(w, false)
  }

  function Written(w: Writer, c: Call): Writer {
    Drained(w.(buf := w.buf + c.bytes), c.oks, 0)
  }

  function WriteAll(w: Writer, calls: seq<Call>): Writer
    decreases |calls|
  {
    if calls == [] then w else WriteAll(Written(w, calls[0]), calls[1..])
  }

  function Contents(attempts: seq<Offer>): (ls: seq<Data>)
    ensures |ls| == |attempts|
  {
    seq(|attempts|, i requires 0 <= i < |attempts| => attempts[i].line)
  }

  function Fed(calls: seq<Call>): Data {
    if calls == [] then [] else calls[0].bytes + Fed(calls[1..])
  }

  // ---------------------------------------------------------------- what the lines are

  /** Lines offered so far and the buffer make up the bytes fed so far. */
  predicate Accounts(w: Writer, fed: Data) {
    AreLines(Contents(w.attempts)) && Join(Contents(w.attempts)) + w.buf == fed
  }

  lemma PulledAccounts(w: Writer, ok: bool, fed: Data)
    requires Accounts(w, fed) && NewlineAt(w.buf) >= 0
    ensures Accounts(Pulled(w, ok), fed)
  {
    var i := NewlineAt(w.buf);
    var u := Pulled(w, ok);
    var l := w.buf[..i + 1];
    assert l[..|l| - 1] == w.buf[..i];
    assert Contents(u.attempts) == Contents(w.attempts) + [l];
    JoinAppend(Contents(w.attempts), [l]);
    assert Join([l]) == l;
    assert w.buf == l + u.buf;
  }

  lemma {:induction false} DrainedAccounts(w: Writer, oks: nat -> bool, k: nat, fed: Data)
    requires Accounts(w, fed)
    ensures Accounts(Drained(w, oks, k), fed)
    decreases |w.buf|
  {
    if NewlineAt(w.buf) >= 0 {
      PulledAccounts(w, oks(k), fed);
      if oks(k) { DrainedAccounts(Pulled(w, true), oks, k + 1, fed); }
    }
  }

  lemma FedMore(w: Writer, fed: Data, bytes: Data)
    requires Accounts(w, fed)
    ensures Accounts(w.(buf := w.buf + bytes), fed + bytes)
  {
  }

  lemma {:induction false} WriteAllAccounts(w: Writer, calls: seq<Call>, fed: Data)
    requires Accounts(w, fed)
    ensures Accounts(WriteAll(w, calls), fed + Fed(calls))
    decreases |calls|
  {
    if calls == [] {
      assert fed + Fed(calls) == fed;
    } else {
      FedMore(w, fed, calls[0].bytes);
      DrainedAccounts(w.(buf := w.buf + calls[0].bytes), calls[0].oks, 0, fed + calls[0].bytes);
      WriteAllAccounts(Written(w, calls[0]), calls[1..], fed + calls[0].bytes);
      assert fed + calls[0].bytes + Fed(calls[1..]) == fed + Fed(calls);
    }
  }

  const NEW_WRITER := Writer([], [])

  /** However the bytes are cut into calls and whichever appends fail, the lines offered are the first lines
      of the bytes, each once and in order, and the buffer holds exactly the bytes after them. */
  lemma OfferedLines(calls: seq<Call>)
    ensures var w := WriteAll(NEW_WRITER, calls);
            && |w.attempts| <= |Lines(Fed(calls))|
            && Contents(w.attempts) == Lines(Fed(calls))[..|w.attempts|]
            && Join(Lines(Fed(calls))[..|w.attempts|]) + w.buf == Fed(calls)
  {
    var w := WriteAll(NEW_WRITER, calls);
    assert Accounts(NEW_WRITER, []);
    WriteAllAccounts(NEW_WRITER, calls, []);
    assert [] + Fed(calls) == Fed(calls);
    LinesAfter(Contents(w.attempts), w.buf, Fed(calls));
  }

  /** A drain offers one line after another, with the answers it gets, up to the first failure: after that it
      offers nothing more, and it stops without one only when no line is left. */
  lemma {:induction false} DrainStops(w: Writer, oks: nat -> bool, k: nat) returns (offered: seq<Offer>)
    ensures Drained(w, oks, k).attempts == w.attempts + offered && UpToFailure(offered, oks, k)
    ensures AllStored(offered) ==> NEWLINE !in Drained(w, oks, k).buf
    decreases |w.buf|
  {
    if NewlineAt(w.buf) < 0 {
      offered := [];
    } else if oks(k) {
      var rest := DrainStops(Pulled(w, true), oks, k + 1);
      var first := DrainFirst(w, oks, k);
      offered := [first] + rest;
      Reassociate(w.attempts, [first], rest);
      MoreUpToFailure(first, rest, oks, k);
    } else {
      FailedDrain(w, oks, k);
      var last := Offer(w.buf[..NewlineAt(w.buf) + 1], false);
      offered := [last];
      assert !offered[0].ok;
    }
  }

  lemma DrainFirst(w: Writer, oks: nat -> bool, k: nat) returns (first: Offer)
    requires NewlineAt(w.buf) >= 0 && oks(k)
    ensures first == Offer(w.buf[..NewlineAt(w.buf) + 1], true)
    ensures Pulled(w, true).attempts == w.attempts + [first]
    ensures Drained(w, oks, k) == Drained(Pulled(w, true), oks, k + 1)
  {
    first := Offer(w.buf[..NewlineAt(w.buf) + 1], true);
  }

  /** Each answered as given, and all but the last stored. */
  ghost predicate UpToFailure(offered: seq<Offer>, oks: nat -> bool, k: nat) {
    forall i :: 0 <= i < |offered| ==> offered[i].ok == oks(k + i) && (i < |offered| - 1 ==> offered[i].ok)
  }

  lemma MoreUpToFailure(first: Offer, rest: seq<Offer>, oks: nat -> bool, k: nat)
    requires first.ok && oks(k) && UpToFailure(rest, oks, k + 1)
    ensures UpToFailure([first] + rest, oks, k)
    ensures AllStored([first] + rest) ==> AllStored(rest)
  {
    var all := [first] + rest;
    forall i | 0 <= i < |all| ensures all[i].ok == oks(k + i) && (i < |all| - 1 ==> all[i].ok) {
      if i > 0 { assert all[i] == rest[i - 1] && rest[i - 1].ok == oks(k + 1 + (i - 1)); }
    }
    assert forall i :: 0 <= i < |rest| ==> rest[i] == all[i + 1];
  }

  /** After a failed append the failing line is gone and the rest of the bytes waits. */
  lemma FailedDrain(w: Writer, oks: nat -> bool, k: nat)
    requires NewlineAt(w.buf) >= 0 && !oks(k)
    ensures var i := NewlineAt(w.buf) + 1;
            Drained(w, oks, k) == Writer(w.buf[i..], w.attempts + [Offer(w.buf[..i], false)])
  {
  }

  // ---------------------------------------------------------------- without errors

  predicate AllStored(attempts: seq<Offer>) {
    forall k :: 0 <= k < |attempts| ==> attempts[k].ok
  }

  ghost predicate NoErrors(calls: seq<Call>) {
    forall i, k: nat :: 0 <= i < |calls| ==> calls[i].oks(k)
  }

  lemma {:induction false} DrainedClean(w: Writer, oks: nat -> bool, k: nat)
    requires AllStored(w.attempts) && forall j: nat :: oks(j)
    ensures AllStored(Drained(w, oks, k).attempts) && NEWLINE !in Drained(w, oks, k).buf
    decreases |w.buf|
  {
    if NewlineAt(w.buf) >= 0 { DrainedClean(Pulled(w, true), oks, k + 1); }
  }

  lemma {:induction false} WriteAllClean(w: Writer, calls: seq<Call>)
    requires AllStored(w.attempts) && NEWLINE !in w.buf && NoErrors(calls)
    ensures AllStored(WriteAll(w, calls).attempts) && NEWLINE !in WriteAll(w, calls).buf
    decreases |calls|
  {
    if calls != [] {
      DrainedClean(w.(buf := w.buf + calls[0].bytes), calls[0].oks, 0);
      WriteAllClean(Written(w, calls[0]), calls[1..]);
    }
  }

  /** Without errors the lines and the rest depend only on the bytes, not on how they were cut. */
  lemma ChunkIndependence(calls: seq<Call>)
    requires NoErrors(calls)
    ensures var w := WriteAll(NEW_WRITER, calls);
            && Contents(w.attempts) == Lines(Fed(calls)) && w.buf == Tail(Fed(calls))
            && AllStored(w.attempts) && NEWLINE !in w.buf
  {
    var w := WriteAll(NEW_WRITER, calls);
    assert Accounts(NEW_WRITER, []);
    WriteAllAccounts(NEW_WRITER, calls, []);
    WriteAllClean(NEW_WRITER, calls);
    assert [] + Fed(calls) == Fed(calls);
    SplitUnique(Contents(w.attempts), w.buf);
  }

  // ---------------------------------------------------------------- the objects

  datatype Stream = Stream(container: nat, isError: bool)

  datatype Entry = Entry(stream: Stream, content: Data)

  function Stored(stream: Stream, attempts: seq<Offer>): seq<Entry> {
    if attempts == [] then []
    else
      var last := attempts[|attempts| - 1];
      Stored(stream, attempts[..|attempts| - 1]) + if last.ok then [Entry(stream, last.line)] else []
  }

  /** The log service: the file, and what each handler has been given. */
  class Service {
    var log: seq<Entry>
    var handlers: map<nat, seq<Entry>>

    constructor ()
      ensures log == [] && handlers == map[]
    {
      log, handlers := [], map[];
    }

    /** A stored entry reaches every handler, one that could not be stored reaches none. */
    method Write(entry: Entry, encodes: bool) returns (ok: bool)
      modifies this
      ensures ok == encodes
      ensures log == if ok then old(log) + [entry] else old(log)
      ensures handlers == if ok then map id | id in old(handlers) :: old(handlers)[id] + [entry] else old(handlers)
    {
      if !encodes { return false; }
      log := log + [entry];
      var todo := handlers.Keys;
      while todo != {}
        invariant todo <= handlers.Keys == old(handlers).Keys && log == old(log) + [entry]
        invariant forall id :: id in handlers ==>
          handlers[id] == if id in todo then old(handlers)[id] else old(handlers)[id] + [entry]
        decreases todo
      {
        var id :| id in todo;
        handlers := handlers[id := handlers[id] + [entry]];
        todo := todo - {id};
      }
      ok := true;
    }

    method AddHandler(id: nat)
      requires id !in handlers
      modifies this
      ensures handlers == old(handlers)[id := []] && log == old(log)
    {
      handlers := handlers[id := []];
    }
  }

  class LineWriter {
    const service: Service
    const stream: Stream
    var buf: Data
    ghost var attempts: seq<Offer>

    ghost function View(): Writer
      reads this
    {
      Writer(buf, attempts)
    }

    constructor (service: Service, stream: Stream)
      ensures View() == NEW_WRITER && this.service == service && this.stream == stream
    {
      this.service, this.stream, buf, attempts := service, stream, [], [];
    }

    /** Through the first newline; all there is, and `eof`, when there is none. */
    method ReadString() returns (line: Data, eof: bool)
      modifies this
      ensures line + buf == old(buf) && attempts == old(attempts)
      ensures if eof then NEWLINE !in line && buf == [] else line == old(buf)[..NewlineAt(old(buf)) + 1] && IsLine(line)
      ensures eof <==> NewlineAt(old(buf)) < 0
    {
      var i := 0;
      while i < |buf| && buf[i] != NEWLINE
        invariant 0 <= i <= |buf| && NEWLINE !in buf[..i]
      {
        assert buf[..i + 1] == buf[..i] + [buf[i]];
        i := i + 1;
      }
      eof := i == |buf|;
      if eof {
        assert buf[..i] == buf;
        line, buf := buf, [];
      } else {
        FirstNewline(buf, i);
        line, buf := buf[..i + 1], buf[i + 1..];
        assert line[..|line| - 1] == old(buf)[..i];
      }
    }

    /** One turn of the loop; `offer` is what it offered to the service, if anything. */
    method PullLine(encodes: bool) returns (eof: bool, ok: bool, ghost offer: seq<Offer>)
      modifies this, service
      ensures eof <==> NewlineAt(old(buf)) < 0
      ensures View() == if eof then old(View()) else Pulled(old(View()), encodes)
      ensures attempts == old(attempts) + offer && service.log == old(service.log) + Stored(stream, offer)
      ensures ok == AllStored(offer) == (eof || encodes) && (!eof ==> |buf| < old(|buf|))
      ensures service.log == old(service.log) +
        if !eof && encodes then [Entry(stream, old(buf)[..NewlineAt(old(buf)) + 1])] else []
    {
      var line;
      line, eof := ReadString();
      if eof {
        buf := buf + line;
        return true, true, [];
      }
      ok := service.Write(Entry(stream, line), encodes);
      offer := [Offer(line, ok)];
      attempts := attempts + offer;
      assert Stored(stream, offer) == Stored(stream, []) + if ok then [Entry(stream, line)] else [];
    }

    /** All of the bytes are accepted, or none are reported to be when an append fails. */
    method Write(bytes: Data, oks: nat -> bool) returns (n: nat, ok: bool, ghost offered: seq<Offer>)
      modifies this, service
      ensures View() == Written(old(View()), Call(bytes, oks))
      ensures attempts == old(attempts) + offered && (ok <==> AllStored(offered))
      ensures service.log == old(service.log) + Stored(stream, offered)
      ensures n == if ok then |bytes| else 0
      ensures UpToFailure(offered, oks, 0) && (ok ==> NEWLINE !in buf)
      ensures LogsLines(old(service.log), service.log, stream, if ok then offered else DropLast(offered))
    {
      buf := buf + bytes;
      offered, ok := [], true;
      var eof, k := false, 0;
      ghost var offer;
      while !eof && ok
        invariant attempts == old(attempts) + offered && (ok <==> AllStored(offered))
        invariant (if eof || !ok then View() else Drained(View(), oks, k)) == Written(old(View()), Call(bytes, oks))
        invariant service.log == old(service.log) + Stored(stream, offered)
        decreases |buf|, !eof
      {
        eof, ok, offer := PullLine(oks(k));
        StoredMore(stream, offered, offer);
        Reassociate(old(attempts), offered, offer);
        Reassociate(old(service.log), Stored(stream, offered), Stored(stream, offer));
        offered := offered + offer;
        k := k + 1;
      }
      n := if ok then |bytes| else 0;
      ghost var made := DrainStops(Writer(old(buf) + bytes, old(attempts)), oks, 0);
      assert made == attempts[|old(attempts)|..] == offered;
      LoggedIs(old(service.log), stream, offered);
    }
  }

  /** Everything offered is stored, but for a last line that failed. */
  lemma {:induction false} StoredIs(stream: Stream, offers: seq<Offer>)
    requires forall i :: 0 <= i < |offers| - 1 ==> offers[i].ok
    ensures |Stored(stream, offers)| == |offers| - if AllStored(offers) then 0 else 1
    ensures forall i :: 0 <= i < |Stored(stream, offers)| ==> Stored(stream, offers)[i] == Entry(stream, offers[i].line)
  {
    if offers != [] {
      var init := offers[..|offers| - 1];
      StoredIs(stream, init);
      assert AllStored(init);
    }
  }

  /** The log has grown by these lines, one entry of the stream each. */
  predicate LogsLines(before: seq<Entry>, after: seq<Entry>, stream: Stream, offers: seq<Offer>) {
    && |after| == |before| + |offers| && before <= after
    && forall i :: 0 <= i < |offers| ==> after[|before| + i] == Entry(stream, offers[i].line)
  }

  function DropLast<T>(s: seq<T>): seq<T> {
    if s == [] then [] else s[..|s| - 1]
  }

  lemma LoggedIs(before: seq<Entry>, stream: Stream, offers: seq<Offer>)
    requires forall i :: 0 <= i < |offers| - 1 ==> offers[i].ok
    ensures LogsLines(before, before + Stored(stream, offers), stream,
                      if AllStored(offers) then offers else DropLast(offers))
  {
    StoredIs(stream, offers);
  }

  lemma {:induction false} StoredMore(stream: Stream, a: seq<Offer>, b: seq<Offer>)
    ensures Stored(stream, a + b) == Stored(stream, a) + Stored(stream, b)
    ensures AllStored(a + b) <==> AllStored(a) && AllStored(b)
    decreases |b|
  {
    assert AllStored(a + b) <==> AllStored(a) && AllStored(b) by {
      assert forall k :: 0 <= k < |a| ==> a[k] == (a + b)[k];
      assert forall k :: 0 <= k < |b| ==> b[k] == (a + b)[|a| + k];
    }
    if b == [] {
      assert a + b == a;
    } else {
      var init := b[..|b| - 1];
      assert (a + b)[..|a + b| - 1] == a + init;
      StoredMore(stream, a, init);
    }
  }

  lemma FirstNewline(d: Data, i: nat)
    requires i < |d| && d[i] == NEWLINE && NEWLINE !in d[..i]
    ensures NewlineAt(d) == i
  {
    var j := NewlineAt(d);
    assert forall k :: 0 <= k < i ==> d[k] == d[..i][k];
    assert forall k :: 0 <= k < j ==> d[k] == d[..j][k];
  }
}
