/**
  From the bytes a container writes to the entries the host records: every interleaving of writers, of
  appends to the one guest log, and of connections that are opened, fed and dropped at any point.
 */
module LogPipeline {
  import opened LogLines
  import opened LogWriter
  import opened HostLog

  /** `fed` is what each stream's container has written; `received` is how far the current connection is. */
  datatype Pipe = Pipe(
    fed: map<Stream, Data>, writers: map<Stream, Writer>, log: seq<Entry>, received: nat, host: Host<Entry>)

  datatype Step = Feed(stream: Stream, bytes: Data) | Append(stream: Stream) | Connect | Deliver(writeOk: bool)

  function NewPipe(streams: set<Stream>): Pipe {
    Pipe(map s | s in streams :: [], map s | s in streams :: NEW_WRITER, [], 0, NewHost())
  }

  /** A stream's writer is locked for the length of a call: no new bytes while a line waits. */
  predicate CanStep(p: Pipe, a: Step) {
    match a
    case Feed(s, _) => s in p.writers && s in p.fed && NewlineAt(p.writers[s].buf) < 0
    case Append(s) => s in p.writers && NewlineAt(p.writers[s].buf) >= 0
    case Connect => true
    case Deliver(_) => p.received < |p.log|
  }

  function AfterFeed(p: Pipe, s: Stream, bytes: Data): Pipe
    requires s in p.writers && s in p.fed
  {
    p.(fed := p.fed[s := p.fed[s] + bytes],
       writers := p.writers[s := p.writers[s].(buf := p.writers[s].buf + bytes)])
  }

  function FirstLine(w: Writer): Data
    requires NewlineAt(w.buf) >= 0
  {
    w.buf[..NewlineAt(w.buf) + 1]
  }

  function AfterAppend(p: Pipe, s: Stream): Pipe
    requires s in p.writers && NewlineAt(p.writers[s].buf) >= 0
  {
    p.(writers := p.writers[s := Pulled(p.writers[s], true)], log := p.log + [Entry(s, FirstLine(p.writers[s]))])
  }

  function Apply(p: Pipe, a: Step): Pipe
    requires CanStep(p, a)
  {
    match a
    case Feed(s, bytes) => AfterFeed(p, s, bytes)
    case Append(s) => AfterAppend(p, s)
    case Connect => p.(received := 0)
    case Deliver(writeOk) =>
      p.(received := p.received + 1, host := Received(p.host, p.received + 1, p.log[p.received], writeOk))
  }

  predicate Legal(p: Pipe, run: seq<Step>)
    decreases |run|
  {
    run == [] || (CanStep(p, run[0]) && Legal(Apply(p, run[0]), run[1..]))
  }

  function Exec(p: Pipe, run: seq<Step>): Pipe
    requires Legal(p, run)
    decreases |run|
  {
    if run == [] then p else Exec(Apply(p, run[0]), run[1..])
  }

  // ---------------------------------------------------------------- one stream's share of a log

  function Of(log: seq<Entry>, s: Stream): seq<Data> {
    if log == [] then []
    else
      var last := log[|log| - 1];
      Of(log[..|log| - 1], s) + if last.stream == s then [last.content] else []
  }

  lemma OfMore(log: seq<Entry>, e: Entry, s: Stream)
    ensures Of(log + [e], s) == Of(log, s) + if e.stream == s then [e.content] else []
  {
    assert (log + [e])[..|log|] == log;
  }

  lemma {:induction false} OfPrefix(log: seq<Entry>, n: nat, s: Stream)
    requires n <= |log|
    ensures Of(log[..n], s) <= Of(log, s)
    decreases |log|
  {
    if n < |log| {
      var init := log[..|log| - 1];
      assert init[..n] == log[..n];
      OfPrefix(init, n, s);
    } else {
      assert log[..n] == log;
    }
  }

  // ---------------------------------------------------------------- the invariant

  /** One stream: its lines are in the log, in order, and its buffer holds the rest of its bytes. */
  predicate Balanced(w: Writer, fed: Data, lines: seq<Data>) {
    Accounts(w, fed) && Contents(w.attempts) == lines
  }

  ghost predicate Guest(p: Pipe) {
    p.fed.Keys == p.writers.Keys && forall s :: s in p.writers ==> Balanced(p.writers[s], p.fed[s], Of(p.log, s))
  }

  predicate HostSide(p: Pipe) {
    p.received <= p.host.count == |p.host.handed| <= |p.log| && p.host.handed == p.log[..p.host.count]
  }

  lemma FedBalanced(w: Writer, fed: Data, bytes: Data, lines: seq<Data>)
    requires Balanced(w, fed, lines)
    ensures Balanced(w.(buf := w.buf + bytes), fed + bytes, lines)
  {
    FedMore(w, fed, bytes);
  }

  lemma PulledBalanced(w: Writer, fed: Data, lines: seq<Data>)
    requires Balanced(w, fed, lines) && NewlineAt(w.buf) >= 0
    ensures Balanced(Pulled(w, true), fed, lines + [FirstLine(w)])
  {
    PulledAccounts(w, true, fed);
  }

  lemma FedKeeps(p: Pipe, s: Stream, bytes: Data)
    requires Guest(p) && s in p.writers
    ensures Guest(AfterFeed(p, s, bytes))
  {
    var q := AfterFeed(p, s, bytes);
    FedBalanced(p.writers[s], p.fed[s], bytes, Of(p.log, s));
    assert q.writers.Keys == p.writers.Keys && q.fed.Keys == p.fed.Keys;
  }

  lemma AppendedBalanced(p: Pipe, s: Stream, t: Stream)
    requires CanStep(p, Append(s)) && t in p.writers && t in p.fed && Balanced(p.writers[t], p.fed[t], Of(p.log, t))
    ensures Balanced(AfterAppend(p, s).writers[t], p.fed[t], Of(AfterAppend(p, s).log, t))
  {
    OfMore(p.log, Entry(s, FirstLine(p.writers[s])), t);
    if t == s { AppendedHere(p, s); } else { NothingMore(Of(p.log, t)); }
  }

  lemma NothingMore(ls: seq<Data>)
    ensures ls + [] == ls
  {
  }

  lemma AppendedHere(p: Pipe, s: Stream)
    requires CanStep(p, Append(s)) && s in p.fed && Balanced(p.writers[s], p.fed[s], Of(p.log, s))
    ensures Balanced(AfterAppend(p, s).writers[s], p.fed[s], Of(p.log, s) + [FirstLine(p.writers[s])])
  {
    PulledBalanced(p.writers[s], p.fed[s], Of(p.log, s));
  }

  lemma AppendedKeeps(p: Pipe, s: Stream)
    requires Guest(p) && CanStep(p, Append(s))
    ensures Guest(AfterAppend(p, s))
  {
    assert AfterAppend(p, s).writers.Keys == p.writers.Keys;
    forall t | t in p.writers ensures Balanced(AfterAppend(p, s).writers[t], p.fed[t], Of(AfterAppend(p, s).log, t)) {
      AppendedBalanced(p, s, t);
    }
  }

  lemma GuestKeeps(p: Pipe, a: Step)
    requires Guest(p) && CanStep(p, a)
    ensures Guest(Apply(p, a))
  {
    match a
    case Feed(s, bytes) => FedKeeps(p, s, bytes);
    case Append(s) => AppendedKeeps(p, s);
    case Connect =>
    case Deliver(writeOk) =>
  }

  /** The log only grows, and an entry is new to the host exactly when it is the next one. */
  lemma HostKeeps(p: Pipe, a: Step)
    requires HostSide(p) && CanStep(p, a)
    ensures HostSide(Apply(p, a))
  {
    match a
    case Feed(s, bytes) =>
    case Append(s) => assert AfterAppend(p, s).log[..p.host.count] == p.log[..p.host.count];
    case Connect =>
    case Deliver(writeOk) =>
      if p.received == p.host.count {
        assert p.log[..p.received + 1] == p.log[..p.received] + [p.log[p.received]];
      }
  }

  lemma {:induction false} RunKeeps(p: Pipe, run: seq<Step>)
    requires Guest(p) && HostSide(p) && Legal(p, run)
    ensures Guest(Exec(p, run)) && HostSide(Exec(p, run))
    decreases |run|
  {
    if run != [] {
      GuestKeeps(p, run[0]);
      HostKeeps(p, run[0]);
      RunKeeps(Apply(p, run[0]), run[1..]);
    }
  }

  // ---------------------------------------------------------------- the theorems

  /** In every run, what the host has recorded of a stream is the first lines of the bytes its container
      wrote: together a newline-terminated prefix of them. */
  lemma Fidelity(streams: set<Stream>, run: seq<Step>, s: Stream)
    requires Legal(NewPipe(streams), run) && s in streams
    ensures var p := Exec(NewPipe(streams), run);
            && s in p.fed
            && var recorded := Of(p.host.handed, s);
            && |recorded| <= |Lines(p.fed[s])| && recorded == Lines(p.fed[s])[..|recorded|]
            && Join(recorded) <= p.fed[s] && Terminated(Join(recorded))
  {
    var p := Exec(NewPipe(streams), run);
    RunKeeps(NewPipe(streams), run);
    KeysStay(NewPipe(streams), run);
    OfPrefix(p.log, p.host.count, s);
    FirstLines(p.writers[s], p.fed[s], Of(p.log, s), Of(p.host.handed, s));
  }

  lemma FirstLines(w: Writer, fed: Data, all: seq<Data>, recorded: seq<Data>)
    requires Balanced(w, fed, all) && recorded <= all
    ensures |recorded| <= |Lines(fed)| && recorded == Lines(fed)[..|recorded|]
    ensures Join(recorded) <= fed && Terminated(Join(recorded))
  {
    LinesAfter(all, w.buf, fed);
    assert recorded == all[..|recorded|];
    JoinPrefix(all, |recorded|, fed);
    JoinTerminated(recorded);
  }

  lemma {:induction false} KeysStay(p: Pipe, run: seq<Step>)
    requires Legal(p, run)
    ensures Exec(p, run).fed.Keys == p.fed.Keys
    decreases |run|
  {
    if run != [] {
      assert Apply(p, run[0]).fed.Keys == p.fed.Keys;
      KeysStay(Apply(p, run[0]), run[1..]);
    }
  }

  /** Once no line waits in a writer and a connection has caught up, every finished line is there, and only
      the unfinished last one is missing. */
  lemma CaughtUp(streams: set<Stream>, run: seq<Step>, s: Stream)
    requires Legal(NewPipe(streams), run) && s in streams
    requires forall a: Step :: a.Append? || a.Deliver? ==> !CanStep(Exec(NewPipe(streams), run), a)
    ensures var p := Exec(NewPipe(streams), run);
            && s in p.fed
            && Of(p.host.handed, s) == Lines(p.fed[s]) && Join(Of(p.host.handed, s)) + Tail(p.fed[s]) == p.fed[s]
  {
    var p := Exec(NewPipe(streams), run);
    RunKeeps(NewPipe(streams), run);
    KeysStay(NewPipe(streams), run);
    assert !CanStep(p, Deliver(true)) && !CanStep(p, Append(s));
    assert p.host.handed == p.log;
    SplitUnique(Of(p.log, s), p.writers[s].buf);
  }

  // ---------------------------------------------------------------- a call is a run of steps

  /** Lines of one stream as entries. */
  function EntriesOf(s: Stream, ls: seq<Data>): seq<Entry> {
    if ls == [] then [] else [Entry(s, ls[0])] + EntriesOf(s, ls[1..])
  }

  /** A log with all lines of these bytes added. */
  function Grown(log: seq<Entry>, s: Stream, d: Data): seq<Entry> {
    log + EntriesOf(s, Lines(d))
  }

  lemma AppendEntries(log: seq<Entry>, s: Stream, d: Data)
    requires NewlineAt(d) >= 0
    ensures var i := NewlineAt(d) + 1;
            Grown(log, s, d) == Grown(log + [Entry(s, d[..i])], s, d[i..])
  {
    var i := NewlineAt(d) + 1;
    assert Lines(d)[1..] == Lines(d[i..]);
    assert Lines(d)[0] == d[..i];
    Reassociate(log, [Entry(s, d[..i])], EntriesOf(s, Lines(d[i..])));
  }

  lemma RunFirst(p: Pipe, a: Step, rest: seq<Step>)
    requires CanStep(p, a) && Legal(Apply(p, a), rest)
    ensures Legal(p, [a] + rest) && Exec(p, [a] + rest) == Exec(Apply(p, a), rest)
  {
    assert ([a] + rest)[1..] == rest;
  }

  lemma AppendDrains(p: Pipe, s: Stream, oks: nat -> bool, k: nat)
    requires CanStep(p, Append(s)) && oks(k)
    ensures var q := AfterAppend(p, s);
            q.writers[s := Drained(q.writers[s], oks, k + 1)] == p.writers[s := Drained(p.writers[s], oks, k)]
  {
    var w := p.writers[s];
    Overwritten(p.writers, s, Pulled(w, true), Drained(w, oks, k));
  }

  lemma AppendLogs(p: Pipe, s: Stream)
    requires CanStep(p, Append(s))
    ensures var q := AfterAppend(p, s);
            Grown(q.log, s, q.writers[s].buf) == Grown(p.log, s, p.writers[s].buf)
  {
    var d := p.writers[s].buf;
    AppendEntries(p.log, s, d);
    AppendedIs(p, s, d);
  }

  lemma AppendedIs(p: Pipe, s: Stream, d: Data)
    requires CanStep(p, Append(s)) && d == p.writers[s].buf
    ensures var q, i := AfterAppend(p, s), NewlineAt(d) + 1;
            q.writers[s].buf == d[i..] && q.log == p.log + [Entry(s, d[..i])]
  {
  }

  lemma Overwritten(writers: map<Stream, Writer>, s: Stream, w: Writer, u: Writer)
    ensures writers[s := w][s := u] == writers[s := u]
  {
  }

  /** A `Write` call without errors that nothing interleaves with is a Feed and its Appends. */
  lemma {:induction false} DrainRuns(p: Pipe, s: Stream, oks: nat -> bool, k: nat) returns (run: seq<Step>)
    requires s in p.writers && forall j: nat :: oks(j)
    ensures Legal(p, run)
    ensures Exec(p, run).writers == p.writers[s := Drained(p.writers[s], oks, k)]
    ensures Exec(p, run).log == Grown(p.log, s, p.writers[s].buf)
    ensures Exec(p, run).fed == p.fed && Exec(p, run).host == p.host
    decreases |p.writers[s].buf|
  {
    if NewlineAt(p.writers[s].buf) < 0 {
      run := [];
      assert p.writers[s := p.writers[s]] == p.writers;
    } else {
      var q := Apply(p, Append(s));
      var rest := DrainRuns(q, s, oks, k + 1);
      run := [Append(s)] + rest;
      RunFirst(p, Append(s), rest);
      AppendDrains(p, s, oks, k);
      AppendLogs(p, s);
    }
  }

  /** The steps of one connection that delivers the log's first `n` entries. */
  function ConnectionSteps(writes: nat -> bool, n: nat): seq<Step> {
    if n == 0 then [Connect] else ConnectionSteps(writes, n - 1) + [Deliver(writes(n - 1))]
  }

  lemma {:induction false} RunLast(p: Pipe, init: seq<Step>, a: Step)
    requires Legal(p, init) && CanStep(Exec(p, init), a)
    ensures Legal(p, init + [a]) && Exec(p, init + [a]) == Apply(Exec(p, init), a)
    decreases |init|
  {
    if init == [] {
      assert [a][1..] == [];
    } else {
      RunLast(Apply(p, init[0]), init[1..], a);
      assert (init + [a])[1..] == init[1..] + [a];
    }
  }

  /** A connection starts from the log's first entry again, and leaves with the host what the host's receive loop
      makes of the entries it delivers. */
  lemma {:induction false} ConnectionRuns(p: Pipe, writes: nat -> bool, n: nat)
    requires n <= |p.log|
    ensures Legal(p, ConnectionSteps(writes, n))
    ensures Exec(p, ConnectionSteps(writes, n)) ==
      p.(received := n, host := Connected(p.host, p.log[..n], writes))
  {
    if n == 0 {
      assert Legal(Apply(p, Connect), []);
      assert [Connect][1..] == [];
    } else {
      ConnectionRuns(p, writes, n - 1);
      assert p.log[..n][..n - 1] == p.log[..n - 1];
      RunLast(p, ConnectionSteps(writes, n - 1), Deliver(writes(n - 1)));
    }
  }

  /** The log grows by the lines that the call completes, the first of them with what the buffer held. */
  lemma CallRuns(p: Pipe, s: Stream, c: Call) returns (run: seq<Step>)
    requires CanStep(p, Feed(s, c.bytes)) && forall j: nat :: c.oks(j)
    ensures Legal(p, run)
    ensures Exec(p, run).writers == p.writers[s := Written(p.writers[s], c)]
    ensures Exec(p, run).log == p.log + EntriesOf(s, Lines(p.writers[s].buf + c.bytes))
    ensures Exec(p, run).fed == p.fed[s := p.fed[s] + c.bytes] && Exec(p, run).host == p.host
  {
    var q := Apply(p, Feed(s, c.bytes));
    var rest := DrainRuns(q, s, c.oks, 0);
    run := [Feed(s, c.bytes)] + rest;
    RunFirst(p, Feed(s, c.bytes), rest);
    assert q.writers[s := Written(p.writers[s], c)] == p.writers[s := Written(p.writers[s], c)];
  }
}
