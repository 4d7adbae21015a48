/** Bounded process output: a ring of the newest bytes with cursors that count
    every byte ever written, shared by any number of readers. */
module OutputStreams {
  import opened SessionEvents
  import opened Sequences

  const EXECUTION_OUTPUT_PAGE: nat := 64 * 1024

  function Saturating(n: nat): nat {
    if n > U64_MAX then U64_MAX else n
  }

  datatype Page = Page(offset: nat, nextOffset: nat, retainedFrom: nat, total: nat, lost: nat, bytes: seq<Octet>)

  /** The last n bytes of a history. */
  function Newest(history: seq<Octet>, n: nat): seq<Octet>
    requires n <= |history|
  {
    history[|history| - n..]
  }

  lemma NewestAppend(history: seq<Octet>, more: seq<Octet>, kept: nat, n: nat)
    requires kept <= |history| && n <= kept + |more|
    ensures Newest(history + more, n) == Newest(Newest(history, kept) + more, n)
  {
  }

  lemma SliceOfNewest(history: seq<Octet>, n: nat, from: nat, to: nat)
    requires n <= |history| && from <= to <= n
    ensures Newest(history, n)[from..to] == history[|history| - n + from..|history| - n + to]
  {
  }

  datatype Stored = Stored(bytes: seq<Octet>, total: nat)

  class Stream {
    var bytes: seq<Octet>
    var total: nat
    /** Everything ever written. */
    ghost var history: seq<Octet>

    /** The ring is the end of the history, and the counter its length, as far as
        a 64-bit counter goes. */
    ghost predicate Valid()
      reads this
    {
      |bytes| <= |history| && bytes == Newest(history, |bytes|) && total == Saturating(|history|) && |bytes| <= U64_MAX
    }

    /** Exactly as much is retained as the capacity allows. */
    ghost predicate Full(capacity: nat)
      reads this
    {
      Valid() && |bytes| == Least(|history|, capacity)
    }

    constructor ()
      ensures Full(0) && history == [] && bytes == []
    {
      bytes, total, history := [], 0, [];
    }

    /** Continue from a stored ring, whose evicted part is only counted. */
    constructor Load(stored: Stored)
      requires |stored.bytes| <= stored.total <= U64_MAX
      ensures Valid() && bytes == stored.bytes && total == stored.total && |history| == total
    {
      bytes, total := stored.bytes, stored.total;
      history := seq(stored.total - |stored.bytes|, i => 0 as Octet) + stored.bytes;
    }

    method Append(more: seq<Octet>, capacity: nat)
      requires Valid() && capacity <= U64_MAX
      modifies this
      ensures Valid() && history == old(history) + more
      ensures |bytes| == Least(old(|bytes|) + |more|, capacity)
      ensures old(Full(capacity)) ==> Full(capacity)
    {
      total := Saturating(total + |more|);
      bytes := bytes + more;
      var excess := if |bytes| > capacity then |bytes| - capacity else 0;
      NewestAppend(history, more, |old(bytes)|, |bytes| - excess);
      bytes := bytes[excess..];
      history := history + more;
    }

    /** The page at a cursor: clamped to what is retained, counted in bytes lost,
        bounded by the limit and by the page size. */
    predicate Shows(page: Page, offset: nat, limit: nat)
      reads this
    {
      && page.total == total && page.retainedFrom <= total && page.retainedFrom == total - |bytes|
      && page.offset == (if offset > total then total else if offset < page.retainedFrom then page.retainedFrom
         else offset)
      && page.lost == (if offset < page.retainedFrom then page.retainedFrom - offset else 0)
      && page.nextOffset == page.offset + Least(Least(limit, EXECUTION_OUTPUT_PAGE), total - page.offset)
      && page.bytes == bytes[page.offset - page.retainedFrom..page.nextOffset - page.retainedFrom]
    }

    /** Reading changes nothing, so readers never disturb each other. */
    method GetPage(offset: nat, limit: nat) returns (page: Page)
      requires Valid()
      ensures Shows(page, offset, limit)
    {
      hide Newest;
      var start := if total > |bytes| then total - |bytes| else 0;
      var actual := if offset > start then offset else start;
      if actual > total {
        actual := total;
      }
      var skipped := actual - start;
      var end := skipped + Least(Least(limit, EXECUTION_OUTPUT_PAGE), |bytes| - skipped);
      page := Page(actual, actual + (end - skipped), start, total, if start > offset then start - offset else 0,
        bytes[skipped..end]);
    }

    /** A page is the stretch of the history between its two offsets. Once the
        counter is saturated both offsets lag by what it no longer counts. */
    lemma PageIsHistory(page: Page, offset: nat, limit: nat)
      requires Valid() && Shows(page, offset, limit)
      ensures page.offset <= page.nextOffset <= total && |page.bytes| == page.nextOffset - page.offset
      ensures var uncounted := |history| - total;
              uncounted >= 0 && page.bytes == history[page.offset + uncounted..page.nextOffset + uncounted]
    {
      SliceOfNewest(history, |bytes|, page.offset - page.retainedFrom, page.nextOffset - page.retainedFrom);
      hide Newest;
    }

    method Tail(limit: nat) returns (page: Page)
      requires Valid()
      ensures Shows(page, if total > limit then total - limit else 0, limit)
    {
      var whole := GetPage(0, 0);
      var newest := if whole.total > limit then whole.total - limit else 0;
      page := GetPage(newest, limit);
    }

    /** A window larger than one page starts at its old end, so its page reaches
        the newest byte exactly when the window fits a page. */
    lemma TailReachesEnd(page: Page, limit: nat)
      requires Valid() && Shows(page, if total > limit then total - limit else 0, limit)
      ensures page.nextOffset == total <==> Least(limit, |bytes|) <= EXECUTION_OUTPUT_PAGE
      ensures page.lost == 0 || limit > |bytes|
    {
    }
  }

  // ---- cursors ----

  /** A reader that asks for the page after its last one. */
  datatype Reader = Reader(cursor: nat, lost: nat, received: seq<Octet>)

  datatype Action = Write(bytes: seq<Octet>) | Next(reader: nat, limit: nat)

  /** A reader asks for a page that may hold something. */
  predicate Asks(action: Action, reader: nat) {
    action.Next? && action.reader == reader && action.limit > 0
  }

  ghost predicate Asked(actions: seq<Action>, reader: nat) {
    exists k :: 0 <= k < |actions| && Asks(actions[k], reader)
  }

  lemma NobodyAsked(actions: seq<Action>)
    ensures forall reader: nat :: !Asked(actions[..0], reader)
  {
  }

  lemma AskedMore(actions: seq<Action>, k: nat)
    requires k < |actions|
    ensures forall reader: nat :: Asked(actions[..k + 1], reader) <==>
              Asked(actions[..k], reader) || Asks(actions[k], reader)
  {
    var more := actions[..k + 1];
    assert more == actions[..k] + [actions[k]];
    forall reader: nat ensures Asked(more, reader) <==> Asked(actions[..k], reader) || Asks(actions[k], reader) {
      assert more[k] == actions[k];
      assert forall j :: 0 <= j < k ==> more[j] == actions[..k][j];
    }
  }

  ghost predicate Consistent(stream: Stream, reader: Reader)
    reads stream
  {
    && stream.Valid() && reader.cursor == reader.lost + |reader.received| && reader.cursor <= stream.total
    && (reader.lost == 0 && |stream.history| <= U64_MAX ==> reader.received == stream.history[..reader.cursor])
  }

  method Advance(stream: Stream, reader: Reader, limit: nat) returns (next: Reader)
    requires stream.Valid() && Consistent(stream, reader)
    ensures Consistent(stream, next) && reader.cursor <= next.cursor
    ensures limit > 0 && reader.cursor < stream.total ==> next.cursor > reader.cursor
    ensures next.lost >= reader.lost && reader.received <= next.received
    ensures stream.total - |stream.bytes| <= reader.cursor ==> next.lost == reader.lost
  {
    var page := stream.GetPage(reader.cursor, limit);
    stream.PageIsHistory(page, reader.cursor, limit);
    next := Reader(page.nextOffset, reader.lost + page.lost, reader.received + page.bytes);
    if next.lost == 0 && |stream.history| <= U64_MAX {
      assert next.received == stream.history[..next.cursor] by {
        assert stream.history[..page.offset] + stream.history[page.offset..page.nextOffset]
          == stream.history[..page.nextOffset];
      }
    }
  }

  /** Any interleaving of one writer with any number of readers: each cursor is
      what its reader lost plus what it received, and a reader that lost nothing
      has received exactly the beginning of the history. A reader that was behind
      and asked has got further. */
  method Interleave(stream: Stream, capacity: nat, readers: seq<Reader>, actions: seq<Action>)
    returns (after: seq<Reader>)
    requires stream.Full(capacity) && capacity <= U64_MAX
    requires forall i :: 0 <= i < |readers| ==> Consistent(stream, readers[i])
    modifies stream
    ensures stream.Full(capacity) && old(stream.history) <= stream.history
    ensures |after| == |readers| && forall i :: 0 <= i < |after| ==> Consistent(stream, after[i])
    ensures forall i :: 0 <= i < |after| ==>
              readers[i].received <= after[i].received && readers[i].lost <= after[i].lost
    ensures |stream.history| <= capacity ==> forall i :: 0 <= i < |after| ==> after[i].lost == readers[i].lost
    ensures forall i :: 0 <= i < |after| && Asked(actions, i) && readers[i].cursor < old(stream.total) ==>
              readers[i].cursor < after[i].cursor
  {
    hide Asked;
    NobodyAsked(actions);
    assert actions[..|actions|] == actions;
    after := readers;
    for k := 0 to |actions|
      invariant stream.Full(capacity) && old(stream.history) <= stream.history
      invariant |after| == |readers| && forall i :: 0 <= i < |after| ==> Consistent(stream, after[i])
      invariant forall i :: 0 <= i < |after| ==>
                readers[i].received <= after[i].received && readers[i].lost <= after[i].lost
      invariant |stream.history| <= capacity ==> forall i :: 0 <= i < |after| ==> after[i].lost == readers[i].lost
      invariant stream.total >= old(stream.total)
      invariant forall i :: 0 <= i < |after| ==> readers[i].cursor <= after[i].cursor
      invariant forall i :: 0 <= i < |after| && Asked(actions[..k], i) && readers[i].cursor < old(stream.total) ==>
                  readers[i].cursor < after[i].cursor
    {
      AskedMore(actions, k);
      match actions[k]
      case Write(bytes) =>
        ghost var history := stream.history;
        stream.Append(bytes, capacity);
        forall i | 0 <= i < |after| ensures Consistent(stream, after[i]) {
          if after[i].lost == 0 && |stream.history| <= U64_MAX {
            assert stream.history[..after[i].cursor] == history[..after[i].cursor];
          }
        }
      case Next(reader, limit) =>
        if reader < |after| {
          var moved := Advance(stream, after[reader], limit);
          after := after[reader := moved];
        }
    }
  }

  /** Once nothing more is written, asking again and again reaches the end. */
  method Drain(stream: Stream, reader: Reader, limit: nat) returns (done: Reader)
    requires stream.Valid() && Consistent(stream, reader) && limit > 0
    ensures Consistent(stream, done) && done.cursor == stream.total
    ensures |stream.history| <= U64_MAX && done.lost == 0 ==> done.received == stream.history
    ensures stream.total - |stream.bytes| <= reader.cursor ==> done.lost == reader.lost
  {
    done := reader;
    while done.cursor < stream.total
      invariant Consistent(stream, done) && reader.cursor <= done.cursor
      invariant stream.total - |stream.bytes| <= reader.cursor ==> done.lost == reader.lost
      decreases stream.total - done.cursor
    {
      done := Advance(stream, done, limit);
    }
  }

  // ---- one execution's output ----

  datatype Name = Stdout | Stderr | Terminal

  class ExecutionOutput {
    const stdout: Stream
    const stderr: Stream
    const terminal: Stream
    const capacity: nat
    var ended: bool
    var interrupted: bool

    ghost predicate Valid()
      reads this, stdout, stderr, terminal
    {
      && stdout != stderr && stderr != terminal && stdout != terminal && capacity <= U64_MAX
      && stdout.Valid() && stderr.Valid() && terminal.Valid()
    }

    constructor (capacity: nat)
      requires capacity <= U64_MAX
      ensures Valid() && fresh(stdout) && fresh(stderr) && fresh(terminal) && !ended && this.capacity == capacity
      ensures stdout.history == [] && stderr.history == [] && terminal.history == []
    {
      stdout := new Stream();
      stderr := new Stream();
      terminal := new Stream();
      this.capacity, ended, interrupted := capacity, false, false;
    }

    constructor Load(capacity: nat, out: Stored, err: Stored, term: Stored, ended: bool, interrupted: bool)
      requires Loadable(capacity, out) && Loadable(capacity, err) && Loadable(capacity, term)
      ensures Valid() && fresh(stdout) && fresh(stderr) && fresh(terminal)
      ensures this.ended && this.interrupted == (interrupted || !ended)
      ensures stdout.bytes == out.bytes && stderr.bytes == err.bytes && terminal.bytes == term.bytes
      ensures stdout.total == out.total && stderr.total == err.total && terminal.total == term.total
    {
      stdout := new Stream.Load(out);
      stderr := new Stream.Load(err);
      terminal := new Stream.Load(term);
      this.capacity, this.ended, this.interrupted := capacity, true, interrupted || !ended;
    }

    function Of(name: Name): Stream {
      match name
      case Stdout => stdout
      case Stderr => stderr
      case Terminal => terminal
    }

    /** Output that arrives after the end is ignored. */
    method Append(name: Name, bytes: seq<Octet>)
      requires Valid()
      modifies Of(name)
      ensures Valid()
      ensures Of(name).history == if ended then old(Of(name).history) else old(Of(name).history) + bytes
      ensures ended ==> Of(name).bytes == old(Of(name).bytes) && Of(name).total == old(Of(name).total)
    {
      if !ended {
        Of(name).Append(bytes, capacity);
      }
    }

    method End()
      requires Valid()
      modifies this`ended
      ensures Valid() && ended
    {
      ended := true;
    }

    method Read(name: Name, offset: nat, limit: nat) returns (page: Page)
      requires Valid()
      ensures var stream := Of(name);
              && page.total == stream.total
              && page.nextOffset == page.offset + |page.bytes|
              && page.nextOffset <= stream.total
              && stream.Shows(page, offset, limit)
              && (offset <= stream.total ==> page.nextOffset == offset + page.lost + |page.bytes|)
              && var uncounted := |stream.history| - stream.total;
                 page.bytes == stream.history[page.offset + uncounted..page.nextOffset + uncounted]
    {
      page := Of(name).GetPage(offset, limit);
      Of(name).PageIsHistory(page, offset, limit);
    }
  }

  /** What a stored ring must satisfy to be loaded. */
  predicate Loadable(capacity: nat, stored: Stored) {
    1024 <= capacity <= 1024 * 1024 && |stored.bytes| <= capacity && |stored.bytes| <= stored.total <= U64_MAX
  }

  /** Load a stored execution: its process is over, and was interrupted unless it
      had ended. A state that breaks its own bounds is refused. */
  method Load(capacity: nat, out: Stored, err: Stored, term: Stored, ended: bool, interrupted: bool)
    returns (loaded: Option<ExecutionOutput>)
    ensures loaded.Some? <==>
              && 1_024 <= capacity <= 1_048_576
              && forall stored :: stored in {out, err, term} ==>
                   |stored.bytes| <= capacity && |stored.bytes| <= stored.total <= U64_MAX
    ensures loaded.Some? ==>
              loaded.value.Valid() && loaded.value.ended && loaded.value.interrupted == (interrupted || !ended)
  {
    if !Loadable(capacity, out) || !Loadable(capacity, err) || !Loadable(capacity, term) {
      return None;
    }
    var output := new ExecutionOutput.Load(capacity, out, err, term, ended, interrupted);
    loaded := Some(output);
  }
}
