/** A monitor turns the pages of a running process into bounded lines, and the
    lines into rate-limited deliveries. */
module Monitors {
  import opened SessionEvents
  import opened Sequences
  import opened Utf8
  import opened OutputStreams

  const MAX_PARTIAL: nat := 4096
  const MAX_RECENT: nat := 128
  const MAX_PENDING_LINES: nat := 16
  const MAX_PENDING_BYTES: nat := 6000
  const NEWLINE: Octet := 0x0a

  datatype Config = Config(
    streams: set<Name>,
    contains: Text,
    exclude: Option<Text>,
    readyWhen: Option<Text>,
    stopWhen: Option<Text>,
    debounce: nat,
    minInterval: nat,
    dedupe: nat,
    maxEvents: nat,
    timeout: nat)

  predicate ValidConfig(config: Config) {
    && 100 <= config.debounce <= 60_000 && 1000 <= config.minInterval <= 60_000 && config.dedupe <= 60_000
    && 1 <= config.maxEvents <= 32 && 100 <= config.timeout <= 86_400_000
    && config.readyWhen != Some([]) && config.stopWhen != Some([])
  }

  /** The default watch is valid, and each bound is met at both ends. */
  lemma ConfigBounds(config: Config)
    ensures config.readyWhen.None? && config.stopWhen.None? && config.debounce == 250 && config.minInterval == 1_000
            && config.dedupe == 5_000 && config.maxEvents == 8 && config.timeout == 3_600_000 ==>
              ValidConfig(config)
    ensures ValidConfig(config) ==>
              var widest := config.(debounce := 60_000, minInterval := 60_000, dedupe := 60_000, maxEvents := 32,
                                    timeout := 86_400_000);
              var narrowest := config.(debounce := 100, minInterval := 1_000, dedupe := 0, maxEvents := 1,
                                       timeout := 100);
              && ValidConfig(widest) && ValidConfig(narrowest)
              && !ValidConfig(widest.(debounce := 60_001)) && !ValidConfig(narrowest.(debounce := 99))
              && !ValidConfig(widest.(minInterval := 60_001)) && !ValidConfig(narrowest.(minInterval := 999))
              && !ValidConfig(widest.(dedupe := 60_001))
              && !ValidConfig(widest.(maxEvents := 33)) && !ValidConfig(narrowest.(maxEvents := 0))
              && !ValidConfig(widest.(timeout := 86_400_001)) && !ValidConfig(narrowest.(timeout := 99))
              && !ValidConfig(config.(readyWhen := Some([]))) && !ValidConfig(config.(stopWhen := Some([])))
  {
  }

  predicate HasPart(text: Text, part: Option<Text>) {
    part.Some? && Contains(text, part.value)
  }

  function Bytes(lines: seq<Text>): nat {
    if lines == [] then 0 else Bytes(lines[..|lines| - 1]) + |lines[|lines| - 1]|
  }

  /** Printable ASCII and line ends: what decoding leaves as it is. */
  predicate Plain(text: Text) {
    forall i :: 0 <= i < |text| ==> 0x20 <= text[i] <= 0x7e || text[i] == NEWLINE
  }

  // ---- lines of a plain byte stream ----

  datatype Split = Split(partial: Text, lines: seq<Text>)

  /** Byte by byte: a line keeps its first 4096 bytes and ends with its newline. */
  function Feed(partial: Text, text: Text): Split {
    if text == [] then Split(partial, [])
    else
      var before := Feed(partial, text[..|text| - 1]);
      var last := text[|text| - 1];
      var grown := if |before.partial| < MAX_PARTIAL then before.partial + [last] else before.partial;
      if last == NEWLINE then Split([], before.lines + [grown]) else Split(grown, before.lines)
  }

  /** Where a text is cut into pages does not show in its lines. */
  lemma {:induction false} FeedInPages(partial: Text, first: Text, second: Text)
    ensures var once := Feed(partial, first);
            var twice := Feed(once.partial, second);
            Feed(partial, first + second) == Split(twice.partial, once.lines + twice.lines)
    decreases |second|
  {
    if second == [] {
      assert first + second == first;
      assert Feed(partial, first).lines + [] == Feed(partial, first).lines;
    } else {
      var init, last := second[..|second| - 1], second[|second| - 1];
      var all := first + second;
      assert all[..|all| - 1] == first + init && all[|all| - 1] == last;
      FeedInPages(partial, first, init);
      var before := Feed(partial, first + init);
      var once := Feed(partial, first);
      var inner := Feed(once.partial, init);
      var grown := if |before.partial| < MAX_PARTIAL then before.partial + [last] else before.partial;
      assert once.lines + (inner.lines + [grown]) == (once.lines + inner.lines) + [grown];
    }
  }

  /** A stretch without newline only fills the partial line. */
  lemma {:induction false} FeedNoNewline(partial: Text, text: Text)
    requires NEWLINE !in text && |partial| <= MAX_PARTIAL
    ensures Feed(partial, text) == Split(partial + text[..Room(partial, text)], [])
    decreases |text|
  {
    if text != [] {
      var init, last := text[..|text| - 1], text[|text| - 1];
      FeedNoNewline(partial, init);
      assert last in text;
      if |partial| + |init| < MAX_PARTIAL {
        assert text[..Room(partial, text)] == init[..Room(partial, init)] + [last];
      } else {
        assert text[..Room(partial, text)] == init[..Room(partial, init)];
      }
    }
  }

  function Room(partial: Text, text: Text): (n: nat)
    requires |partial| <= MAX_PARTIAL
    ensures n <= |text|
  {
    if |text| < MAX_PARTIAL - |partial| then |text| else MAX_PARTIAL - |partial|
  }

  lemma {:induction false} FeedChunk(partial: Text, chunk: Text)
    requires |partial| <= MAX_PARTIAL && chunk != [] && NEWLINE !in chunk[..|chunk| - 1]
    ensures var grown := partial + chunk[..Room(partial, chunk)];
            Feed(partial, chunk) == if chunk[|chunk| - 1] == NEWLINE then Split([], [grown]) else Split(grown, [])
  {
    var init, last := chunk[..|chunk| - 1], chunk[|chunk| - 1];
    FeedNoNewline(partial, init);
    if |partial| + |init| < MAX_PARTIAL {
      assert chunk[..Room(partial, chunk)] == init + [last] && init[..Room(partial, init)] == init;
      assert partial + init + [last] == partial + (init + [last]);
    } else {
      assert chunk[..Room(partial, chunk)] == init[..Room(partial, init)];
    }
  }

  /** In plain text every position is a character boundary. */
  lemma PlainBoundaries(text: Text, i: nat)
    requires Plain(text) && i <= |text|
    ensures CharBoundary(text, i)
  {
  }

  // ---- the line parser ----

  function Prefix(name: Name): Text {
    match name
    case Stdout => [0x73, 0x74, 0x64, 0x6f, 0x75, 0x74, 0x3a, 0x20]
    case Stderr => [0x73, 0x74, 0x64, 0x65, 0x72, 0x72, 0x3a, 0x20]
    case Terminal => [0x74, 0x65, 0x72, 0x6d, 0x69, 0x6e, 0x61, 0x6c, 0x3a, 0x20]
  }

  /** Position after the first newline, or the end. */
  method ChunkEnd(text: Text) returns (end: nat)
    requires text != []
    ensures 0 < end <= |text| && NEWLINE !in text[..end - 1]
    ensures text[end - 1] == NEWLINE || end == |text|
  {
    end := 1;
    while end < |text| && text[end - 1] != NEWLINE
      invariant 0 < end <= |text| && NEWLINE !in text[..end - 1]
    {
      assert text[..end] == text[..end - 1] + [text[end - 1]];
      end := end + 1;
    }
  }

  predicate IsMarker(config: Config, line: Text) {
    HasPart(line, config.readyWhen) || HasPart(line, config.stopWhen)
  }

  predicate Wanted(config: Config, line: Text) {
    IsMarker(config, line) || (Contains(line, config.contains) && !HasPart(line, config.exclude))
  }

  /** What a stream's lines are prefixed with. */
  lemma PrefixText(name: Name)
    ensures var text := if name == Stdout then "stdout: " else if name == Stderr then "stderr: " else "terminal: ";
            |Prefix(name)| == |text| && forall i :: 0 <= i < |text| ==> Prefix(name)[i] as int == text[i] as int
  {
  }

  /** A text occurs in a line. */
  ghost predicate Occurs(part: Text, line: Text) {
    exists before, after :: line == before + part + after
  }

  /** A line with a marker is wanted whatever the filters say; any other is if the
      asked text occurs in it and the excluded one does not. */
  lemma WantedIs(config: Config, line: Text)
    ensures IsMarker(config, line) <==>
              || (config.readyWhen.Some? && Occurs(config.readyWhen.value, line))
              || (config.stopWhen.Some? && Occurs(config.stopWhen.value, line))
    ensures Wanted(config, line) <==>
              || IsMarker(config, line)
              || (Occurs(config.contains, line) && !(config.exclude.Some? && Occurs(config.exclude.value, line)))
  {
    hide Contains;
    forall part: Text ensures Contains(line, part) <==> Occurs(part, line) {
      ContainsIs(line, part);
    }
  }

  /** Add one chunk, which has no newline but perhaps its last byte, to a partial line. */
  method CutChunk(config: Config, partial: Text, chunk: Text) returns (rest: Text, line: Option<Text>)
    requires |partial| <= MAX_PARTIAL && chunk != []
    ensures |rest| <= MAX_PARTIAL && (line.Some? ==> rest == [] && |line.value| <= MAX_PARTIAL)
    ensures chunk[|chunk| - 1] == NEWLINE ==> line.Some?
    ensures Plain(chunk) ==>
              var grown := partial + chunk[..Room(partial, chunk)];
              if chunk[|chunk| - 1] == NEWLINE || IsMarker(config, grown)
              then rest == [] && line == Some(grown) else rest == grown && line == None
  {
    hide Contains;
    var end: nat := Room(partial, chunk);
    if Plain(chunk) {
      PlainBoundaries(chunk, end);
    }
    ghost var most := end;
    while !CharBoundary(chunk, end)
      invariant end <= most && (Plain(chunk) ==> end == most)
      decreases end
    {
      end := end - 1;
    }
    var grown := partial + chunk[..end];
    if chunk[|chunk| - 1] == NEWLINE || IsMarker(config, grown) {
      return [], Some(grown);
    }
    return grown, None;
  }

  /** What is left of the recent lines once the expired ones in front are dropped. */
  function Remembered(recent: seq<(Text, nat)>, now: nat, dedupe: nat): (left: seq<(Text, nat)>)
    ensures |left| <= |recent|
  {
    if recent != [] && now - recent[0].1 >= dedupe then Remembered(recent[1..], now, dedupe) else recent
  }

  /** A line that was not seen lately is remembered, in place of the oldest if need be. */
  function Noted(recent: seq<(Text, nat)>, line: Text, now: nat): seq<(Text, nat)> {
    if Seen(recent, line) then recent
    else (if |recent| >= MAX_RECENT then recent[1..] else recent) + [(line, now)]
  }

  predicate Seen(recent: seq<(Text, nat)>, line: Text) {
    exists i :: 0 <= i < |recent| && recent[i].0 == line
  }

  /** The lines that were seen lately, the oldest first. */
  ghost predicate Dated(recent: seq<(Text, nat)>, now: nat) {
    && (forall i, j :: 0 <= i < j < |recent| ==> recent[i].1 <= recent[j].1)
    && (forall i :: 0 <= i < |recent| ==> recent[i].1 <= now)
  }

  /** A line is dropped exactly if the same line was remembered less than the
      window ago. */
  lemma SeenIs(recent: seq<(Text, nat)>, line: Text, now: nat, dedupe: nat)
    requires Dated(recent, now)
    ensures Seen(Remembered(recent, now, dedupe), line)
            <==> exists i :: 0 <= i < |recent| && recent[i].0 == line && now - recent[i].1 < dedupe
  {
    var k := RememberedIs(recent, now, dedupe);
    hide Remembered, Dated;
    if i :| 0 <= i < |recent| && recent[i].0 == line && now - recent[i].1 < dedupe {
      assert recent[k..][i - k].0 == line;
    }
  }

  /** The expired lines are gone and the others are all there. */
  lemma {:induction false} RememberedIs(recent: seq<(Text, nat)>, now: nat, dedupe: nat) returns (k: nat)
    requires Dated(recent, now)
    ensures k <= |recent| && Remembered(recent, now, dedupe) == recent[k..]
    ensures forall i :: 0 <= i < |recent| ==> (i < k <==> now - recent[i].1 >= dedupe)
    decreases |recent|
  {
    k := 0;
    if recent != [] && now - recent[0].1 >= dedupe {
      var rest := recent[1..];
      assert forall i :: 0 < i < |recent| ==> recent[i] == rest[i - 1];
      var left := RememberedIs(rest, now, dedupe);
      k := left + 1;
      assert rest[left..] == recent[k..];
    }
  }

  /** A line that is let through is remembered as of now, in place of the oldest
      if the list is full, and the list stays dated. */
  lemma NotedIs(recent: seq<(Text, nat)>, line: Text, now: nat, dedupe: nat)
    requires Dated(recent, now) && !Seen(Remembered(recent, now, dedupe), line)
    ensures var left := Remembered(recent, now, dedupe);
            && Dated(Noted(left, line, now), now)
            && Noted(left, line, now) == (if |left| < MAX_RECENT then left else left[1..]) + [(line, now)]
  {
    hide Remembered, Seen;
    var k := RememberedIs(recent, now, dedupe);
    DatedSuffix(recent, k, now);
    var left := recent[k..];
    if |left| >= MAX_RECENT {
      DatedSuffix(left, 1, now);
    }
  }

  lemma DatedSuffix(recent: seq<(Text, nat)>, k: nat, now: nat)
    requires Dated(recent, now) && k <= |recent|
    ensures Dated(recent[k..], now)
  {
  }

  ghost predicate CutAs(partial: Text, text: Text, rest: Text, lines: seq<Text>) {
    Feed(partial, text) == Split(rest, lines)
  }

  lemma CutAsMore(
    partial: Text, before: Text, rest: Text, lines: seq<Text>, chunk: Text, next: Text, line: Option<Text>)
    requires CutAs(partial, before, rest, lines) && |rest| <= MAX_PARTIAL && chunk != []
    requires NEWLINE !in chunk[..|chunk| - 1]
    requires var grown := rest + chunk[..Room(rest, chunk)];
             if chunk[|chunk| - 1] == NEWLINE then next == [] && line == Some(grown) else next == grown && line == None
    ensures CutAs(partial, before + chunk, next, if line.Some? then lines + [line.value] else lines)
  {
    FeedInPages(partial, before, chunk);
    FeedChunk(rest, chunk);
    assert lines + [] == lines;
  }

  /** Cut the text of one page into lines; what is left over starts the next page. */
  method CutText(config: Config, partial: Text, text: Text) returns (rest: Text, lines: seq<Text>)
    requires |partial| <= MAX_PARTIAL
    ensures |rest| <= MAX_PARTIAL && forall i :: 0 <= i < |lines| ==> |lines[i]| <= MAX_PARTIAL
    ensures config.readyWhen.None? && config.stopWhen.None? && Plain(text) ==> CutAs(partial, text, rest, lines)
  {
    hide Feed, Contains, Room, CharBoundary, Plain, CutAs;
    var position := 0;
    rest, lines := partial, [];
    assert CutAs(partial, text[..0], rest, lines) by { FeedNothing(partial, text[..0]); }
    while position < |text|
      invariant position <= |text| && |rest| <= MAX_PARTIAL
      invariant forall i :: 0 <= i < |lines| ==> |lines[i]| <= MAX_PARTIAL
      invariant config.readyWhen.None? && config.stopWhen.None? && Plain(text) ==>
                CutAs(partial, text[..position], rest, lines)
      decreases |text| - position
    {
      var length := ChunkEnd(text[position..]);
      var chunk := text[position..position + length];
      ChunkOf(text, position, length);
      var next, line := CutChunk(config, rest, chunk);
      if config.readyWhen.None? && config.stopWhen.None? && Plain(text) {
        CutAsMore(partial, text[..position], rest, lines, chunk, next, line);
      }
      rest, lines, position := next, if line.Some? then lines + [line.value] else lines, position + length;
    }
    assert text[..|text|] == text;
  }

  lemma ChunkOf(text: Text, position: nat, length: nat)
    requires 0 < length && position + length <= |text| && NEWLINE !in text[position..][..length - 1]
    ensures var chunk := text[position..position + length];
            && chunk[..|chunk| - 1] == text[position..][..length - 1]
            && text[..position + length] == text[..position] + chunk
            && (Plain(text) ==> Plain(chunk))
  {
  }

  lemma FeedNothing(partial: Text, text: Text)
    requires text == []
    ensures CutAs(partial, text, partial, [])
  {
  }

  // ---- what becomes of the lines ----

  function WantedOf(config: Config, lines: seq<Text>): seq<Text> {
    if lines == [] then []
    else
      var last := lines[|lines| - 1];
      WantedOf(config, lines[..|lines| - 1]) + (if Wanted(config, last) then [last] else [])
  }

  lemma WantedMore(config: Config, lines: seq<Text>, line: Text)
    ensures WantedOf(config, lines + [line]) == WantedOf(config, lines) + (if Wanted(config, line) then [line] else [])
  {
    assert (lines + [line])[..|lines|] == lines;
  }

  /** The wanted lines that were kept, in order, and the number of all others. */
  ghost predicate Accounts(config: Config, read: seq<Text>, kept: seq<Text>, dropped: nat) {
    Within(kept, WantedOf(config, read)) && |WantedOf(config, read)| == |kept| + dropped
  }

  lemma AccountsMore(config: Config, read: seq<Text>, kept: seq<Text>, dropped: nat, line: Text)
    requires Accounts(config, read, kept, dropped)
    ensures !Wanted(config, line) ==> Accounts(config, read + [line], kept, dropped)
    ensures Wanted(config, line) ==> Accounts(config, read + [line], kept + [line], dropped)
    ensures Wanted(config, line) ==> Accounts(config, read + [line], kept, dropped + 1)
  {
    hide Wanted, WantedOf, Within;
    WantedMore(config, read, line);
    WithinLast(kept, WantedOf(config, read), line);
    WithinMore(kept, WantedOf(config, read), [line]);
    assert WantedOf(config, read) + [] == WantedOf(config, read);
  }

  /** The lines of one stream as they are judged: named, without trailing space. */
  function Named(name: Name, lines: seq<Text>): seq<Text> {
    seq(|lines|, i requires 0 <= i < |lines| => Prefix(name) + TrimSpace(lines[i]))
  }

  /** The lines of all streams, and at the end the rests. */
  ghost function Judged(heard: seq<seq<Text>>, flushed: seq<Text>): multiset<Text>
    requires |heard| == 3
  {
    multiset(Named(Stdout, heard[0])) + multiset(Named(Stderr, heard[1])) + multiset(Named(Terminal, heard[2]))
      + multiset(flushed)
  }

  lemma NamedMore(name: Name, lines: seq<Text>, more: seq<Text>)
    ensures multiset(Named(name, lines + more)) == multiset(Named(name, lines)) + multiset(Named(name, more))
  {
    hide Prefix, TrimSpace;
    assert Named(name, lines + more) == Named(name, lines) + Named(name, more);
  }

  lemma JudgedMore(heard: seq<seq<Text>>, flushed: seq<Text>, name: Name, lines: seq<Text>)
    requires |heard| == 3
    ensures Judged(heard[Index(name) := heard[Index(name)] + lines], flushed)
            == Judged(heard, flushed) + multiset(Named(name, lines))
  {
    NamedMore(name, heard[Index(name)], lines);
    hide Named;
  }

  lemma FlushedMore(heard: seq<seq<Text>>, flushed: seq<Text>, line: Text)
    requires |heard| == 3
    ensures Judged(heard, flushed + [line]) == Judged(heard, flushed) + multiset{line}
  {
    hide Named;
  }

  lemma JoinedRead(read: seq<Text>, more: seq<Text>)
    ensures multiset(read + more) == multiset(read) + multiset(more)
  {
  }

  // ---- the watch ----

  /** A batch takes at most so many lines and so many bytes. */
  predicate Queues(pending: seq<Text>, line: Text) {
    |pending| < MAX_PENDING_LINES && Bytes(pending) + |line| <= MAX_PENDING_BYTES
  }

  /** A line fits exactly if the batch with it is within both bounds. */
  lemma BytesMore(pending: seq<Text>, line: Text)
    ensures Queues(pending, line)
            <==> |pending + [line]| <= MAX_PENDING_LINES && Bytes(pending + [line]) <= MAX_PENDING_BYTES
  {
    assert (pending + [line])[..|pending|] == pending;
  }

  /** Lines wait since the first of them came. */
  function Since(before: seq<Text>, since: Option<nat>, after: seq<Text>, now: nat): Option<nat> {
    if after == [] then None else if before == [] then Some(now) else since
  }

  function Index(name: Name): nat {
    match name case Stdout => 0 case Stderr => 1 case Terminal => 2
  }

  class Watch {
    const config: Config
    /** Decoding and sanitizing of page bytes. */
    const render: seq<Octet> -> Text
    var offsets: seq<nat>
    var partial: seq<Text>
    var recent: seq<(Text, nat)>
    var pending: seq<Text>
    var pendingSince: Option<nat>
    var lastDelivery: Option<nat>
    var delivered: nat
    var suppressed: nat
    var lost: nat
    var marker: bool
    /** The lines of each stream, before prefix and filters. */
    ghost var heard: seq<seq<Text>>
    /** Every line that was judged, and of those the delivered and the flushed ones. */
    ghost var read: seq<Text>
    ghost var handed: seq<Text>
    ghost var flushed: seq<Text>

    ghost predicate Valid()
      reads this
    {
      && ValidConfig(config) && |offsets| == 3 && |partial| == 3 && |heard| == 3
      && (forall i :: 0 <= i < 3 ==> |partial[i]| <= MAX_PARTIAL)
      && Bounded() && Accounts(config, read, handed + pending, suppressed)
    }

    /** Every line of every stream was judged once. */
    ghost predicate AllRead()
      reads this`heard, this`flushed, this`read
    {
      |heard| == 3 && multiset(read) == Judged(heard, flushed)
    }

    predicate Bounded()
      reads this
    {
      && |recent| <= MAX_RECENT && |pending| <= MAX_PENDING_LINES && Bytes(pending) <= MAX_PENDING_BYTES
      && (pending != [] <==> pendingSince.Some?)
    }

    constructor (config: Config, render: seq<Octet> -> Text)
      requires ValidConfig(config)
      ensures Valid() && this.config == config && this.render == render && lost == 0 && delivered == 0 && pending == []
      ensures offsets == [0, 0, 0] && partial == [[], [], []] && heard == [[], [], []] && lastDelivery == None
      ensures !marker
      ensures read == [] && handed == [] && flushed == [] && suppressed == 0
    {
      this.config, this.render := config, render;
      offsets, partial, heard := [0, 0, 0], [[], [], []], [[], [], []];
      recent, pending, pendingSince, lastDelivery := [], [], None, None;
      delivered, suppressed, lost, marker := 0, 0, 0, false;
      read, handed, flushed := [], [], [];
    }

    /** Take one line: filter it, drop it if seen lately, queue it if it fits. */
    method Line(line: Text, now: nat)
      requires Valid()
      modifies this`recent, this`pending, this`pendingSince, this`suppressed, this`marker, this`read
      ensures pendingSince == Since(old(pending), old(pendingSince), pending, now)
      ensures Valid() && read == old(read) + [line]
      ensures marker == (old(marker) || IsMarker(config, line))
      ensures !Wanted(config, line) ==>
                pending == old(pending) && recent == old(recent) && suppressed == old(suppressed)
      ensures Wanted(config, line) ==> recent == Noted(Remembered(old(recent), now, config.dedupe), line, now)
      ensures Wanted(config, line) ==>
                if !Seen(Remembered(old(recent), now, config.dedupe), line) && Queues(old(pending), line)
                then pending == old(pending) + [line] && suppressed == old(suppressed)
                else pending == old(pending) && suppressed == old(suppressed) + 1
    {
      hide Wanted, IsMarker, ValidConfig, Bytes, Seen, Remembered, Queues, Accounts, Noted;
      AccountsMore(config, read, handed + pending, suppressed, line);
      marker := marker || IsMarker(config, line);
      if !Wanted(config, line) {
        read := read + [line];
        return;
      }
      Forget(now);
      read := read + [line];
      var isNew := Note(line, now);
      if !isNew {
        suppressed := suppressed + 1;
        return;
      }
      if !Queues(pending, line) {
        suppressed := suppressed + 1;
        return;
      }
      BytesMore(pending, line);
      assert handed + (pending + [line]) == handed + pending + [line];
      pending := pending + [line];
      if pendingSince.None? {
        pendingSince := Some(now);
      }
    }

    /** Remember a line unless it was seen lately. */
    method Note(line: Text, now: nat) returns (isNew: bool)
      requires |recent| <= MAX_RECENT
      modifies this`recent
      ensures isNew == !Seen(old(recent), line)
      ensures |recent| <= MAX_RECENT && recent == Noted(old(recent), line, now)
    {
      hide Seen;
      if Seen(recent, line) {
        return false;
      }
      if |recent| >= MAX_RECENT {
        recent := recent[1..];
      }
      recent := recent + [(line, now)];
      isNew := true;
    }

    /** Drop the oldest seen lines whose time is over. */
    method Forget(now: nat)
      requires Valid()
      modifies this`recent
      ensures Valid() && recent == Remembered(old(recent), now, config.dedupe)
    {
      while recent != [] && now - recent[0].1 >= config.dedupe
        invariant |recent| <= |old(recent)|
        invariant Remembered(recent, now, config.dedupe) == Remembered(old(recent), now, config.dedupe)
        decreases |recent|
      {
        recent := recent[1..];
      }
    }

    method Lines(name: Name, lines: seq<Text>, now: nat)
      requires Valid()
      modifies this`recent, this`pending, this`pendingSince, this`suppressed, this`marker, this`read
      ensures pendingSince == Since(old(pending), old(pendingSince), pending, now)
      ensures Valid() && old(pending) <= pending && read == old(read) + Named(name, lines)
    {
      hide Accounts, Bytes, ValidConfig, Wanted, IsMarker, Remembered, Seen, Queues, Noted, TrimSpace, Prefix;
      for i := 0 to |lines|
        invariant pendingSince == Since(old(pending), old(pendingSince), pending, now)
        invariant Valid() && old(pending) <= pending && read == old(read) + Named(name, lines[..i])
      {
        assert Named(name, lines[..i + 1]) == Named(name, lines[..i]) + [Prefix(name) + TrimSpace(lines[i])];
        Line(Prefix(name) + TrimSpace(lines[i]), now);
      }
      assert lines[..|lines|] == lines;
    }

    /** A stream that is all plain text, lost nothing and is watched for no marker
        has been cut exactly as if it had come in one piece. */
    ghost predicate Follows(output: ExecutionOutput, name: Name)
      reads this, output.Of(name)
      requires Valid()
    {
      var stream, i := output.Of(name), Index(name);
      && offsets[i] <= stream.total
      && (lost == 0 && config.readyWhen.None? && config.stopWhen.None? && Plain(stream.history)
            && |stream.history| <= U64_MAX ==>
            offsets[i] <= |stream.history| && CutAs([], stream.history[..offsets[i]], partial[i], heard[i]))
    }

    /** Note how far a stream was read, and judge the lines that were cut from it. */
    method Take(name: Name, next: nat, skipped: nat, rest: Text, lines: seq<Text>, now: nat)
      requires Valid() && |rest| <= MAX_PARTIAL
      modifies this`offsets, this`partial, this`lost, this`recent, this`pending, this`pendingSince, this`suppressed,
        this`marker, this`read, this`heard
      ensures pendingSince == Since(old(pending), old(pendingSince), pending, now)
      ensures Valid() && old(pending) <= pending && lost == old(lost) + skipped && (old(AllRead()) ==> AllRead())
      ensures offsets == old(offsets)[Index(name) := next] && partial == old(partial)[Index(name) := rest]
      ensures heard == old(heard)[Index(name) := old(heard)[Index(name)] + lines]
    {
      hide Bytes, ValidConfig, Accounts, Named, Judged;
      JudgedMore(heard, flushed, name, lines);
      JoinedRead(read, Named(name, lines));
      offsets := offsets[Index(name) := next];
      lost := lost + skipped;
      partial := partial[Index(name) := rest];
      heard := heard[Index(name) := heard[Index(name)] + lines];
      Lines(name, lines, now);
    }

    /** A stream was read to its end, or at least a page further. */
    predicate Advanced(output: ExecutionOutput, name: Name, before: seq<nat>)
      reads this, output.Of(name)
    {
      && |offsets| == 3 && |before| == 3
      && (offsets[Index(name)] == output.Of(name).total || offsets[Index(name)] >= before[Index(name)] + 64 * 1024)
    }

    /** Read the next page of one stream. */
    method PollStream(output: ExecutionOutput, name: Name, now: nat)
      requires Valid() && output.Valid() && offsets[Index(name)] <= output.Of(name).total
      requires forall text :: Plain(text) ==> render(text) == text
      modifies this`offsets, this`partial, this`lost, this`recent, this`pending, this`pendingSince, this`suppressed,
        this`marker, this`read, this`heard
      ensures pendingSince == Since(old(pending), old(pendingSince), pending, now)
      ensures old(AllRead()) ==> AllRead()
      ensures Valid() && lost >= old(lost) && old(pending) <= pending
      ensures offsets[Index(name)] <= output.Of(name).total && (old(Follows(output, name)) ==> Follows(output, name))
      ensures Advanced(output, name, old(offsets))
      ensures forall i :: 0 <= i < 3 && i != Index(name) ==>
                offsets[i] == old(offsets)[i] && partial[i] == old(partial)[i] && heard[i] == old(heard)[i]
    {
      hide Feed, Contains, Bytes, CutAs, ValidConfig, Plain, Accounts, AllRead;
      var i := Index(name);
      var page, rest, lines := CutPage(config, render, output, name, offsets[i], partial[i]);
      ghost var stream := output.Of(name);
      PagesJoin([], stream.history, offsets[i], page.nextOffset, partial[i], heard[i], rest, lines);
      Take(name, page.nextOffset, page.lost, rest, lines, now);
    }

    predicate InRange(output: ExecutionOutput)
      reads this, output.stdout`total, output.stderr`total, output.terminal`total
    {
      && |offsets| == 3
      && offsets[0] <= output.stdout.total
      && offsets[1] <= output.stderr.total
      && offsets[2] <= output.terminal.total
    }

    method Poll(output: ExecutionOutput, now: nat)
      requires Valid() && output.Valid() && InRange(output)
      requires forall text :: Plain(text) ==> render(text) == text
      modifies this`offsets, this`partial, this`lost, this`recent, this`pending, this`pendingSince, this`suppressed,
        this`marker, this`read, this`heard
      ensures pendingSince == Since(old(pending), old(pendingSince), pending, now)
      ensures old(AllRead()) ==> AllRead()
      ensures forall name :: name in config.streams ==> Advanced(output, name, old(offsets))
      ensures Valid() && InRange(output) && old(pending) <= pending && lost >= old(lost)
    {
      hide Feed, Contains, Bytes, CutAs, ValidConfig, Plain, Accounts, Judged;
      if Stdout in config.streams {
        PollStream(output, Stdout, now);
      }
      if Stderr in config.streams {
        PollStream(output, Stderr, now);
      }
      if Terminal in config.streams {
        PollStream(output, Terminal, now);
      }
    }

    predicate Drained(output: ExecutionOutput)
      reads this, output.stdout`total, output.stderr`total, output.terminal`total
      requires |offsets| == 3
    {
      && (Stdout in config.streams ==> offsets[0] >= output.stdout.total)
      && (Stderr in config.streams ==> offsets[1] >= output.stderr.total)
      && (Terminal in config.streams ==> offsets[2] >= output.terminal.total)
    }

    /** At the end an unfinished line counts as a line. */
    method FlushPartial(now: nat)
      requires Valid()
      modifies this`flushed, this`partial, this`recent, this`pending, this`pendingSince, this`suppressed, this`marker,
        this`read
      ensures pendingSince == Since(old(pending), old(pendingSince), pending, now)
      ensures old(AllRead()) ==> AllRead()
      ensures Valid() && partial == [[], [], []] && old(pending) <= pending
    {
      hide Accounts, Named, Judged, Noted, ValidConfig, Bytes, Wanted, IsMarker, Remembered, Seen, Queues;
      for i := 0 to 3
        invariant pendingSince == Since(old(pending), old(pendingSince), pending, now)
        invariant old(AllRead()) ==> AllRead()
        invariant Valid() && old(pending) <= pending && forall j :: 0 <= j < i ==> partial[j] == []
      {
        if partial[i] != [] {
          var line := partial[i];
          FlushedMore(heard, flushed, line);
          JoinedRead(read, [line]);
          partial, flushed := partial[i := []], flushed + [line];
          Line(line, now);
        }
      }
    }

    predicate ShouldDeliver(ended: bool, now: nat)
      reads this
    {
      && pending != [] && delivered < config.maxEvents
      && (lastDelivery.Some? ==> now - lastDelivery.value >= config.minInterval)
      && (ended || marker || (pendingSince.Some? && now - pendingSince.value >= config.debounce))
    }
  }

  /** Read one page and cut it. Lost bytes take the partial line with them. */
  method CutPage(
    config: Config, render: seq<Octet> -> Text, output: ExecutionOutput, name: Name, offset: nat, partial: Text)
    returns (page: Page, rest: Text, lines: seq<Text>)
    requires output.Valid() && offset <= output.Of(name).total && |partial| <= MAX_PARTIAL
    requires forall text :: Plain(text) ==> render(text) == text
    ensures |rest| <= MAX_PARTIAL && offset <= page.nextOffset <= output.Of(name).total
    ensures page.nextOffset == output.Of(name).total || page.nextOffset >= offset + 64 * 1024
    ensures page.nextOffset <= |output.Of(name).history|
    ensures var history := output.Of(name).history;
            page.lost == 0 && config.readyWhen.None? && config.stopWhen.None? && Plain(history)
              && |history| <= U64_MAX ==>
              CutAs(partial, history[offset..page.nextOffset], rest, lines)
  {
    hide Feed, Contains, CutAs, Plain;
    page := output.Read(name, offset, 64 * 1024);
    PlainPage(output.Of(name).history, page, output.Of(name).total);
    rest, lines := CutText(config, if page.lost > 0 then [] else partial, render(page.bytes));
  }

  lemma PlainPage(history: Text, page: Page, total: nat)
    requires total == Saturating(|history|) && page.offset <= page.nextOffset <= total
    requires page.bytes == history[page.offset + (|history| - total)..page.nextOffset + (|history| - total)]
    ensures Plain(history) ==> Plain(page.bytes)
    ensures |history| <= U64_MAX ==> page.bytes == history[page.offset..page.nextOffset]
  {
  }

  lemma PagesJoin(
    start: Text, history: Text, from: nat, to: nat, partial: Text, heard: seq<Text>, rest: Text, lines: seq<Text>)
    requires from <= to <= |history|
    ensures CutAs(start, history[..from], partial, heard) && CutAs(partial, history[from..to], rest, lines)
            ==> CutAs(start, history[..to], rest, heard + lines)
  {
    assert history[..to] == history[..from] + history[from..to];
    FeedInPages(start, history[..from], history[from..to]);
  }

  /** Whatever is written between polls, and wherever the pages fall, a plain
      stream that lost nothing gives the lines of its whole history so far. */
  method FollowStream(output: ExecutionOutput, watch: Watch, name: Name, script: seq<Option<Text>>)
    requires output.Valid() && watch.Valid() && watch.Follows(output, name)
    requires forall text :: Plain(text) ==> watch.render(text) == text
    modifies output.Of(name)
    modifies watch`offsets, watch`partial, watch`lost, watch`recent, watch`pending, watch`pendingSince,
      watch`suppressed, watch`marker, watch`read, watch`heard
    ensures output.Valid() && watch.Valid() && watch.Follows(output, name)
    ensures var history, i := output.Of(name).history, Index(name);
            watch.lost == 0 && watch.config.readyWhen.None? && watch.config.stopWhen.None? && Plain(history)
              && |history| <= U64_MAX ==>
              && watch.offsets[i] <= |history|
              && Feed([], history[..watch.offsets[i]]) == Split(watch.partial[i], watch.heard[i])
  {
    hide Plain, Feed, ValidConfig, Bytes;
    for k := 0 to |script|
      invariant output.Valid() && watch.Valid() && watch.Follows(output, name)
    {
      if script[k].Some? {
        ghost var history, at := output.Of(name).history, watch.offsets[Index(name)];
        output.Append(name, script[k].value);
        PlainPrefix(history, output.Of(name).history);
        assert at <= |history| ==> output.Of(name).history[..at] == history[..at];
      } else {
        var now: nat :| true;
        watch.PollStream(output, name, now);
      }
    }
  }

  lemma PlainPrefix(history: Text, longer: Text)
    requires history <= longer
    ensures Plain(longer) ==> Plain(history)
  {
    assert forall i :: 0 <= i < |history| ==> history[i] == longer[i];
  }

  // ---- the delivery loop ----

  datatype Tick = Tick(
    elapsed: nat, canceled: bool, writes: seq<(Name, Text)>, ends: bool, reserved: bool, submitted: bool, delay: nat)

  datatype Delivery = Delivery(at: nat, lines: seq<Text>)

  datatype Reason =
    | SourceCompleted
    | MonitorCanceled
    | DeadlineReached
    | WakeBudget
    | DeliveryFailed
    | MarkerReached
    | EventBudget
    | StillWatching

  /** At most so many deliveries, at least so far apart, each of bounded size. */
  predicate RateLimited(config: Config, deliveries: seq<Delivery>) {
    && |deliveries| <= config.maxEvents
    && (forall i :: 0 < i < |deliveries| ==> deliveries[i].at - deliveries[i - 1].at >= config.minInterval)
    && (forall i :: 0 <= i < |deliveries| ==>
          0 < |deliveries[i].lines| <= MAX_PENDING_LINES && Bytes(deliveries[i].lines) <= MAX_PENDING_BYTES)
  }

  lemma RateLimitedMore(config: Config, deliveries: seq<Delivery>, next: Delivery)
    requires RateLimited(config, deliveries) && |deliveries| < config.maxEvents
    requires deliveries != [] ==> next.at - deliveries[|deliveries| - 1].at >= config.minInterval
    requires 0 < |next.lines| <= MAX_PENDING_LINES && Bytes(next.lines) <= MAX_PENDING_BYTES
    ensures RateLimited(config, deliveries + [next])
  {
    hide Bytes;
  }

  method WriteAll(output: ExecutionOutput, writes: seq<(Name, Text)>)
    requires output.Valid()
    modifies output.stdout, output.stderr, output.terminal
    ensures output.Valid()
    ensures output.stdout.total >= old(output.stdout.total) && output.stderr.total >= old(output.stderr.total)
            && output.terminal.total >= old(output.terminal.total)
  {
    for i := 0 to |writes|
      invariant output.Valid()
      invariant output.stdout.total >= old(output.stdout.total) && output.stderr.total >= old(output.stderr.total)
                && output.terminal.total >= old(output.terminal.total)
    {
      output.Append(writes[i].0, writes[i].1);
    }
  }

  /** Every watched stream was read to its end. */
  ghost predicate AtEnd(output: ExecutionOutput, watch: Watch)
    reads watch, output.stdout, output.stderr, output.terminal
    requires |watch.offsets| == 3
  {
    forall name :: name in watch.config.streams ==> watch.offsets[Index(name)] >= output.Of(name).total
  }

  /** One tick: output arrives, then the new pages are read. */
  method Look(output: ExecutionOutput, watch: Watch, tick: Tick, now: nat) returns (ended: bool)
    requires output.Valid() && watch.Valid() && watch.InRange(output)
    requires forall text :: Plain(text) ==> watch.render(text) == text
    modifies watch`offsets, watch`partial, watch`lost, watch`recent, watch`pending, watch`pendingSince,
      watch`suppressed, watch`marker, watch`read, watch`flushed, watch`heard
    ensures old(watch.AllRead()) ==> watch.AllRead()
    ensures output.Valid() && watch.Valid() && watch.InRange(output) && old(watch.pending) <= watch.pending
    ensures watch.pendingSince == Since(old(watch.pending), old(watch.pendingSince), watch.pending, now)
    ensures forall name :: name in watch.config.streams ==> watch.Advanced(output, name, old(watch.offsets))
    ensures ended <==> output.ended && AtEnd(output, watch)
    ensures ended ==> watch.partial == [[], [], []]
  {
    hide Plain, ValidConfig, Bytes, Accounts, Judged;
    watch.Poll(output, now);
    ended := output.ended && watch.Drained(output);
    if ended {
      watch.FlushPartial(now);
    }
  }

  method Arrive(output: ExecutionOutput, watch: Watch, tick: Tick)
    requires output.Valid() && watch.Valid() && watch.InRange(output)
    modifies output, output.stdout, output.stderr, output.terminal
    ensures output.Valid() && watch.Valid() && watch.InRange(output)
  {
    hide Plain, ValidConfig, Bytes, Accounts, Judged;
    WriteAll(output, tick.writes);
    if tick.ends {
      output.End();
    }
  }

  method Deliver(watch: Watch, now: nat) returns (delivery: Delivery)
    requires watch.Valid() && watch.pending != []
    modifies watch`handed, watch`delivered, watch`lastDelivery, watch`pending, watch`pendingSince
    ensures watch.Valid() && watch.pending == [] && watch.delivered == old(watch.delivered) + 1
    ensures watch.lastDelivery == Some(now)
    ensures watch.handed == old(watch.handed) + delivery.lines
    ensures delivery.at == now && delivery.lines == old(watch.pending)
    ensures 0 < |delivery.lines| <= MAX_PENDING_LINES && Bytes(delivery.lines) <= MAX_PENDING_BYTES
  {
    hide ValidConfig, Accounts;
    delivery := Delivery(now, watch.pending);
    watch.delivered, watch.lastDelivery := watch.delivered + 1, Some(now);
    watch.handed := watch.handed + watch.pending;
    assert watch.handed + [] == watch.handed;
    watch.pending, watch.pendingSince := [], None;
  }

  /** The delivered lines, in order. */
  function Handed(deliveries: seq<Delivery>): seq<Text> {
    if deliveries == [] then [] else Handed(deliveries[..|deliveries| - 1]) + deliveries[|deliveries| - 1].lines
  }

  lemma HandedNothing(start: seq<Text>)
    ensures start + Handed([]) == start
  {
  }

  lemma HandedMore(start: seq<Text>, deliveries: seq<Delivery>, next: Delivery)
    ensures start + Handed(deliveries + [next]) == start + Handed(deliveries) + next.lines
  {
    assert (deliveries + [next])[..|deliveries|] == deliveries;
  }

  /** Deliver what waits, if it is due and can be submitted. */
  method TryDeliver(watch: Watch, tick: Tick, ended: bool, now: nat)
    returns (stop: Option<Reason>, later: nat, delivery: Option<Delivery>)
    requires watch.Valid() && (watch.lastDelivery.Some? ==> watch.lastDelivery.value <= now)
    modifies watch`handed, watch`delivered, watch`lastDelivery, watch`pending, watch`pendingSince
    ensures watch.Valid() && later >= now && (stop.Some? ==> delivery.None?)
    ensures stop.Some? ==> stop.value in {WakeBudget, DeliveryFailed}
    ensures var due := && old(watch.pending) != [] && old(watch.delivered) < watch.config.maxEvents
                       && (old(watch.lastDelivery).Some? ==>
                             now - old(watch.lastDelivery).value >= watch.config.minInterval)
                       && (ended || watch.marker
                           || (old(watch.pendingSince).Some?
                               && now - old(watch.pendingSince).value >= watch.config.debounce));
            && (delivery.Some? <==> due && tick.reserved && tick.submitted)
            && stop == (if !due || (tick.reserved && tick.submitted) then None
                        else if tick.reserved then Some(DeliveryFailed) else Some(WakeBudget))
    ensures delivery.Some? ==> watch.pending == []
    ensures delivery.None? ==>
              && watch.handed == old(watch.handed) && watch.delivered == old(watch.delivered)
              && watch.lastDelivery == old(watch.lastDelivery) && watch.pending == old(watch.pending)
    ensures delivery.Some? ==>
              && watch.handed == old(watch.handed) + delivery.value.lines && delivery.value.lines == old(watch.pending)
              && watch.delivered == old(watch.delivered) + 1 && old(watch.delivered) < watch.config.maxEvents
              && watch.lastDelivery == Some(later) && delivery.value.at == later
              && (old(watch.lastDelivery).Some? ==> later - old(watch.lastDelivery).value >= watch.config.minInterval)
              && 0 < |delivery.value.lines| <= MAX_PENDING_LINES && Bytes(delivery.value.lines) <= MAX_PENDING_BYTES
  {
    hide ValidConfig, Bytes, Accounts;
    stop, later, delivery := None, now, None;
    if !watch.ShouldDeliver(ended, now) {
      return;
    }
    if !tick.reserved {
      return Some(WakeBudget), later, delivery;
    }
    if !tick.submitted {
      return Some(DeliveryFailed), later, delivery;
    }
    later := now + tick.delay;
    var done := Deliver(watch, later);
    delivery := Some(done);
  }

  /** What a tick found: the lines that wait, since when, and why they may be due. */
  datatype Looked = Looked(ended: bool, marker: bool, pending: seq<Text>, since: Option<nat>)

  /** One tick: output arrives, unless it is too late its pages are read, and what
      is due is delivered. */
  method OneTick(output: ExecutionOutput, watch: Watch, tick: Tick, now: nat)
    returns (stop: Option<Reason>, later: nat, delivery: Option<Delivery>, ghost looked: Option<Looked>)
    requires output.Valid() && watch.Valid() && watch.InRange(output)
    requires watch.lastDelivery.Some? ==> watch.lastDelivery.value <= now
    requires forall text :: Plain(text) ==> watch.render(text) == text
    modifies watch, output, output.stdout, output.stderr, output.terminal
    ensures output.Valid() && watch.Valid() && watch.InRange(output) && later >= now
    ensures old(watch.AllRead()) ==> watch.AllRead()
    ensures looked.None? <==> tick.canceled || now >= watch.config.timeout
    ensures looked.None? ==>
              stop == Some(if tick.canceled then MonitorCanceled else DeadlineReached) && delivery.None?
    ensures looked.Some? ==>
              && old(watch.pending) <= looked.value.pending && looked.value.marker == watch.marker
              && looked.value.since == Since(old(watch.pending), old(watch.pendingSince), looked.value.pending, now)
              && (looked.value.ended <==> output.ended && AtEnd(output, watch))
              && watch.pending == (if delivery.Some? then [] else looked.value.pending)
              && (delivery.Some? ==> delivery.value.lines == looked.value.pending)
    ensures looked.Some? ==>
              var due := && looked.value.pending != [] && old(watch.delivered) < watch.config.maxEvents
                         && (old(watch.lastDelivery).Some? ==>
                               now - old(watch.lastDelivery).value >= watch.config.minInterval)
                         && (looked.value.ended || looked.value.marker
                             || (looked.value.since.Some?
                                 && now - looked.value.since.value >= watch.config.debounce));
              && (delivery.Some? <==> due && tick.reserved && tick.submitted)
              && stop == (if due && !tick.reserved then Some(WakeBudget)
                          else if due && !tick.submitted then Some(DeliveryFailed)
                          else if watch.marker && watch.pending == [] then Some(MarkerReached)
                          else if watch.delivered >= watch.config.maxEvents then Some(EventBudget)
                          else if looked.value.ended && watch.pending == [] then Some(SourceCompleted)
                          else None)
    ensures delivery.None? ==>
              && watch.handed == old(watch.handed)
              && watch.delivered == old(watch.delivered)
              && watch.lastDelivery == old(watch.lastDelivery)
    ensures delivery.Some? ==>
              && watch.handed == old(watch.handed) + delivery.value.lines
              && watch.delivered == old(watch.delivered) + 1 && old(watch.delivered) < watch.config.maxEvents
              && watch.lastDelivery == Some(later) && delivery.value.at == later
              && (old(watch.lastDelivery).Some? ==> later - old(watch.lastDelivery).value >= watch.config.minInterval)
              && 0 < |delivery.value.lines| <= MAX_PENDING_LINES && Bytes(delivery.value.lines) <= MAX_PENDING_BYTES
  {
    hide Plain, ValidConfig, Bytes, Accounts, Watch.AllRead, Watch.Drained, Watch.ShouldDeliver, Watch.Valid,
      ExecutionOutput.Valid;
    stop, later, delivery, looked := None, now, None, None;
    Arrive(output, watch, tick);
    if tick.canceled {
      return Some(MonitorCanceled), later, delivery, looked;
    }
    if now >= watch.config.timeout {
      return Some(DeadlineReached), later, delivery, looked;
    }
    var ended := Look(output, watch, tick, now);
    looked := Some(Looked(ended, watch.marker, watch.pending, watch.pendingSince));
    stop, later, delivery := TryDeliver(watch, tick, ended, now);
    if stop.Some? {
      return;
    }
    if watch.marker && watch.pending == [] {
      stop := Some(MarkerReached);
    } else if watch.delivered >= watch.config.maxEvents {
      stop := Some(EventBudget);
    } else if ended && watch.pending == [] {
      stop := Some(SourceCompleted);
    }
  }

  /** What was delivered so far, and when last. */
  ghost predicate Keeps(watch: Watch, start: seq<Text>, deliveries: seq<Delivery>, now: nat)
    reads watch
  {
    && RateLimited(watch.config, deliveries) && watch.delivered == |deliveries| <= watch.config.maxEvents
    && watch.handed == start + Handed(deliveries)
    && watch.lastDelivery == (if deliveries == [] then None else Some(deliveries[|deliveries| - 1].at))
    && (deliveries != [] ==> deliveries[|deliveries| - 1].at <= now)
  }

  /** Why a watch may stop, and what then holds. */
  ghost predicate StopsFor(output: ExecutionOutput, watch: Watch, reason: Reason)
    reads watch, output, output.stdout, output.stderr, output.terminal
  {
    && (reason.SourceCompleted? || reason.MarkerReached? ==> watch.pending == [])
    && (reason.MarkerReached? ==> watch.marker)
    && (reason.SourceCompleted? ==> |watch.offsets| == 3 && output.ended && AtEnd(output, watch))
    && (reason.EventBudget? ==> watch.delivered >= watch.config.maxEvents)
  }

  lemma ThreeStreams(watch: Watch)
    requires watch.Valid()
    ensures |watch.offsets| == 3
  {
  }

  method NextTick(
    output: ExecutionOutput, watch: Watch, tick: Tick, now: nat, before: seq<Delivery>, ghost start: seq<Text>)
    returns (stop: Option<Reason>, later: nat, deliveries: seq<Delivery>)
    requires output.Valid() && watch.Valid() && watch.InRange(output) && Keeps(watch, start, before, now)
    requires forall text :: Plain(text) ==> watch.render(text) == text
    modifies watch, output, output.stdout, output.stderr, output.terminal
    ensures output.Valid() && watch.Valid() && watch.InRange(output) && Keeps(watch, start, deliveries, later)
    ensures old(watch.AllRead()) ==> watch.AllRead()
    ensures stop.Some? ==> StopsFor(output, watch, stop.value)
  {
    hide Plain, ValidConfig, Bytes, RateLimited, Accounts, Watch.AllRead, Handed, Watch.Valid, ExecutionOutput.Valid,
      AtEnd, Since, Watch.InRange;
    var delivery;
    ghost var looked;
    stop, later, delivery, looked := OneTick(output, watch, tick, now);
    deliveries := before;
    if delivery.Some? {
      RateLimitedMore(watch.config, before, delivery.value);
      HandedMore(start, before, delivery.value);
      deliveries := before + [delivery.value];
    }
    ThreeStreams(watch);
  }

  method Ticks(output: ExecutionOutput, watch: Watch, ticks: seq<Tick>)
    returns (deliveries: seq<Delivery>, reason: Reason)
    requires output.Valid() && watch.Valid() && watch.InRange(output) && watch.delivered == 0
    requires watch.lastDelivery == None
    requires forall text :: Plain(text) ==> watch.render(text) == text
    modifies watch, output, output.stdout, output.stderr, output.terminal
    ensures RateLimited(watch.config, deliveries) && watch.Valid()
    ensures watch.handed == old(watch.handed) + Handed(deliveries) && (old(watch.AllRead()) ==> watch.AllRead())
    ensures watch.delivered == |deliveries| && StopsFor(output, watch, reason)
  {
    assert RateLimited(watch.config, []);
    hide Plain, ValidConfig, Bytes, RateLimited, Accounts, Watch.AllRead, Handed, Watch.Valid, ExecutionOutput.Valid,
      AtEnd, Watch.InRange;
    HandedNothing(watch.handed);
    var now: nat := 0;
    deliveries, reason := [], StillWatching;
    for k := 0 to |ticks|
      invariant output.Valid() && watch.Valid() && watch.InRange(output)
      invariant Keeps(watch, old(watch.handed), deliveries, now) && (old(watch.AllRead()) ==> watch.AllRead())
    {
      var stop;
      assert Keeps(watch, old(watch.handed), deliveries, now + ticks[k].elapsed);
      stop, now, deliveries :=
        NextTick(output, watch, ticks[k], now + ticks[k].elapsed, deliveries, old(watch.handed));
      if stop.Some? {
        return deliveries, stop.value;
      }
    }
  }

  /** Watch an execution over a run of clock ticks. Every wanted line that was read
      is delivered, in order, or still pending, or counted as suppressed. */
  method RunMonitor(output: ExecutionOutput, watch: Watch, ticks: seq<Tick>)
    returns (deliveries: seq<Delivery>, reason: Reason)
    requires output.Valid() && watch.Valid() && watch.InRange(output) && watch.delivered == 0
    requires watch.lastDelivery == None
    requires forall text :: Plain(text) ==> watch.render(text) == text
    modifies watch, output, output.stdout, output.stderr, output.terminal
    ensures RateLimited(watch.config, deliveries) && watch.Valid()
    ensures watch.handed == old(watch.handed) + Handed(deliveries) && (old(watch.AllRead()) ==> watch.AllRead())
    ensures Accounts(watch.config, watch.read, watch.handed + watch.pending, watch.suppressed)
    ensures reason.SourceCompleted? || reason.MarkerReached? ==> watch.pending == []
    ensures reason.MarkerReached? ==> watch.marker
    ensures reason.SourceCompleted? ==> |watch.offsets| == 3 && output.ended && AtEnd(output, watch)
    ensures reason.EventBudget? ==> |deliveries| == watch.config.maxEvents
  {
    hide Plain, ValidConfig, Bytes, Accounts, Handed, AtEnd;
    deliveries, reason := Ticks(output, watch, ticks);
  }
}
