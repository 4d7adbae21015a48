/** The portable summary: a transcript too long for the model is summarized piece
    by piece, round after round, and no part of it is left out. */
module Summaries {
  import opened SessionEvents
  import opened Sequences
  import opened Utf8
  import opened Compactions

  const MAX_SUMMARIZE_INPUT: nat := 24_000
  const MAX_ROUNDS: nat := 8
  const NEWLINE: Text := [0x0a]

  datatype SummaryError = EmptyPrefix | ContextTooSmall | Summarizer | NotReduced | TooManyRounds

  function Minus(left: nat, right: nat): nat {
    if left < right then 0 else left - right
  }

  /** How many octets one summarizer call may take, from the model's window, its
      output bound, and the room the human focus needs. */
  function InputLimit(window: Option<nat>, maxOutput: Option<nat>, focus: Option<nat>): (limit: nat)
    ensures limit <= MAX_SUMMARIZE_INPUT
  {
    var room :=
      if window.None? then MAX_SUMMARIZE_INPUT
      else
        var reserve := Least(Least(if maxOutput.Some? then maxOutput.value else 2048, 2048), window.value / 4);
        Least(Minus(Minus(window.value, reserve), 1024), MAX_SUMMARIZE_INPUT);
    if focus.Some? then Minus(room, focus.value) else room
  }

  /** Without a focus, the output bound decides how large a window must be: its
      reserve is at most a quarter of the window. */
  lemma WindowIsEnough(window: nat, maxOutput: Option<nat>)
    ensures var bound := Least(if maxOutput.Some? then maxOutput.value else 2048, 2048);
            InputLimit(Some(window), maxOutput, None) >= 256
            <==> window >= 1706 || (1280 <= window && (bound <= window - 1280))
  {
  }

  /** A window of at least 8192 leaves all but 1024 and the output bound, which is
      2048 at most and by default; a smaller one reserves a quarter at most; what the
      focus needs is taken off last, and no window means the largest input. */
  lemma WindowLeaves(window: nat, maxOutput: Option<nat>, focus: nat)
    ensures var left := InputLimit(Some(window), maxOutput, None);
            && (window >= 8_192 && (maxOutput.None? || maxOutput.value >= 2_048) ==>
                  left == Least(window - 3_072, MAX_SUMMARIZE_INPUT))
            && (window >= 8_192 && maxOutput.Some? && maxOutput.value < 2_048 ==>
                  left == Least(window - 1_024 - maxOutput.value, MAX_SUMMARIZE_INPUT))
            && (1_366 <= window < 8_192 && maxOutput.None? ==>
                  left == Least(window - window / 4 - 1_024, MAX_SUMMARIZE_INPUT))
    ensures InputLimit(None, maxOutput, None) == MAX_SUMMARIZE_INPUT
    ensures forall size: Option<nat> ::
              var left := InputLimit(size, maxOutput, None);
              InputLimit(size, maxOutput, Some(focus)) == if focus <= left then left - focus else 0
  {
  }

  function Concat(parts: seq<Text>): Text {
    if parts == [] then [] else Concat(parts[..|parts| - 1]) + parts[|parts| - 1]
  }

  lemma ConcatAppend(parts: seq<Text>, part: Text)
    ensures Concat(parts + [part]) == Concat(parts) + part
  {
    assert (parts + [part])[..|parts|] == parts;
  }

  /** Each part on a line of its own. */
  function Lines(parts: seq<Text>): Text {
    if parts == [] then [] else Lines(parts[..|parts| - 1]) + parts[|parts| - 1] + NEWLINE
  }

  lemma {:induction false} LinesValid(parts: seq<Text>)
    requires forall i :: 0 <= i < |parts| ==> ValidUtf8(parts[i])
    ensures ValidUtf8(Lines(parts))
    decreases |parts|
  {
    if parts != [] {
      LinesValid(parts[..|parts| - 1]);
      JoinValid(Lines(parts[..|parts| - 1]), parts[|parts| - 1]);
      assert CharLength(NEWLINE) == 1 && ValidUtf8(NEWLINE[1..]);
      JoinValid(Lines(parts[..|parts| - 1]) + parts[|parts| - 1], NEWLINE);
    }
  }

  /** Where a part begins when each is followed by one newline. */
  function Offset(parts: seq<Text>, i: nat): nat
    requires i <= |parts|
  {
    if i == 0 then 0 else Offset(parts, i - 1) + |parts[i - 1]| + 1
  }

  /** A text holds the parts, all of them, in order and unchanged, each ended by a
      newline, and nothing else. */
  ghost predicate Holds(text: Text, parts: seq<Text>) {
    |text| == Offset(parts, |parts|) && forall i :: 0 <= i < |parts| ==> Stands(text, parts, i)
  }

  /** One part stands in the text at its own place. */
  predicate Stands(text: Text, parts: seq<Text>, i: nat)
    requires i < |parts|
  {
    var start := Offset(parts, i);
    start + |parts[i]| < |text| && text[start..start + |parts[i]|] == parts[i] && text[start + |parts[i]|] == 0x0a
  }

  lemma {:induction false} OffsetOfPrefix(parts: seq<Text>, n: nat, i: nat)
    requires i <= n <= |parts|
    ensures Offset(parts[..n], i) == Offset(parts, i)
    decreases i
  {
    if i > 0 {
      OffsetOfPrefix(parts, n, i - 1);
    }
  }

  lemma {:induction false} OffsetsAscend(parts: seq<Text>, i: nat, j: nat)
    requires i < j <= |parts|
    ensures Offset(parts, i) + |parts[i]| < Offset(parts, j)
    decreases j
  {
    if i < j - 1 {
      OffsetsAscend(parts, i, j - 1);
    }
  }

  lemma {:induction false} LinesHold(parts: seq<Text>)
    ensures Holds(Lines(parts), parts)
    decreases |parts|
  {
    if parts != [] {
      var n := |parts| - 1;
      var init, before, all := parts[..n], Lines(parts[..n]), Lines(parts);
      LinesHold(init);
      OffsetOfPrefix(parts, n, n);
      assert all == before + (parts[n] + NEWLINE);
      forall i | 0 <= i < |parts| ensures Stands(all, parts, i) {
        if i < n {
          OffsetOfPrefix(parts, n, i);
          OffsetsAscend(parts, i, n);
          assert Stands(before, init, i);
          StandsStill(before, parts[n] + NEWLINE, init, parts, i);
        }
      }
    }
  }

  lemma StandsStill(before: Text, more: Text, init: seq<Text>, parts: seq<Text>, i: nat)
    requires i < |init| <= |parts| && init[i] == parts[i] && Offset(init, i) == Offset(parts, i)
    requires Stands(before, init, i)
    ensures Stands(before + more, parts, i)
  {
    hide Offset;
  }

  /** One reduction round: its excerpt, the pieces it was cut into, the replies. */
  datatype Round = Round(excerpt: Text, chunks: seq<Text>, replies: seq<Text>)

  /** The pieces are the whole excerpt, each a nonempty valid text that fits, and
      no piece but the last could have been a character longer. */
  predicate Complete(round: Round, limit: nat) {
    && Concat(round.chunks) == round.excerpt && |round.replies| == |round.chunks|
    && forall i :: 0 <= i < |round.chunks| ==>
         && 0 < |round.chunks[i]| <= limit && ValidUtf8(round.chunks[i])
         && (i < |round.chunks| - 1 ==> |round.chunks[i]| + 3 >= limit)
  }

  /** Rounds follow each other: the replies of one are the shorter excerpt of the next. */
  ghost predicate Chained(rounds: seq<Round>, last: Text) {
    forall i :: 0 <= i < |rounds| ==> Shrinks(rounds[i], After(rounds, last, i))
  }

  function After(rounds: seq<Round>, last: Text, i: nat): Text {
    if i + 1 < |rounds| then rounds[i + 1].excerpt else last
  }

  ghost predicate Shrinks(round: Round, next: Text) {
    Holds(next, round.replies) && next == Lines(round.replies) && |next| < |round.excerpt|
  }

  lemma NothingChained(last: Text)
    ensures Chained([], last)
  {
  }

  lemma ChainedAppend(rounds: seq<Round>, round: Round, next: Text)
    requires Chained(rounds, round.excerpt) && next == Lines(round.replies) && |next| < |round.excerpt|
    ensures Chained(rounds + [round], next)
  {
    LinesHold(round.replies);
    hide Lines, Holds;
    var all := rounds + [round];
    forall i | 0 <= i < |all| ensures Shrinks(all[i], After(all, next, i)) {
      if i < |rounds| {
        assert Shrinks(rounds[i], After(rounds, round.excerpt, i));
      }
    }
  }

  /** How far an excerpt has been cut into pieces. */
  predicate Cut(excerpt: Text, chunks: seq<Text>, rest: Text, limit: nat) {
    && ValidUtf8(rest) && Concat(chunks) + rest == excerpt
    && forall i :: 0 <= i < |chunks| ==>
         && 0 < |chunks[i]| <= limit && ValidUtf8(chunks[i])
         && (i < |chunks| - 1 || rest != [] ==> |chunks[i]| + 3 >= limit)
  }

  lemma ConcatMore(chunks: seq<Text>, rest: Text, end: nat)
    requires end <= |rest|
    ensures Concat(chunks + [rest[..end]]) + rest[end..] == Concat(chunks) + rest
  {
    ConcatAppend(chunks, rest[..end]);
    assert rest == rest[..end] + rest[end..];
  }

  lemma CutStart(excerpt: Text, limit: nat)
    requires ValidUtf8(excerpt)
    ensures Cut(excerpt, [], excerpt, limit)
  {
    assert Concat([]) + excerpt == excerpt;
  }

  lemma CutDone(excerpt: Text, chunks: seq<Text>, replies: seq<Text>, limit: nat)
    requires Cut(excerpt, chunks, [], limit) && |replies| == |chunks|
    ensures Complete(Round(excerpt, chunks, replies), limit)
  {
    hide Concat, ValidUtf8;
    assert Concat(chunks) + [] == Concat(chunks);
  }

  lemma CutMore(excerpt: Text, chunks: seq<Text>, rest: Text, limit: nat, end: nat)
    requires Cut(excerpt, chunks, rest, limit) && 0 < end <= |rest| && end <= limit && CharBoundary(rest, end)
    requires rest != [] && (end < |rest| ==> end + 3 >= limit)
    ensures Cut(excerpt, chunks + [rest[..end]], rest[end..], limit) && ValidUtf8(rest[..end]) && ValidUtf8(rest[end..])
  {
    hide CharLength, CharBoundary, ValidUtf8, Concat;
    SplitValid(rest, end);
    ConcatMore(chunks, rest, end);
    var all := chunks + [rest[..end]];
    forall i | 0 <= i < |all|
      ensures 0 < |all[i]| <= limit && ValidUtf8(all[i])
      ensures (i < |all| - 1 || rest[end..] != [] ==> |all[i]| + 3 >= limit)
    {
      if i < |chunks| {
        assert all[i] == chunks[i];
      }
    }
  }

  /** The n-th call gives no usable text: none, a blank one, or one too long. */
  predicate Refused(model: (nat, Text) -> Option<Utf8Text>, n: nat, excerpt: Text) {
    model(n, excerpt).None? || Blank(model(n, excerpt).value) || |model(n, excerpt).value| > MAX_SUMMARY_BYTES
  }

  /** A summarizer answers the n-th call with a bounded text that is not blank. */
  method Summarize(model: (nat, Text) -> Option<Utf8Text>, calls: nat, excerpt: Text) returns (reply: Option<Text>)
    ensures reply.Some? ==>
              && model(calls, excerpt) == reply && ValidUtf8(reply.value)
              && !Blank(reply.value) && |reply.value| <= MAX_SUMMARY_BYTES
    ensures reply.None? <==> Refused(model, calls, excerpt)
  {
    reply := model(calls, excerpt);
    if reply.Some? && (Blank(reply.value) || |reply.value| > MAX_SUMMARY_BYTES) {
      reply := None;
    }
  }

  /** The replies are the summarizer's, call by call. */
  predicate Answered(model: (nat, Text) -> Option<Utf8Text>, calls: nat, chunks: seq<Text>, replies: seq<Text>) {
    && |replies| == |chunks|
    && forall i :: 0 <= i < |chunks| ==> ValidUtf8(replies[i]) && model(calls + i, chunks[i]) == Some(replies[i])
  }

  lemma AnsweredMore(
    model: (nat, Text) -> Option<Utf8Text>, calls: nat, chunks: seq<Text>, replies: seq<Text>, chunk: Text, reply: Text)
    requires Answered(model, calls, chunks, replies)
    requires ValidUtf8(reply) && model(calls + |chunks|, chunk) == Some(reply)
    ensures Answered(model, calls, chunks + [chunk], replies + [reply])
  {
    hide ValidUtf8;
  }

  /** How many calls some rounds made: one for each piece. */
  function CallsIn(rounds: seq<Round>): nat {
    if rounds == [] then 0 else CallsIn(rounds[..|rounds| - 1]) + |rounds[|rounds| - 1].chunks|
  }

  /** Every piece of every round was sent, and answered in the order of the calls. */
  ghost predicate AllAnswered(model: (nat, Text) -> Option<Utf8Text>, rounds: seq<Round>) {
    forall i :: 0 <= i < |rounds| ==> Answered(model, CallsIn(rounds[..i]), rounds[i].chunks, rounds[i].replies)
  }

  lemma NothingAnswered(model: (nat, Text) -> Option<Utf8Text>)
    ensures AllAnswered(model, []) && CallsIn([]) == 0
  {
  }

  lemma AllAnsweredMore(model: (nat, Text) -> Option<Utf8Text>, rounds: seq<Round>, round: Round)
    requires AllAnswered(model, rounds) && Answered(model, CallsIn(rounds), round.chunks, round.replies)
    ensures AllAnswered(model, rounds + [round]) && CallsIn(rounds + [round]) == CallsIn(rounds) + |round.chunks|
  {
    hide Answered;
    var all := rounds + [round];
    assert all[..|rounds|] == rounds;
    forall i | 0 <= i < |all| ensures Answered(model, CallsIn(all[..i]), all[i].chunks, all[i].replies) {
      if i < |rounds| {
        assert all[..i] == rounds[..i];
      }
    }
  }

  method Reduce(model: (nat, Text) -> Option<Utf8Text>, calls: nat, excerpt: Text, limit: nat)
    returns (r: Option<Round>, made: nat)
    requires ValidUtf8(excerpt) && limit >= 256
    ensures r.Some? ==> r.value.excerpt == excerpt && Complete(r.value, limit) && ValidUtf8(Lines(r.value.replies))
    ensures r.Some? ==> made == calls + |r.value.chunks|
    ensures r.Some? ==> Answered(model, calls, r.value.chunks, r.value.replies)
    ensures r.None? ==> made >= calls && exists piece :: Refused(model, made, piece) && 0 < |piece| <= limit
  {
    hide Refused, Concat, ValidUtf8, CharLength, Lines, Blank, CharBoundary, Cut, Complete;
    CutStart(excerpt, limit);
    var chunks, replies: seq<Text>, rest := [], [], excerpt;
    made := calls;
    while rest != []
      invariant Cut(excerpt, chunks, rest, limit) && ValidUtf8(rest)
      invariant Answered(model, calls, chunks, replies) && made == calls + |chunks|
      decreases |rest|
    {
      hide Answered;
      var end := CutAt(rest, limit);
      CutMore(excerpt, chunks, rest, limit, end);
      var reply := Summarize(model, made, rest[..end]);
      if reply.None? {
        return None, made;
      }
      AnsweredMore(model, calls, chunks, replies, rest[..end], reply.value);
      chunks, replies, made, rest := chunks + [rest[..end]], replies + [reply.value], made + 1, rest[end..];
    }
    LinesValid(replies);
    CutDone(excerpt, chunks, replies, limit);
    r := Some(Round(excerpt, chunks, replies));
  }

  /** Summarize a transcript. The answer comes with every completed round: what was
      sent to the summarizer, in which call, and what it replied. */
  method PortableSummary(
    model: (nat, Text) -> Option<Utf8Text>, transcript: seq<Utf8Text>, window: Option<nat>, maxOutput: Option<nat>,
    focus: Option<nat>)
    returns (r: Result<Text, SummaryError>, rounds: seq<Round>, last: Text)
    ensures transcript == [] <==> r == Err(EmptyPrefix)
    ensures transcript != [] ==> (InputLimit(window, maxOutput, focus) < 256 <==> r == Err(ContextTooSmall))
    ensures |rounds| <= MAX_ROUNDS && Chained(rounds, last)
    ensures forall i :: 0 <= i < |rounds| ==>
              && Complete(rounds[i], InputLimit(window, maxOutput, focus))
              && |rounds[i].excerpt| > InputLimit(window, maxOutput, focus)
    ensures (if rounds == [] then last else rounds[0].excerpt) == Lines(transcript)
    ensures Holds(if rounds == [] then last else rounds[0].excerpt, transcript)
    ensures AllAnswered(model, rounds)
    ensures r.Ok? ==>
              && |rounds| < MAX_ROUNDS && |last| <= InputLimit(window, maxOutput, focus)
              && !Blank(r.value) && |r.value| <= MAX_SUMMARY_BYTES
              && model(CallsIn(rounds), last) == Some(r.value)
    ensures r == Err(TooManyRounds) <==> |rounds| == MAX_ROUNDS
    ensures r == Err(Summarizer) ==> exists n, piece :: n >= CallsIn(rounds) && Refused(model, n, piece)
    ensures r == Err(NotReduced) ==>
              exists round: Round :: round.excerpt == last && Complete(round, InputLimit(window, maxOutput, focus))
                && Answered(model, CallsIn(rounds), round.chunks, round.replies) && |Lines(round.replies)| >= |last|
  {
    hide Concat, ValidUtf8, CharLength, Lines, Blank, Complete, InputLimit, Answered, AllAnswered, CallsIn,
      Shrinks, Chained, Refused, Holds;
    LinesHold(transcript);
    NothingChained(Lines(transcript));
    LinesValid(transcript);
    rounds, last := [], Lines(transcript);
    NothingAnswered(model);
    if transcript == [] {
      return Err(EmptyPrefix), rounds, last;
    }
    var limit := InputLimit(window, maxOutput, focus);
    if limit < 256 {
      return Err(ContextTooSmall), rounds, last;
    }
    var calls := 0;
    while |rounds| < MAX_ROUNDS
      invariant |rounds| <= MAX_ROUNDS && Chained(rounds, last) && ValidUtf8(last)
      invariant forall i :: 0 <= i < |rounds| ==> Complete(rounds[i], limit) && |rounds[i].excerpt| > limit
      invariant (if rounds == [] then last else rounds[0].excerpt) == Lines(transcript)
      invariant AllAnswered(model, rounds) && calls == CallsIn(rounds)
      decreases MAX_ROUNDS - |rounds|
    {
      if |last| <= limit {
        var reply := Summarize(model, calls, last);
        assert reply.Some? ==> model(CallsIn(rounds), last) == Some(reply.value);
        return if reply.Some? then Ok(reply.value) else Err(Summarizer), rounds, last;
      }
      var round;
      round, calls := Reduce(model, calls, last, limit);
      if round.None? {
        return Err(Summarizer), rounds, last;
      }
      var summaries := Lines(round.value.replies);
      if |summaries| >= |last| {
        return Err(NotReduced), rounds, last;
      }
      AllAnsweredMore(model, rounds, round.value);
      ChainedAppend(rounds, round.value, summaries);
      rounds := rounds + [round.value];
      last := summaries;
    }
    r := Err(TooManyRounds);
  }
}
