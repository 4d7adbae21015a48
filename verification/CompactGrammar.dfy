/** The grammar of the compact command: an optional strategy, an optional keep
    count, and a focus that `--` sets apart from both. */
module CompactGrammar {
  import opened SessionEvents
  import opened Decimals
  import U = Utf8

  const DEFAULT_STRATEGY: string := "portable-summary"
  const DEFAULT_KEEP: nat := 2

  datatype Action = ListStrategies | Run(strategy: string, keep: nat, focus: Option<string>)

  datatype ParseError = Usage | InvalidKeep | EmptyFocus

  /** White space, as Unicode defines it. */
  predicate White(c: char) {
    || '\U{9}' <= c <= '\U{D}' || c == ' ' || c == '\U{85}' || c == '\U{A0}' || c == '\U{1680}'
    || '\U{2000}' <= c <= '\U{200A}' || c == '\U{2028}' || c == '\U{2029}' || c == '\U{202F}' || c == '\U{205F}'
      || c == '\U{3000}'
  }

  /** A character is white space exactly if its octets are, as an encoded text. */
  lemma WhiteIsBlank(c: char, t: Text)
    requires t != [] && |t| == U.CharLength(t)
    requires c as int == match |t|
                         case 1 => t[0] as int
                         case 2 => (t[0] as int - 0xc0) * 0x40 + (t[1] as int - 0x80)
                         case 3 => (t[0] as int - 0xe0) * 0x1000 + (t[1] as int - 0x80) * 0x40 + (t[2] as int - 0x80)
                         case _ => (t[0] as int - 0xf0) * 0x40000 + (t[1] as int - 0x80) * 0x1000
                                   + (t[2] as int - 0x80) * 0x40 + (t[3] as int - 0x80)
    ensures White(c) <==> U.Blank(t)
  {
    U.FirstCharacter(t);
    assert t[|t|..] == [];
    U.BlankStep(t);
    if |t| == 3 {
      U.SpacePoints(t[0], t[1], t[2]);
    } else if |t| == 4 {
      U.CodePoints(t[0], t[1], t[2], t[3]);
    }
  }

  predicate NoWhite(s: string) {
    forall i :: 0 <= i < |s| ==> !White(s[i])
  }

  function TrimStart(s: string): string {
    if s != "" && White(s[0]) then TrimStart(s[1..]) else s
  }

  function TrimEnd(s: string): string {
    if s != "" && White(s[|s| - 1]) then TrimEnd(s[..|s| - 1]) else s
  }

  function Trim(s: string): string {
    TrimEnd(TrimStart(s))
  }

  /** Length of the leading run without white space. */
  function TokenLength(s: string): (n: nat)
    ensures n <= |s|
  {
    if s == "" || White(s[0]) then 0 else 1 + TokenLength(s[1..])
  }

  function SplitFirst(input: string): (string, string) {
    var s := TrimStart(input);
    (s[..TokenLength(s)], TrimStart(s[TokenLength(s)..]))
  }

  predicate LooksLikeInteger(value: string) {
    var digits := if value != "" && (value[0] == '+' || value[0] == '-') then value[1..] else value;
    digits != "" && AllDigits(digits)
  }

  /** An unsigned 64-bit numeral: digits after at most one plus sign. */
  function ParseU64(value: string): Option<nat> {
    var digits := if value != "" && value[0] == '+' then value[1..] else value;
    if digits == "" || !AllDigits(digits) || Value(digits) > U64_MAX then None else Some(Value(digits))
  }

  function PositiveKeep(value: string): Result<nat, ParseError> {
    var keep := ParseU64(value);
    if keep.Some? && keep.value > 0 then Ok(keep.value) else Err(InvalidKeep)
  }

  function ParseFocus(text: string): Result<Option<string>, ParseError> {
    var input := Trim(text);
    if input == "" then Ok(None)
    else
      var (first, remainder) := SplitFirst(input);
      if first != "--" then Ok(Some(input))
      else if remainder == "" then Err(EmptyFocus) else Ok(Some(remainder))
  }

  function WithFocus(strategy: string, keep: Result<nat, ParseError>, rest: string): Result<Action, ParseError> {
    if keep.Err? then Err(keep.error)
    else
      var focus := ParseFocus(rest);
      if focus.Err? then Err(focus.error) else Ok(Run(strategy, keep.value, focus.value))
  }

  function Parse(args: string, strategies: set<string>): Result<Action, ParseError> {
    var input := Trim(args);
    if input == "" then Ok(Run(DEFAULT_STRATEGY, DEFAULT_KEEP, None))
    else
      var (first, afterFirst) := SplitFirst(input);
      if first == "list" then (if afterFirst != "" then Err(Usage) else Ok(ListStrategies))
      else if first in strategies then
        var (candidate, remainder) := SplitFirst(afterFirst);
        if afterFirst != "" && LooksLikeInteger(candidate) then WithFocus(first, PositiveKeep(candidate), remainder)
        else WithFocus(first, Ok(DEFAULT_KEEP), afterFirst)
      else if LooksLikeInteger(first) then WithFocus(DEFAULT_STRATEGY, PositiveKeep(first), afterFirst)
      else WithFocus(DEFAULT_STRATEGY, Ok(DEFAULT_KEEP), input)
  }

  // ---- trimming and splitting ----

  predicate Trimmed(s: string) {
    s == "" || (!White(s[0]) && !White(s[|s| - 1]))
  }

  lemma TrimTrimmed(s: string)
    requires Trimmed(s)
    ensures Trim(s) == s && TrimStart(s) == s
  {
  }

  lemma {:induction false} TrimStartKeeps(s: string)
    ensures TrimStart(s) == "" || !White(TrimStart(s)[0])
    ensures s != "" && !White(s[|s| - 1]) ==> TrimStart(s) != "" && TrimStart(s)[|TrimStart(s)| - 1] == s[|s| - 1]
    ensures |TrimStart(s)| <= |s|
    decreases |s|
  {
    if s != "" && White(s[0]) {
      TrimStartKeeps(s[1..]);
    }
  }

  lemma {:induction false} TokenThenSpace(token: string, rest: string)
    requires NoWhite(token)
    ensures TokenLength(token + " " + rest) == |token| && TokenLength(token) == |token|
    decreases |token|
  {
    if token == "" {
      assert (token + " " + rest)[0] == ' ';
    } else {
      assert (token + " " + rest)[1..] == token[1..] + " " + rest;
      TokenThenSpace(token[1..], rest);
    }
  }

  /** A token, one space and a trimmed text split where they were joined. */
  lemma SplitJoined(token: string, rest: string)
    requires token != "" && NoWhite(token) && rest != "" && Trimmed(rest)
    ensures SplitFirst(token + " " + rest) == (token, rest) && SplitFirst(token) == (token, "")
    ensures Trimmed(token + " " + rest) && Trimmed(token)
  {
    var s := token + " " + rest;
    assert s[0] == token[0] && s[|s| - 1] == rest[|rest| - 1];
    TokenThenSpace(token, rest);
    TrimTrimmed(s);
    TrimTrimmed(token);
    TrimTrimmed(rest);
    assert s[..|token|] == token && s[|token|..] == " " + rest;
    assert (" " + rest)[1..] == rest;
    assert TrimStart(" " + rest) == TrimStart(rest);
    assert token[..|token|] == token && token[|token|..] == "";
  }

  // ---- numerals ----

  lemma KeepVerdict(keep: nat)
    ensures var text := Render(keep);
            && text != "" && NoWhite(text) && LooksLikeInteger(text) && text != "list"
            && PositiveKeep(text) == (if 0 < keep <= U64_MAX then Ok(keep) else Err(InvalidKeep))
  {
    var text := Render(keep);
    ValueRender(keep);
    assert text[0] != '+' && text[0] != '-' && text[0] != 'l' by { assert IsDigit(text[0]); }
    forall i | 0 <= i < |text| ensures !White(text[i]) {
      assert IsDigit(text[i]);
    }
  }

  // ---- round trips ----

  lemma FocusAfterDashes(focus: string)
    requires focus != "" && Trimmed(focus)
    ensures ParseFocus("-- " + focus) == Ok(Some(focus)) && Trimmed("-- " + focus) && ParseFocus("") == Ok(None)
  {
    assert "-- " + focus == "--" + " " + focus;
    SplitJoined("--", focus);
    TrimTrimmed("--" + " " + focus);
  }

  /** How an action is written: the focus, if any, after two dashes. */
  function Written(strategy: string, keep: nat, focus: Option<string>): string {
    strategy + " " + (if focus.None? then Render(keep) else Render(keep) + " " + ("-- " + focus.value))
  }

  /** Written with its keep count, and with dashes before the focus, an action is
      read back exactly, whatever words the focus holds. */
  lemma CompactRoundTrip(strategy: string, keep: nat, focus: Option<string>, strategies: set<string>)
    requires strategy in strategies && strategy != "" && strategy != "list" && NoWhite(strategy)
    requires 0 < keep <= U64_MAX && (focus.Some? ==> focus.value != "" && Trimmed(focus.value))
    ensures Parse(Written(strategy, keep, focus), strategies) == Ok(Run(strategy, keep, focus))
  {
    hide TrimStart, TrimEnd, TokenLength, Render, ParseFocus, PositiveKeep, LooksLikeInteger, Trim, SplitFirst;
    KeepVerdict(keep);
    var number := Render(keep);
    var rest := if focus.None? then number else number + " " + ("-- " + focus.value);
    if focus.Some? {
      FocusAfterDashes(focus.value);
      SplitJoined(number, "-- " + focus.value);
    } else {
      FocusAfterDashes("x");
      SplitJoined(number, "x");
    }
    SplitJoined(strategy, rest);
    TrimTrimmed(strategy + " " + rest);
  }

  /** Without dashes a focus after a keep count is read back exactly unless it
      starts with the dashes itself. */
  lemma BareFocusAfterKeep(strategy: string, keep: nat, focus: string, strategies: set<string>)
    requires strategy in strategies && strategy != "" && strategy != "list" && NoWhite(strategy)
    requires 0 < keep <= U64_MAX && focus != "" && Trimmed(focus)
    ensures Parse(strategy + " " + (Render(keep) + " " + focus), strategies) == Ok(Run(strategy, keep, Some(focus)))
            <==> SplitFirst(focus).0 != "--"
  {
    hide TrimStart, TrimEnd, TokenLength, Render, PositiveKeep, LooksLikeInteger, Trim;
    KeepVerdict(keep);
    SplitJoined(Render(keep), focus);
    SplitJoined(strategy, Render(keep) + " " + focus);
    TrimTrimmed(strategy + " " + (Render(keep) + " " + focus));
    TrimTrimmed(focus);
    RemainderIsShorter(focus);
  }

  lemma RemainderIsShorter(focus: string)
    requires focus != "" && Trimmed(focus)
    ensures |SplitFirst(focus).1| < |focus| && |SplitFirst(focus).0| > 0
  {
    TrimTrimmed(focus);
    TrimStartKeeps(focus[TokenLength(focus)..]);
  }

  /** Without a keep count, a bare focus after a strategy survives exactly when its
      first word is neither an integer nor the dashes. */
  lemma BareFocusAfterStrategy(strategy: string, focus: string, strategies: set<string>)
    requires strategy in strategies && strategy != "" && strategy != "list" && NoWhite(strategy)
    requires focus != "" && Trimmed(focus)
    ensures Parse(strategy + " " + focus, strategies) == Ok(Run(strategy, DEFAULT_KEEP, Some(focus)))
            <==> !LooksLikeInteger(SplitFirst(focus).0) && SplitFirst(focus).0 != "--"
  {
    hide TrimStart, TrimEnd, TokenLength, PositiveKeep, LooksLikeInteger, Trim;
    SplitJoined(strategy, focus);
    TrimTrimmed(strategy + " " + focus);
    TrimTrimmed(focus);
    RemainderIsShorter(focus);
    ShorterFocus(SplitFirst(focus).1);
  }

  /** What focus parsing returns is never longer than what it read. */
  lemma ShorterFocus(text: string)
    ensures ParseFocus(text).Ok? && ParseFocus(text).value.Some? ==> |ParseFocus(text).value.value| <= |text|
  {
    TrimStartKeeps(text);
    TrimEndShorter(TrimStart(text));
    TrimStartKeeps(Trim(text));
    var s := TrimStart(Trim(text));
    TrimStartKeeps(s[TokenLength(s)..]);
  }

  lemma {:induction false} TrimEndShorter(s: string)
    ensures |TrimEnd(s)| <= |s|
    decreases |s|
  {
    if s != "" && White(s[|s| - 1]) {
      TrimEndShorter(s[..|s| - 1]);
    }
  }

  /** A focus by itself survives exactly when its first word is not a command word. */
  lemma BareFocusAlone(focus: string, strategies: set<string>)
    requires focus != "" && Trimmed(focus)
    ensures Parse(focus, strategies) == Ok(Run(DEFAULT_STRATEGY, DEFAULT_KEEP, Some(focus)))
            <==> var first := SplitFirst(focus).0;
                 first != "list" && first !in strategies && !LooksLikeInteger(first) && first != "--"
  {
    hide TrimStart, TrimEnd, TokenLength, PositiveKeep, LooksLikeInteger, Trim, ParseFocus;
    TrimTrimmed(focus);
    RemainderIsShorter(focus);
    var (first, rest) := SplitFirst(focus);
    ShorterFocus(rest);
    RemainderShorterAgain(rest);
    FocusItself(focus);
  }

  lemma FocusItself(focus: string)
    requires focus != "" && Trimmed(focus)
    ensures ParseFocus(focus) == Ok(Some(focus)) <==> SplitFirst(focus).0 != "--"
  {
    TrimTrimmed(focus);
    RemainderIsShorter(focus);
  }

  lemma RemainderShorterAgain(rest: string)
    ensures var (candidate, remainder) := SplitFirst(rest);
            ParseFocus(remainder).Ok? && ParseFocus(remainder).value.Some? ==>
              |ParseFocus(remainder).value.value| <= |rest|
  {
    TrimStartKeeps(rest);
    var s := TrimStart(rest);
    TrimStartKeeps(s[TokenLength(s)..]);
    ShorterFocus(SplitFirst(rest).1);
  }

  // ---- the short forms ----

  predicate AllWhite(s: string) {
    forall i :: 0 <= i < |s| ==> White(s[i])
  }

  lemma {:induction false} TrimStartPadded(pad: string, s: string)
    requires AllWhite(pad)
    ensures TrimStart(pad + s) == TrimStart(s)
    decreases |pad|
  {
    if pad == "" {
      assert pad + s == s;
    } else {
      assert (pad + s)[0] == pad[0] && (pad + s)[1..] == pad[1..] + s;
      TrimStartPadded(pad[1..], s);
    }
  }

  lemma {:induction false} TrimEndPadded(s: string, pad: string)
    requires AllWhite(pad)
    ensures TrimEnd(s + pad) == TrimEnd(s)
    decreases |pad|
  {
    if pad == "" {
      assert s + pad == s;
    } else {
      var n := |s + pad| - 1;
      assert (s + pad)[n] == pad[|pad| - 1] && (s + pad)[..n] == s + pad[..|pad| - 1];
      TrimEndPadded(s, pad[..|pad| - 1]);
    }
  }

  /** White space around the arguments never matters. */
  lemma ParsePadded(before: string, args: string, after: string, strategies: set<string>)
    requires AllWhite(before) && AllWhite(after) && Trimmed(args)
    ensures Parse(before + args + after, strategies) == Parse(args, strategies)
  {
    hide WithFocus, SplitFirst, LooksLikeInteger, PositiveKeep;
    assert before + args + after == before + (args + after);
    TrimStartPadded(before, args + after);
    TrimTrimmed(args);
    if args == "" {
      assert args + after == after + "";
      TrimStartPadded(after, "");
    } else {
      assert (args + after)[0] == args[0];
      TrimEndPadded(args, after);
    }
  }

  /** Empty arguments ask for the default strategy and keep count, without a focus. */
  lemma EmptyIsDefault(args: string, strategies: set<string>)
    requires AllWhite(args)
    ensures Parse(args, strategies) == Ok(Run("portable-summary", 2, None))
  {
    ParsePadded(args, "", "", strategies);
    assert args + "" + "" == args;
  }

  /** The word `list` by itself, and only that, lists the strategies; followed by
      anything it is a usage error, whatever the strategies are called. */
  lemma OnlyListLists(args: string, strategies: set<string>)
    requires Trimmed(args) && args != ""
    ensures Parse(args, strategies) == Ok(ListStrategies) <==> args == "list"
    ensures Parse(args, strategies) == Err(Usage) <==> SplitFirst(args).0 == "list" && args != "list"
    ensures Parse("list " + args, strategies) == Err(Usage)
  {
    hide TrimStart, TrimEnd, TokenLength, Trim, SplitFirst;
    TrimTrimmed(args);
    SplitJoined("list", args);
    assert "list " + args == "list" + " " + args;
    TrimTrimmed("list " + args);
    OneToken(args);
  }

  /** Nothing follows the first token exactly if it is the whole text. */
  lemma OneToken(args: string)
    requires Trimmed(args) && args != ""
    ensures SplitFirst(args).1 == "" <==> SplitFirst(args).0 == args
  {
    TrimTrimmed(args);
    var n := TokenLength(args);
    if n < |args| {
      TrimStartKeeps(args[n..]);
    }
  }

  /** A keep count by itself, or after a strategy, or with a focus behind dashes:
      zero and more than 64 bits are refused, every other count is taken. */
  lemma LoneKeep(keep: nat, strategy: string, focus: string, strategies: set<string>)
    requires Render(keep) !in strategies && focus != "" && Trimmed(focus)
    requires strategy in strategies && strategy != "" && strategy != "list" && NoWhite(strategy)
    ensures var valid := 0 < keep <= U64_MAX;
            && Parse(Render(keep), strategies)
               == (if valid then Ok(Run("portable-summary", keep, None)) else Err(InvalidKeep))
            && Parse(Render(keep) + " " + ("-- " + focus), strategies)
               == (if valid then Ok(Run("portable-summary", keep, Some(focus))) else Err(InvalidKeep))
            && Parse(strategy + " " + Render(keep), strategies)
               == (if valid then Ok(Run(strategy, keep, None)) else Err(InvalidKeep))
    ensures Parse(strategy, strategies) == Ok(Run(strategy, 2, None))
  {
    hide TrimStart, TrimEnd, TokenLength, Render, ParseFocus, PositiveKeep, LooksLikeInteger, Trim, SplitFirst;
    KeepVerdict(keep);
    FocusAfterDashes(focus);
    SplitJoined(Render(keep), "-- " + focus);
    TrimTrimmed(Render(keep));
    TrimTrimmed(Render(keep) + " " + ("-- " + focus));
    SplitJoined(strategy, Render(keep));
    TrimTrimmed(strategy + " " + Render(keep));
    TrimTrimmed(strategy);
  }

  /** Signed numerals: a plus sign is no more than the count, a minus sign refuses. */
  lemma SignedKeep(keep: nat, strategies: set<string>)
    requires "+" + Render(keep) !in strategies && "-" + Render(keep) !in strategies && Render(keep) !in strategies
    ensures Parse("+" + Render(keep), strategies) == Parse(Render(keep), strategies)
    ensures Parse("-" + Render(keep), strategies) == Err(InvalidKeep)
  {
    hide TrimStart, TrimEnd, TokenLength, Render, ParseFocus, Trim, SplitFirst;
    KeepVerdict(keep);
    var text := Render(keep);
    var plus, minus := "+" + text, "-" + text;
    assert plus[1..] == text && minus[1..] == text;
    SplitJoined(text, "x");
    SplitJoined(plus, "x");
    SplitJoined(minus, "x");
    TrimTrimmed(text);
    TrimTrimmed(plus);
    TrimTrimmed(minus);
    FocusAfterDashes("x");
  }

  /** An integer word is digits only, after at most one sign. */
  lemma IntegerWord(word: string)
    ensures LooksLikeInteger(word) <==>
              && word != "" && (IsDigit(word[0]) || (word[0] in {'+', '-'} && |word| > 1))
              && forall i :: 0 < i < |word| ==> IsDigit(word[i])
  {
    if word != "" {
      assert forall i :: 0 < i < |word| ==> word[1..][i - 1] == word[i];
    }
  }
}
