/** Deferred tool selection: the union of client schemas and native routes, a
    stable choice of the best matches, and a filter that keeps them in order. */
module DeferredTools {
  import opened SessionEvents
  import opened Sequences

  const MAX_CATALOG_ENTRIES: nat := 16_384
  const MAX_SELECTIONS: nat := 256

  datatype ToolKind = Client | ProviderNative | Mcp

  datatype Spec = Spec(name: string, description: string, schema: string, schemaIsObject: bool)

  datatype Route = Route(logical: string, kind: ToolKind)

  datatype Entry = Entry(name: string, description: string, schema: Option<string>, kind: ToolKind)

  datatype ToolError =
    | InvalidToolName | InvalidToolSchema | DuplicateCatalogName | DuplicateNativeRoute | CatalogTooLarge
    | SelectionTooLarge | DuplicateSelection | UnknownSelection | Canceled

  /** What the text library decides: safe names, lower case, letters and digits. */
  datatype TextRules = TextRules(safe: string -> bool, lower: string -> string, alphanumeric: char -> bool)

  predicate Distinct(names: seq<string>) {
    forall i, j :: 0 <= i < j < |names| ==> names[i] != names[j]
  }

  function Names(entries: seq<Entry>): seq<string> {
    seq(|entries|, i requires 0 <= i < |entries| => entries[i].name)
  }

  function SpecNames(specs: seq<Spec>): seq<string> {
    seq(|specs|, i requires 0 <= i < |specs| => specs[i].name)
  }

  function RouteNames(routes: seq<Route>): seq<string> {
    seq(|routes|, i requires 0 <= i < |routes| => routes[i].logical)
  }

  // ---- the catalog ----

  /** The kind a name has: its route's, or a plain client tool's. */
  function KindOf(routes: seq<Route>, name: string): ToolKind {
    if routes == [] then Client
    else if routes[|routes| - 1].logical == name then routes[|routes| - 1].kind
    else KindOf(routes[..|routes| - 1], name)
  }

  /** Client tools first, with the kind their route gives them. */
  function ClientRows(specs: seq<Spec>, routes: seq<Route>): seq<Entry> {
    seq(|specs|, i requires 0 <= i < |specs| =>
      Entry(specs[i].name, specs[i].description, Some(specs[i].schema), KindOf(routes, specs[i].name)))
  }

  /** Then the routes that no client tool carries. */
  function RouteRows(specs: seq<Spec>, routes: seq<Route>): seq<Entry> {
    if routes == [] then []
    else
      var last := routes[|routes| - 1];
      RouteRows(specs, routes[..|routes| - 1])
      + (if last.logical in SpecNames(specs) then [] else [Entry(last.logical, "", None, last.kind)])
  }

  function Union(specs: seq<Spec>, routes: seq<Route>): seq<Entry> {
    ClientRows(specs, routes) + RouteRows(specs, routes)
  }

  predicate Acceptable(rules: TextRules, specs: seq<Spec>, routes: seq<Route>) {
    && (forall i :: 0 <= i < |specs| ==> rules.safe(specs[i].name) && specs[i].schemaIsObject)
    && Distinct(SpecNames(specs))
    && (forall i :: 0 <= i < |routes| ==> rules.safe(routes[i].logical))
    && Distinct(RouteNames(routes))
    && |Union(specs, routes)| <= MAX_CATALOG_ENTRIES
  }

  lemma {:induction false} RouteRowNames(specs: seq<Spec>, routes: seq<Route>, name: string)
    ensures name in Names(RouteRows(specs, routes)) <==> name in RouteNames(routes) && name !in SpecNames(specs)
    decreases |routes|
  {
    if routes != [] {
      var init, last := routes[..|routes| - 1], routes[|routes| - 1];
      RouteRowNames(specs, init, name);
      assert RouteNames(routes) == RouteNames(init) + [last.logical];
      var added := if last.logical in SpecNames(specs) then [] else [Entry(last.logical, "", None, last.kind)];
      assert Names(RouteRows(specs, routes)) == Names(RouteRows(specs, init)) + Names(added);
      assert Names(added) == if last.logical in SpecNames(specs) then [] else [last.logical];
    }
  }

  lemma DistinctConcat(left: seq<string>, right: seq<string>)
    requires Distinct(left) && Distinct(right) && forall name :: name in left ==> name !in right
    ensures Distinct(left + right)
  {
    var all := left + right;
    forall i, j | 0 <= i < j < |all| ensures all[i] != all[j] {
      if i < |left| <= j {
        assert left[i] in left && right[j - |left|] in right;
      }
    }
  }

  lemma {:induction false} RouteRowsDistinct(specs: seq<Spec>, routes: seq<Route>)
    requires Distinct(RouteNames(routes))
    ensures Distinct(Names(RouteRows(specs, routes)))
    decreases |routes|
  {
    if routes != [] {
      var init, last := routes[..|routes| - 1], routes[|routes| - 1];
      assert RouteNames(routes) == RouteNames(init) + [last.logical];
      assert Distinct(RouteNames(init)) by {
        assert forall i :: 0 <= i < |init| ==> RouteNames(init)[i] == RouteNames(routes)[i];
      }
      RouteRowsDistinct(specs, init);
      RouteRowNames(specs, init, last.logical);
      var added := if last.logical in SpecNames(specs) then [] else [Entry(last.logical, "", None, last.kind)];
      assert Names(RouteRows(specs, routes)) == Names(RouteRows(specs, init)) + Names(added);
      assert Names(added) == if last.logical in SpecNames(specs) then [] else [last.logical];
      LastIsNew(RouteNames(init), last.logical);
      DistinctConcat(Names(RouteRows(specs, init)), Names(added));
    }
  }

  lemma LastIsNew(names: seq<string>, last: string)
    requires Distinct(names + [last])
    ensures last !in names
  {
    var all := names + [last];
    assert all[|names|] == last;
    assert forall i :: 0 <= i < |names| ==> all[i] == names[i] && all[i] != all[|names|];
  }

  /** Every name occurs once in an accepted catalog, and every name is one that
      a client tool or a route brought in. */
  lemma UnionIsDistinct(rules: TextRules, specs: seq<Spec>, routes: seq<Route>)
    requires Acceptable(rules, specs, routes)
    ensures Distinct(Names(Union(specs, routes)))
    ensures forall name :: name in Names(Union(specs, routes)) <==>
              name in SpecNames(specs) || name in RouteNames(routes)
    ensures forall i :: 0 <= i < |Union(specs, routes)| ==> rules.safe(Union(specs, routes)[i].name)
  {
    RouteRowsDistinct(specs, routes);
    forall name
      ensures name in Names(RouteRows(specs, routes)) <==> name in RouteNames(routes) && name !in SpecNames(specs)
    {
      RouteRowNames(specs, routes, name);
    }
    assert Names(ClientRows(specs, routes)) == SpecNames(specs);
    assert Names(Union(specs, routes)) == SpecNames(specs) + Names(RouteRows(specs, routes));
    DistinctConcat(SpecNames(specs), Names(RouteRows(specs, routes)));
    hide RouteRows, ClientRows;
    forall i | 0 <= i < |Union(specs, routes)| ensures rules.safe(Union(specs, routes)[i].name) {
      var name := Union(specs, routes)[i].name;
      assert Names(Union(specs, routes))[i] == name;
      if name in SpecNames(specs) {
        var j :| 0 <= j < |specs| && SpecNames(specs)[j] == name;
      } else {
        assert name in RouteNames(routes);
        var j :| 0 <= j < |routes| && RouteNames(routes)[j] == name;
      }
    }
  }

  /** Build the catalog row by row; a route of a client tool replaces its kind. */
  method NewCatalog(rules: TextRules, specs: seq<Spec>, routes: seq<Route>) returns (r: Result<seq<Entry>, ToolError>)
    ensures r.Ok? <==> Acceptable(rules, specs, routes)
    ensures r.Ok? ==> r.value == Union(specs, routes)
  {
    var entries: seq<Entry> := [];
    for i := 0 to |specs|
      invariant entries == ClientRows(specs[..i], []) && Distinct(SpecNames(specs[..i]))
      invariant forall j :: 0 <= j < i ==> rules.safe(specs[j].name) && specs[j].schemaIsObject
    {
      var spec := specs[i];
      if !rules.safe(spec.name) {
        return Err(InvalidToolName);
      }
      if !spec.schemaIsObject {
        return Err(InvalidToolSchema);
      }
      assert SpecNames(specs[..i + 1]) == SpecNames(specs[..i]) + [spec.name];
      if spec.name in SpecNames(specs[..i]) {
        DuplicateName(SpecNames(specs), SpecNames(specs[..i]), i);
        return Err(DuplicateCatalogName);
      }
      entries := entries + [Entry(spec.name, spec.description, Some(spec.schema), Client)];
      assert entries == ClientRows(specs[..i + 1], []);
    }
    assert specs[..|specs|] == specs;
    r := AddRoutes(rules, specs, routes, entries);
  }

  lemma DuplicateName(names: seq<string>, before: seq<string>, i: nat)
    requires i < |names| && |before| == i && (forall j :: 0 <= j < i ==> before[j] == names[j]) && names[i] in before
    ensures !Distinct(names)
  {
  }

  method AddRoutes(rules: TextRules, specs: seq<Spec>, routes: seq<Route>, clients: seq<Entry>)
    returns (r: Result<seq<Entry>, ToolError>)
    requires clients == ClientRows(specs, []) && Distinct(SpecNames(specs))
    requires forall j :: 0 <= j < |specs| ==> rules.safe(specs[j].name) && specs[j].schemaIsObject
    ensures r.Ok? <==> Acceptable(rules, specs, routes)
    ensures r.Ok? ==> r.value == Union(specs, routes)
  {
    var entries := clients;
    assert entries == Union(specs, []);
    for i := 0 to |routes|
      invariant entries == Union(specs, routes[..i]) && Distinct(RouteNames(routes[..i]))
      invariant forall j :: 0 <= j < i ==> rules.safe(routes[j].logical)
    {
      var route := routes[i];
      if !rules.safe(route.logical) {
        return Err(DuplicateNativeRoute);
      }
      if route.logical in RouteNames(routes[..i]) {
        DuplicateName(RouteNames(routes), RouteNames(routes[..i]), i);
        return Err(DuplicateNativeRoute);
      }
      assert RouteNames(routes[..i + 1]) == RouteNames(routes[..i]) + [route.logical];
      var position := Position(SpecNames(specs), route.logical);
      UnionMore(specs, routes[..i], route, position);
      assert routes[..i + 1] == routes[..i] + [route];
      if position < |specs| {
        entries := entries[position := entries[position].(kind := route.kind)];
      } else {
        entries := entries + [Entry(route.logical, "", None, route.kind)];
      }
    }
    assert routes[..|routes|] == routes;
    if |entries| > MAX_CATALOG_ENTRIES {
      return Err(CatalogTooLarge);
    }
    r := Ok(entries);
  }

  method Position(names: seq<string>, name: string) returns (position: nat)
    ensures position <= |names| && (position < |names| ==> names[position] == name)
    ensures position == |names| <==> name !in names
  {
    position := 0;
    while position < |names| && names[position] != name
      invariant position <= |names| && name !in names[..position]
    {
      position := position + 1;
      assert names[..position] == names[..position - 1] + [names[position - 1]];
    }
    assert position == |names| ==> names[..position] == names;
  }

  lemma UnionMore(specs: seq<Spec>, routes: seq<Route>, route: Route, position: nat)
    requires Distinct(SpecNames(specs)) && position <= |specs|
    requires position < |specs| ==> specs[position].name == route.logical
    requires position == |specs| <==> route.logical !in SpecNames(specs)
    ensures var before, after := Union(specs, routes), Union(specs, routes + [route]);
            && |before| >= |specs|
            && after == if position < |specs| then before[position := before[position].(kind := route.kind)]
                        else before + [Entry(route.logical, "", None, route.kind)]
  {
    var more := routes + [route];
    assert more[..|routes|] == routes;
    forall i | 0 <= i < |specs|
      ensures KindOf(more, specs[i].name) == if i == position then route.kind else KindOf(routes, specs[i].name)
    {
      assert SpecNames(specs)[i] == specs[i].name;
      if i != position && position < |specs| {
        assert SpecNames(specs)[position] == route.logical;
      }
    }
    var clients := ClientRows(specs, routes);
    assert ClientRows(specs, more)
      == if position < |specs| then clients[position := clients[position].(kind := route.kind)] else clients;
    assert RouteRows(specs, more)
      == RouteRows(specs, routes) + (if position < |specs| then [] else [Entry(route.logical, "", None, route.kind)]);
  }

  // ---- lexical scores ----

  /** The words of a text: maximal runs of letters and digits. */
  function Words(rules: TextRules, text: string): (words: seq<string>)
    ensures forall i :: 0 <= i < |words| ==> words[i] != ""
  {
    var (before, open) := WordsFrom(rules, text);
    if open == "" then before else before + [open]
  }

  function WordsFrom(rules: TextRules, text: string): (r: (seq<string>, string))
    ensures forall i :: 0 <= i < |r.0| ==> r.0[i] != ""
  {
    if text == "" then ([], "")
    else
      var (before, open) := WordsFrom(rules, text[..|text| - 1]);
      var last := text[|text| - 1];
      if rules.alphanumeric(last) then (before, open + [last])
      else if open == "" then (before, "") else (before + [open], "")
  }

  function LoweredTerms(words: seq<string>, rules: TextRules): seq<string> {
    if words == [] then []
    else
      var before := LoweredTerms(words[..|words| - 1], rules);
      var term := rules.lower(words[|words| - 1]);
      if term in before then before else before + [term]
  }

  function Terms(rules: TextRules, query: string): seq<string> {
    LoweredTerms(Words(rules, query), rules)
  }

  function TermScore(rules: TextRules, entry: Entry, term: string): nat {
    var name, description := rules.lower(entry.name), rules.lower(entry.description);
    (if name == term then 1_000 else if Contains(name, term) then 100 else 0)
    + (if term in Words(rules, description) then 10 else if Contains(description, term) then 1 else 0)
  }

  function Score(rules: TextRules, entry: Entry, terms: seq<string>): nat {
    if terms == [] then 0
    else
      var sum := Score(rules, entry, terms[..|terms| - 1]) + TermScore(rules, entry, terms[|terms| - 1]);
      if sum > U64_MAX then U64_MAX else sum
  }

  /** A word stands at a place: letters and digits only, and none just outside. */
  ghost predicate WordAt(rules: TextRules, text: string, i: int, j: int) {
    && 0 <= i < j <= |text|
    && (forall k :: i <= k < j ==> rules.alphanumeric(text[k]))
    && (i == 0 || !rules.alphanumeric(text[i - 1]))
    && (j == |text| || !rules.alphanumeric(text[j]))
  }

  /** Exactly the maximal runs of letters and digits are words. */
  lemma WordsAre(rules: TextRules, text: string, word: string)
    ensures word in Words(rules, text) <==> exists i, j :: WordAt(rules, text, i, j) && text[i..j] == word
  {
    var start := OpenRun(rules, text);
    ClosedWords(rules, text, word);
    assert word in WordsFrom(rules, text).0 <==> Ended(rules, text, word);
    var (before, open) := WordsFrom(rules, text);
    var n := |text|;
    if open != "" {
      assert WordAt(rules, text, start, n) && text[start..n] == open;
    }
    if i, j :| WordAt(rules, text, i, j) && text[i..j] == word && j == n {
      LastWord(rules, text, i);
    }
  }

  /** The run that is still open reaches back as far as it can. */
  lemma {:induction false} OpenRun(rules: TextRules, text: string) returns (start: nat)
    ensures start <= |text| && WordsFrom(rules, text).1 == text[start..]
    ensures forall k :: start <= k < |text| ==> rules.alphanumeric(text[k])
    ensures start > 0 ==> !rules.alphanumeric(text[start - 1])
    decreases |text|
  {
    start := 0;
    if text != "" {
      start := OpenRun(rules, text[..|text| - 1]);
      if !rules.alphanumeric(text[|text| - 1]) {
        start := |text|;
      }
    }
  }

  lemma LastWord(rules: TextRules, text: string, i: int)
    requires WordAt(rules, text, i, |text|)
    ensures WordsFrom(rules, text).1 == text[i..]
  {
    var start := OpenRun(rules, text);
    if i < start {
      assert false;
    }
  }

  ghost predicate Ended(rules: TextRules, text: string, word: string) {
    exists i, j :: 0 <= i < j < |text| && WordAt(rules, text, i, j) && text[i..j] == word
  }

  /** The words that end before the text does. */
  lemma {:induction false} ClosedWords(rules: TextRules, text: string, word: string)
    ensures word in WordsFrom(rules, text).0 <==> Ended(rules, text, word)
    decreases |text|
  {
    if text != "" {
      hide Ended;
      ClosedWords(rules, text[..|text| - 1], word);
      EndedMore(rules, text, word);
    }
  }

  lemma EndedMore(rules: TextRules, text: string, word: string)
    requires text != ""
    ensures var n := |text| - 1;
            Ended(rules, text, word) <==>
              || Ended(rules, text[..n], word)
              || (!rules.alphanumeric(text[n]) && word != "" && word == WordsFrom(rules, text[..n]).1)
  {
    hide WordsFrom, WordAt;
    var n := |text| - 1;
    var shorter := text[..n];
    if i, j :| 0 <= i < j < n && WordAt(rules, shorter, i, j) && shorter[i..j] == word {
      WordInMore(rules, text, i, j);
    }
    var open := WordsFrom(rules, shorter).1;
    if !rules.alphanumeric(text[n]) && open != "" && word == open {
      assert text == shorter + [text[n]];
      OpenEnds(rules, shorter, text[n]);
    }
    if i, j :| 0 <= i < j < |text| && WordAt(rules, text, i, j) && text[i..j] == word {
      WordInPrefix(rules, text, i, j);
      if j == n {
        LastWord(rules, shorter, i);
      }
    }
  }

  lemma OpenEnds(rules: TextRules, text: string, last: char)
    requires !rules.alphanumeric(last) && WordsFrom(rules, text).1 != ""
    ensures Ended(rules, text + [last], WordsFrom(rules, text).1)
  {
    hide WordsFrom;
    var start := OpenRun(rules, text);
    var more := text + [last];
    assert WordAt(rules, more, start, |text|);
    assert more[start..|text|] == text[start..];
  }

  lemma WordInMore(rules: TextRules, text: string, i: int, j: int)
    requires text != "" && WordAt(rules, text[..|text| - 1], i, j) && j < |text| - 1
    ensures WordAt(rules, text, i, j) && text[i..j] == text[..|text| - 1][i..j]
  {
  }

  lemma WordInPrefix(rules: TextRules, text: string, i: int, j: int)
    requires WordAt(rules, text, i, j) && j < |text|
    ensures WordAt(rules, text[..|text| - 1], i, j) && 0 <= i < j && text[i..j] == text[..|text| - 1][i..j]
    ensures j == |text| - 1 ==> !rules.alphanumeric(text[j]) && text[i..j] == text[..j][i..] != ""
  {
  }

  /** The terms of a query are its lowered words, each once. */
  lemma {:induction false} TermsAre(words: seq<string>, rules: TextRules, term: string)
    ensures Distinct(LoweredTerms(words, rules))
    ensures term in LoweredTerms(words, rules) <==> exists word :: word in words && rules.lower(word) == term
    decreases |words|
  {
    if words != [] {
      var before, last := words[..|words| - 1], words[|words| - 1];
      TermsAre(before, rules, term);
      assert forall word :: word in words <==> word in before || word == last;
    }
  }

  lemma QueryTerms(rules: TextRules, query: string, term: string)
    ensures Distinct(Terms(rules, query))
    ensures term in Terms(rules, query) <==> exists word :: word in Words(rules, query) && rules.lower(word) == term
  {
    TermsAre(Words(rules, query), rules, term);
  }

  /** How a term can match a row. */
  datatype Hit = NameIs | NameHolds | DescriptionWord | DescriptionHolds

  predicate Hits(rules: TextRules, entry: Entry, hit: Hit, term: string) {
    var name, description := rules.lower(entry.name), rules.lower(entry.description);
    match hit
    case NameIs => name == term
    case NameHolds => name != term && Contains(name, term)
    case DescriptionWord => term in Words(rules, description)
    case DescriptionHolds => term !in Words(rules, description) && Contains(description, term)
  }

  function Matching(rules: TextRules, entry: Entry, hit: Hit, terms: seq<string>): set<string> {
    set term | term in terms && Hits(rules, entry, hit, term)
  }

  /** A score is a sum of counts: a thousand for the term that is the name, a hundred
      for each other term inside the name, ten for each term that is a word of the
      description, one for each other term inside the description. */
  lemma {:induction false} ScoreCounts(rules: TextRules, entry: Entry, terms: seq<string>)
    requires Distinct(terms)
    ensures var sum := 1_000 * |Matching(rules, entry, NameIs, terms)|
                       + 100 * |Matching(rules, entry, NameHolds, terms)|
                       + 10 * |Matching(rules, entry, DescriptionWord, terms)|
                       + |Matching(rules, entry, DescriptionHolds, terms)|;
            Score(rules, entry, terms) == Least(sum, U64_MAX)
    decreases |terms|
  {
    hide Words, Contains, Matching;
    if terms == [] {
      assert forall hit :: Matching(rules, entry, hit, terms) == {} by { NoMatching(rules, entry); }
    } else {
      var before, last := terms[..|terms| - 1], terms[|terms| - 1];
      ScoreCounts(rules, entry, before);
      assert terms == before + [last];
      MatchingMore(rules, entry, NameIs, before, last);
      MatchingMore(rules, entry, NameHolds, before, last);
      MatchingMore(rules, entry, DescriptionWord, before, last);
      MatchingMore(rules, entry, DescriptionHolds, before, last);
    }
  }

  lemma NoMatching(rules: TextRules, entry: Entry)
    ensures forall hit :: Matching(rules, entry, hit, []) == {}
  {
  }

  lemma MatchingMore(rules: TextRules, entry: Entry, hit: Hit, terms: seq<string>, last: string)
    requires last !in terms
    ensures |Matching(rules, entry, hit, terms + [last])|
            == |Matching(rules, entry, hit, terms)| + if Hits(rules, entry, hit, last) then 1 else 0
  {
    hide Hits;
    assert Matching(rules, entry, hit, terms + [last])
      == Matching(rules, entry, hit, terms) + if Hits(rules, entry, hit, last) then {last} else {};
  }

  // ---- ranking ----

  /** A strict total order, as far as sorting distinct positions needs one. */
  ghost predicate StrictTotal(less: (nat, nat) -> bool) {
    && (forall x, y :: x != y ==> less(x, y) != less(y, x))
    && (forall x, y, z :: less(x, y) && less(y, z) ==> less(x, z))
  }

  ghost predicate Sorted(s: seq<nat>, less: (nat, nat) -> bool) {
    forall i, j :: 0 <= i < j < |s| ==> less(s[i], s[j])
  }

  predicate NoRepeats(s: seq<nat>) {
    forall i, j :: 0 <= i < j < |s| ==> s[i] != s[j]
  }

  method InsertSorted(s: seq<nat>, x: nat, less: (nat, nat) -> bool) returns (r: seq<nat>)
    requires StrictTotal(less) && Sorted(s, less) && x !in s
    ensures Sorted(r, less) && multiset(r) == multiset(s) + multiset{x} && |r| == |s| + 1
  {
    var p := 0;
    while p < |s| && less(s[p], x)
      invariant 0 <= p <= |s| && forall i :: 0 <= i < p ==> less(s[i], x)
    {
      p := p + 1;
    }
    r := s[..p] + [x] + s[p..];
    assert s == s[..p] + s[p..];
    InsertedSorted(s, x, p, less);
  }

  lemma InsertedSorted(s: seq<nat>, x: nat, p: nat, less: (nat, nat) -> bool)
    requires StrictTotal(less) && Sorted(s, less) && x !in s && p <= |s|
    requires (forall i :: 0 <= i < p ==> less(s[i], x)) && (p < |s| ==> !less(s[p], x))
    ensures Sorted(s[..p] + [x] + s[p..], less)
  {
    var r := s[..p] + [x] + s[p..];
    forall i | p <= i < |s| ensures less(x, s[i]) {
      assert less(x, s[p]);
      if i > p {
        assert less(s[p], s[i]);
      }
    }
    forall i, j | 0 <= i < j < |r| ensures less(r[i], r[j]) {
      var a, b := if i < p then i else i - 1, if j < p then j else j - 1;
      if i == p {
        assert r[j] == s[b];
      } else if j == p {
        assert r[i] == s[a];
      } else {
        assert r[i] == s[a] && r[j] == s[b] && a < b;
      }
    }
  }

  /** A stable sort of distinct positions. */
  method Sort(items: seq<nat>, less: (nat, nat) -> bool) returns (sorted: seq<nat>)
    requires StrictTotal(less) && NoRepeats(items)
    ensures Sorted(sorted, less) && multiset(sorted) == multiset(items) && |sorted| == |items|
  {
    sorted := [];
    for i := 0 to |items|
      invariant Sorted(sorted, less) && multiset(sorted) == multiset(items[..i]) && |sorted| == i
    {
      assert items[..i + 1] == items[..i] + [items[i]];
      assert items[i] !in items[..i];
      assert items[i] !in multiset(sorted);
      sorted := InsertSorted(sorted, items[i], less);
    }
    assert items[..|items|] == items;
  }

  function Rank(scores: seq<nat>, i: nat): nat {
    if i < |scores| then scores[i] else 0
  }

  /** Higher scores first, then the earlier catalog position. */
  predicate Better(scores: seq<nat>, first: nat, second: nat) {
    Rank(scores, first) > Rank(scores, second) || (Rank(scores, first) == Rank(scores, second) && first < second)
  }

  /** The k best positions of a score table, in catalog order. */
  ghost predicate BestOf(scores: seq<nat>, k: nat, chosen: seq<nat>) {
    && |chosen| == (if k < |scores| then k else |scores|)
    && (forall i :: 0 <= i < |chosen| ==> chosen[i] < |scores|)
    && (forall i, j :: 0 <= i < j < |chosen| ==> chosen[i] < chosen[j])
    && (forall i, j :: i in chosen && i < |scores| && 0 <= j < |scores| && j !in chosen ==>
          scores[i] > scores[j] || (scores[i] == scores[j] && i < j))
  }

  function Positions(n: nat): seq<nat> {
    seq(n, i => i)
  }

  method Best(scores: seq<nat>, k: nat) returns (chosen: seq<nat>)
    ensures BestOf(scores, k, chosen)
  {
    var better := (i: nat, j: nat) => Better(scores, i, j);
    var ranked := Sort(Positions(|scores|), better);
    var take := if k < |scores| then k else |scores|;
    TakenNoRepeats(ranked, take, better);
    chosen := Sort(ranked[..take], (i: nat, j: nat) => i < j);
    TakenAreBest(scores, ranked, take, chosen);
  }

  lemma TakenNoRepeats(ranked: seq<nat>, take: nat, less: (nat, nat) -> bool)
    requires StrictTotal(less) && Sorted(ranked, less) && take <= |ranked| && forall x :: !less(x, x)
    ensures NoRepeats(ranked[..take])
  {
  }

  lemma TakenAreBest(scores: seq<nat>, ranked: seq<nat>, take: nat, chosen: seq<nat>)
    requires Sorted(ranked, (i: nat, j: nat) => Better(scores, i, j))
    requires multiset(ranked) == multiset(Positions(|scores|))
    requires take <= |ranked| == |scores| && multiset(chosen) == multiset(ranked[..take]) && |chosen| == take
    requires Sorted(chosen, (i: nat, j: nat) => i < j)
    ensures forall i :: 0 <= i < |chosen| ==> chosen[i] < |scores|
    ensures forall i, j :: i in chosen && 0 <= j < |scores| && j !in chosen ==> Better(scores, i, j)
  {
    forall i | 0 <= i < |chosen| ensures chosen[i] < |scores| {
      assert chosen[i] in multiset(chosen);
      assert chosen[i] in ranked[..take];
      assert chosen[i] in ranked && chosen[i] in multiset(ranked);
      assert chosen[i] in Positions(|scores|);
    }
    forall i, j | i in chosen && 0 <= j < |scores| && j !in chosen ensures Better(scores, i, j) {
      assert i in multiset(chosen) && j !in multiset(chosen);
      assert i in ranked[..take] && j !in ranked[..take];
      assert Positions(|scores|)[j] == j && j in multiset(ranked);
      var a :| 0 <= a < take && ranked[a] == i;
      var b :| 0 <= b < |ranked| && ranked[b] == j;
      InPrefix(ranked, take, b);
    }
  }

  lemma InPrefix(s: seq<nat>, take: nat, i: nat)
    requires take <= |s| && i < |s|
    ensures i < take ==> s[i] in s[..take]
  {
    if i < take {
      assert s[..take][i] == s[i];
    }
  }

  // ---- selection ----

  /** A selection is bounded, safe and without repetition. */
  method NewSelection(rules: TextRules, names: seq<string>) returns (r: Result<seq<string>, ToolError>)
    ensures r.Ok? <==>
              |names| <= MAX_SELECTIONS && (forall i :: 0 <= i < |names| ==> rules.safe(names[i])) && Distinct(names)
    ensures r.Ok? ==> r.value == names
  {
    if |names| > MAX_SELECTIONS {
      return Err(SelectionTooLarge);
    }
    for i := 0 to |names|
      invariant (forall j :: 0 <= j < i ==> rules.safe(names[j])) && Distinct(names[..i])
    {
      if !rules.safe(names[i]) {
        return Err(InvalidToolName);
      }
      if names[i] in names[..i] {
        DuplicateName(names, names[..i], i);
        return Err(DuplicateSelection);
      }
    }
    assert names[..|names|] == names;
    r := Ok(names);
  }

  function Scores(rules: TextRules, entries: seq<Entry>, query: string): (scores: seq<nat>)
    ensures |scores| == |entries|
  {
    seq(|entries|, i requires 0 <= i < |entries| => Score(rules, entries[i], Terms(rules, query)))
  }

  function Pick(entries: seq<Entry>, chosen: seq<nat>): seq<string>
    requires forall i :: 0 <= i < |chosen| ==> chosen[i] < |entries|
  {
    seq(|chosen|, i requires 0 <= i < |chosen| => entries[chosen[i]].name)
  }

  /** What a lexical selection of at most k rows must be. */
  ghost predicate SelectsBest(rules: TextRules, entries: seq<Entry>, query: string, k: nat, names: seq<string>) {
    exists chosen :: BestOf(Scores(rules, entries, query), k, chosen) && names == Pick(entries, chosen)
  }

  method Select(rules: TextRules, entries: seq<Entry>, query: string, k: nat, canceled: bool)
    returns (r: Result<seq<string>, ToolError>)
    requires 1 <= k <= MAX_SELECTIONS && Distinct(Names(entries))
    requires forall i :: 0 <= i < |entries| ==> rules.safe(entries[i].name)
    ensures canceled <==> r == Err(Canceled)
    ensures !canceled ==> r.Ok? && Distinct(r.value) && |r.value| == (if |entries| < k then |entries| else k)
    ensures !canceled ==> SelectsBest(rules, entries, query, k, r.value)
    ensures !canceled && |entries| <= k ==> r.value == Names(entries)
  {
    hide Scores, Terms, Score;
    if canceled {
      return Err(Canceled);
    }
    if |entries| <= k {
      r := NewSelection(rules, Names(entries));
      assert BestOf(Scores(rules, entries, query), k, Positions(|entries|)) by {
        AllAreBest(Scores(rules, entries, query), k);
      }
      assert Names(entries) == Pick(entries, Positions(|entries|));
      return;
    }
    var chosen := Best(Scores(rules, entries, query), k);
    PickedDistinct(entries, chosen);
    r := NewSelection(rules, Pick(entries, chosen));
  }

  lemma AllAreBest(scores: seq<nat>, k: nat)
    requires |scores| <= k
    ensures BestOf(scores, k, Positions(|scores|))
  {
    forall j | 0 <= j < |scores| ensures j in Positions(|scores|) {
      assert Positions(|scores|)[j] == j;
    }
  }

  lemma PickedDistinct(entries: seq<Entry>, chosen: seq<nat>)
    requires Distinct(Names(entries)) && forall i :: 0 <= i < |chosen| ==> chosen[i] < |entries|
    requires forall i, j :: 0 <= i < j < |chosen| ==> chosen[i] < chosen[j]
    ensures Distinct(Pick(entries, chosen))
  {
    forall i, j | 0 <= i < j < |chosen| ensures Pick(entries, chosen)[i] != Pick(entries, chosen)[j] {
      assert Names(entries)[chosen[i]] == entries[chosen[i]].name;
      assert Names(entries)[chosen[j]] == entries[chosen[j]].name;
    }
  }

  // ---- application ----

  datatype Plan = Plan(specs: seq<Spec>, routes: seq<Route>, catalogEntries: nat, selectedEntries: nat)

  function KeepSpecs(specs: seq<Spec>, selected: set<string>): seq<Spec> {
    if specs == [] then []
    else
      KeepSpecs(specs[..|specs| - 1], selected)
      + (if specs[|specs| - 1].name in selected then [specs[|specs| - 1]] else [])
  }

  function KeepRoutes(routes: seq<Route>, selected: set<string>): seq<Route> {
    if routes == [] then []
    else
      KeepRoutes(routes[..|routes| - 1], selected)
      + (if routes[|routes| - 1].logical in selected then [routes[|routes| - 1]] else [])
  }

  function CountSelected(entries: seq<Entry>, selected: set<string>): nat {
    if entries == [] then 0
    else CountSelected(entries[..|entries| - 1], selected) + (if entries[|entries| - 1].name in selected then 1 else 0)
  }

  function SetOf(names: seq<string>): set<string> {
    set name | name in names
  }

  function Apply(
    specs: seq<Spec>, routes: seq<Route>, entries: seq<Entry>, names: seq<string>): Result<Plan, ToolError> {
    var selected := SetOf(names);
    if exists name :: name in selected && name !in Names(entries) then Err(UnknownSelection)
    else Ok(Plan(KeepSpecs(specs, selected), KeepRoutes(routes, selected), |entries|, CountSelected(entries, selected)))
  }

  lemma {:induction false} KeepSpecsExactly(specs: seq<Spec>, selected: set<string>)
    ensures forall spec :: spec in KeepSpecs(specs, selected) <==> spec in specs && spec.name in selected
    ensures (forall spec :: spec in specs ==> spec.name in selected) ==> KeepSpecs(specs, selected) == specs
    decreases |specs|
  {
    if specs != [] {
      var init, last := specs[..|specs| - 1], specs[|specs| - 1];
      KeepSpecsExactly(init, selected);
      assert specs == init + [last];
    }
  }

  lemma {:induction false} KeepRoutesExactly(routes: seq<Route>, selected: set<string>)
    ensures forall route :: route in KeepRoutes(routes, selected) <==> route in routes && route.logical in selected
    ensures (forall route :: route in routes ==> route.logical in selected) ==> KeepRoutes(routes, selected) == routes
    decreases |routes|
  {
    if routes != [] {
      var init, last := routes[..|routes| - 1], routes[|routes| - 1];
      KeepRoutesExactly(init, selected);
      assert routes == init + [last];
    }
  }

  /** Selecting from an accepted catalog always applies. A client schema and the
      route of the same name are kept or dropped together, in their old order,
      and a catalog within the limit is left as it is. */
  method SelectAndApply(rules: TextRules, specs: seq<Spec>, routes: seq<Route>, query: string, k: nat)
    returns (r: Result<Plan, ToolError>)
    requires Acceptable(rules, specs, routes) && 1 <= k <= MAX_SELECTIONS
    ensures r.Ok?
    ensures forall spec, route :: spec in specs && route in routes && spec.name == route.logical ==>
              (spec in r.value.specs <==> route in r.value.routes)
    ensures exists names :: SelectsBest(rules, Union(specs, routes), query, k, names)
              && r.value.specs == KeepSpecs(specs, SetOf(names)) && r.value.routes == KeepRoutes(routes, SetOf(names))
              && |SetOf(names)| == (if |Union(specs, routes)| < k then |Union(specs, routes)| else k)
    ensures |Union(specs, routes)| <= k ==> r.value.specs == specs && r.value.routes == routes
    ensures r.value.catalogEntries == |Union(specs, routes)|
    ensures r.value.selectedEntries == (if |Union(specs, routes)| < k then |Union(specs, routes)| else k)
  {
    hide Union, Acceptable, SelectsBest;
    UnionIsDistinct(rules, specs, routes);
    var entries := Union(specs, routes);
    var names := Select(rules, entries, query, k, false);
    SelectedAreKnown(rules, entries, query, k, names.value);
    r := Apply(specs, routes, entries, names.value);
    ghost var selected := SetOf(names.value);
    KeepSpecsExactly(specs, selected);
    KeepRoutesExactly(routes, selected);
    DistinctCount(names.value);
    SelectedCounted(entries, selected);
    assert selected * SetOf(Names(entries)) == selected;
    if |entries| <= k {
      forall spec | spec in specs ensures spec.name in selected {
        var i :| 0 <= i < |specs| && specs[i] == spec;
        assert SpecNames(specs)[i] == spec.name;
      }
      forall route | route in routes ensures route.logical in selected {
        var i :| 0 <= i < |routes| && routes[i] == route;
        assert RouteNames(routes)[i] == route.logical;
      }
    }
  }

  lemma {:induction false} SelectedCounted(entries: seq<Entry>, selected: set<string>)
    requires Distinct(Names(entries))
    ensures CountSelected(entries, selected) == |selected * SetOf(Names(entries))|
    decreases |entries|
  {
    if entries != [] {
      var init, last := entries[..|entries| - 1], entries[|entries| - 1];
      assert Names(entries) == Names(init) + [last.name];
      assert forall i :: 0 <= i < |init| ==> Names(init)[i] == Names(entries)[i];
      SelectedCounted(init, selected);
      LastIsNew(Names(init), last.name);
      assert SetOf(Names(entries)) == SetOf(Names(init)) + {last.name};
      hide Distinct, Names;
      if last.name in selected {
        assert selected * SetOf(Names(entries)) == selected * SetOf(Names(init)) + {last.name};
      } else {
        assert selected * SetOf(Names(entries)) == selected * SetOf(Names(init));
      }
    }
  }

  lemma SelectedAreKnown(rules: TextRules, entries: seq<Entry>, query: string, k: nat, names: seq<string>)
    requires SelectsBest(rules, entries, query, k, names)
    ensures forall name :: name in names ==> name in Names(entries)
  {
    var chosen :| BestOf(Scores(rules, entries, query), k, chosen) && names == Pick(entries, chosen);
    forall name | name in names ensures name in Names(entries) {
      var i :| 0 <= i < |names| && names[i] == name;
      assert Names(entries)[chosen[i]] == name;
    }
  }

  lemma {:induction false} DistinctCount(names: seq<string>)
    requires Distinct(names)
    ensures |SetOf(names)| == |names|
    decreases |names|
  {
    if names != [] {
      var init, last := names[..|names| - 1], names[|names| - 1];
      DistinctCount(init);
      assert names == init + [last];
      LastIsNew(init, last);
      assert SetOf(names) == SetOf(init) + {last};
    }
  }
}
