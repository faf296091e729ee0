/** The gateway's bearer-token table: "token=user_id" pairs separated by commas. */
module Tokens {
  import opened Common

  // ---- Text ----

  /** White space as strings.TrimSpace sees it. */
  predicate IsSpace(c: char) {
    || '\t' <= c <= '\r' || c == ' '
    || c == '\U{0085}' || c == '\U{00A0}' || c == '\U{1680}' || '\U{2000}' <= c <= '\U{200A}'
    || c == '\U{2028}' || c == '\U{2029}' || c == '\U{202F}' || c == '\U{205F}' || c == '\U{3000}'
  }

  function TrimLeft(s: string): (r: string)
    ensures r == "" || !IsSpace(r[0])
  {
    if s != "" && IsSpace(s[0]) then TrimLeft(s[1..]) else s
  }

  function TrimRight(s: string): (r: string)
    ensures r <= s && (r == "" || !IsSpace(r[|r| - 1]))
  {
    if s != "" && IsSpace(s[|s| - 1]) then TrimRight(s[..|s| - 1]) else s
  }

  function Trim(s: string): (r: string)
    ensures r != "" ==> !IsSpace(r[0]) && !IsSpace(r[|r| - 1])
  {
    TrimRight(TrimLeft(s))
  }

  /** Position of the first `c`, or the length if there is none. */
  function IndexOf(s: string, c: char): (i: nat)
    ensures i <= |s| && (i < |s| ==> s[i] == c) && forall j :: 0 <= j < i ==> s[j] != c
  {
    if s == "" || s[0] == c then 0 else 1 + IndexOf(s[1..], c)
  }

  function Split(s: string): (pieces: seq<string>)
    ensures pieces != []
    decreases |s|
  {
    var i := IndexOf(s, ',');
    if i == |s| then [s] else [s[..i]] + Split(s[i + 1..])
  }

  function Commas(s: string): nat {
    if s == "" then 0 else (if s[0] == ',' then 1 else 0) + Commas(s[1..])
  }

  function Join(pieces: seq<string>): string {
    if pieces == [] then "" else if |pieces| == 1 then pieces[0] else pieces[0] + "," + Join(pieces[1..])
  }

  // ---- Parsing ----

  datatype ParseError = EmptySpec | Malformed | DuplicateToken

  datatype Entry = Entry(token: string, user: string)

  /** Cut at the first '=' of the trimmed pair; both sides trimmed and non-empty. */
  function PairOf(pair: string): Option<Entry> {
    var p := Trim(pair);
    var i := IndexOf(p, '=');
    if i == |p| then None else
      var token, user := Trim(p[..i]), Trim(p[i + 1..]);
      if token == "" || user == "" then None else Some(Entry(token, user))
  }

  function PairsOf(pieces: seq<string>): seq<Option<Entry>> {
    seq(|pieces|, i requires 0 <= i < |pieces| => PairOf(pieces[i]))
  }

  /** The table the first pairs build, or the first error met. */
  function Table(pairs: seq<Option<Entry>>): Result<map<string, string>, ParseError> {
    if pairs == [] then Ok(map[]) else
      match Table(pairs[..|pairs| - 1])
      case Err(e) => Err(e)
      case Ok(m) =>
        match pairs[|pairs| - 1]
        case None => Err(Malformed)
        case Some(e) => if e.token in m then Err(DuplicateToken) else Ok(m[e.token := e.user])
  }

  function Parsed(spec: string): Result<map<string, string>, ParseError> {
    if Trim(spec) == "" then Err(EmptySpec) else Table(PairsOf(Split(spec)))
  }

  lemma {:induction false} TableFails(pairs: seq<Option<Entry>>, n: nat)
    requires n <= |pairs| && Table(pairs[..n]).Err?
    ensures Table(pairs) == Table(pairs[..n])
    decreases |pairs|
  {
    if n == |pairs| {
      assert pairs[..n] == pairs;
    } else {
      var front := pairs[..|pairs| - 1];
      assert front[..n] == pairs[..n];
      TableFails(front, n);
    }
  }

  /** What one more pair does to the table built so far. */
  lemma TableStep(pairs: seq<Option<Entry>>, i: nat)
    requires i < |pairs| && Table(pairs[..i]).Ok?
    ensures var m := Table(pairs[..i]).value;
            Table(pairs[..i + 1]) == match pairs[i]
                                     case None => Err(Malformed)
                                     case Some(e) =>
                                       if e.token in m then Err(DuplicateToken) else Ok(m[e.token := e.user])
    ensures Table(pairs[..i + 1]).Err? ==> Table(pairs) == Table(pairs[..i + 1])
  {
    assert pairs[..i + 1][..i] == pairs[..i] && pairs[..i + 1][i] == pairs[i];
    if Table(pairs[..i + 1]).Err? {
      TableFails(pairs, i + 1);
    }
  }

  method ParseAuthTokens(spec: string) returns (r: Result<map<string, string>, ParseError>)
    ensures r == Parsed(spec)
  {
    if Trim(spec) == "" {
      return Err(EmptySpec);
    }
    var tokens: map<string, string> := map[];
    var pieces := Split(spec);
    ghost var pairs := PairsOf(pieces);
    for i := 0 to |pieces|
      invariant Table(pairs[..i]) == Ok(tokens)
    {
      TableStep(pairs, i);
      var pair := Trim(pieces[i]);
      var cut := IndexOf(pair, '=');
      if cut == |pair| {
        return Err(Malformed);
      }
      var token, user := Trim(pair[..cut]), Trim(pair[cut + 1..]);
      if token == "" || user == "" {
        return Err(Malformed);
      }
      if token in tokens {
        return Err(DuplicateToken);
      }
      tokens := tokens[token := user];
    }
    assert pairs[..|pieces|] == pairs;
    return Ok(tokens);
  }

  // ---- What a successful parse means ----

  ghost predicate AllParse(pairs: seq<Option<Entry>>) {
    forall i :: 0 <= i < |pairs| ==> pairs[i].Some?
  }

  ghost predicate Distinct(pairs: seq<Option<Entry>>) {
    forall i, j :: 0 <= i < j < |pairs| && pairs[i].Some? && pairs[j].Some? ==>
      pairs[i].value.token != pairs[j].value.token
  }

  /** The tokens that occur. */
  function TokensIn(pairs: seq<Option<Entry>>): set<string> {
    if pairs == [] then {} else
      var last := pairs[|pairs| - 1];
      TokensIn(pairs[..|pairs| - 1]) + (if last.Some? then {last.value.token} else {})
  }

  lemma {:induction false} TokensInAll(pairs: seq<Option<Entry>>)
    ensures forall i :: 0 <= i < |pairs| && pairs[i].Some? ==> pairs[i].value.token in TokensIn(pairs)
  {
    if pairs != [] {
      var front := pairs[..|pairs| - 1];
      TokensInAll(front);
      assert forall i :: 0 <= i < |front| ==> front[i] == pairs[i];
    }
  }

  lemma {:induction false} TokensInOnly(pairs: seq<Option<Entry>>, t: string) returns (i: nat)
    requires t in TokensIn(pairs)
    ensures i < |pairs| && pairs[i].Some? && pairs[i].value.token == t
  {
    var n := |pairs| - 1;
    if t in TokensIn(pairs[..n]) {
      i := TokensInOnly(pairs[..n], t);
    } else {
      i := n;
    }
  }

  /** `m` holds exactly what the pairs say, one entry each. */
  ghost predicate Holds(m: map<string, string>, pairs: seq<Option<Entry>>) {
    && AllParse(pairs)
    && |m| == |pairs|
    && m.Keys == TokensIn(pairs)
    && (forall i :: 0 <= i < |pairs| ==> pairs[i].value.token in m && m[pairs[i].value.token] == pairs[i].value.user)
  }

  lemma PutSize(m: map<string, string>, k: string, v: string)
    requires k !in m
    ensures |m[k := v]| == |m| + 1
  {
    assert m[k := v].Keys == m.Keys + {k};
    assert |m[k := v]| == |m[k := v].Keys| && |m| == |m.Keys|;
  }

  /** A token outside the table is new among its pairs. */
  lemma DistinctGrows(m: map<string, string>, pairs: seq<Option<Entry>>, e: Entry)
    requires Holds(m, pairs) && Distinct(pairs) && e.token !in m
    ensures Distinct(pairs + [Some(e)])
  {
    forall i | 0 <= i < |pairs| ensures pairs[i].value.token != e.token {
      assert pairs[i].value.token in m;
    }
  }

  lemma TableGrows(m: map<string, string>, pairs: seq<Option<Entry>>, e: Entry)
    requires Holds(m, pairs) && e.token !in m
    ensures Holds(m[e.token := e.user], pairs + [Some(e)])
  {
    var pairs' := pairs + [Some(e)];
    assert pairs'[..|pairs|] == pairs;
    PutSize(m, e.token, e.user);
    assert AllParse(pairs');
    assert TokensIn(pairs') == TokensIn(pairs) + {e.token};
  }

  /** A table comes out exactly when every pair is well formed and no token repeats. */
  lemma {:induction false} TableHolds(pairs: seq<Option<Entry>>)
    ensures Table(pairs).Ok? ==> Holds(Table(pairs).value, pairs) && Distinct(pairs)
    ensures AllParse(pairs) && Distinct(pairs) ==> Table(pairs).Ok?
  {
    if pairs != [] {
      var n := |pairs| - 1;
      var front := pairs[..n];
      assert front + [pairs[n]] == pairs;
      TableHolds(front);
      if AllParse(pairs) && Distinct(pairs) {
        assert AllParse(front) && Distinct(front);
        var m, token := Table(front).value, pairs[n].value.token;
        if token in m {
          var i := TokensInOnly(front, token);
        }
      }
      if Table(pairs).Ok? {
        DistinctGrows(Table(front).value, front, pairs[n].value);
        TableGrows(Table(front).value, front, pairs[n].value);
      }
    }
  }

  lemma {:induction false} SplitCounts(s: string)
    ensures |Split(s)| == Commas(s) + 1
    decreases |s|
  {
    var i := IndexOf(s, ',');
    CommasAt(s, i);
    if i < |s| {
      SplitCounts(s[i + 1..]);
    }
  }

  /** No comma before the first one. */
  lemma {:induction false} CommasAt(s: string, i: nat)
    requires i <= |s| && forall j :: 0 <= j < i ==> s[j] != ','
    ensures Commas(s) == Commas(s[i..])
    ensures i < |s| && s[i] == ',' ==> Commas(s) == 1 + Commas(s[i + 1..])
  {
    if i == 0 {
      assert s[0..] == s;
    } else {
      CommasAt(s[1..], i - 1);
      assert s[1..][i - 1..] == s[i..];
      if i < |s| {
        assert s[1..][i..] == s[i + 1..];
      }
    }
  }

  /**
   A parse succeeds exactly when the spec is not blank, every pair is well formed and no token
   repeats; then the table has one entry per comma-separated pair, so none is dropped.
   */
  lemma ParseSucceedsIff(spec: string)
    ensures Parsed(spec).Ok? <==> Trim(spec) != "" && AllParse(PairsOf(Split(spec))) && Distinct(PairsOf(Split(spec)))
    ensures Parsed(spec).Ok? ==>
              Holds(Parsed(spec).value, PairsOf(Split(spec))) && |Parsed(spec).value| == Commas(spec) + 1
  {
    TableHolds(PairsOf(Split(spec)));
    SplitCounts(spec);
  }

  // ---- Round trip ----

  predicate CleanText(s: string) {
    s != "" && ',' !in s && !IsSpace(s[0]) && !IsSpace(s[|s| - 1])
  }

  predicate CleanEntry(e: Entry) {
    CleanText(e.token) && '=' !in e.token && CleanText(e.user)
  }

  function RenderEntry(e: Entry): string {
    e.token + "=" + e.user
  }

  function Pieces(entries: seq<Entry>): seq<string> {
    seq(|entries|, i requires 0 <= i < |entries| => RenderEntry(entries[i]))
  }

  function Render(entries: seq<Entry>): string {
    Join(Pieces(entries))
  }

  lemma TrimClean(s: string)
    requires s != "" ==> !IsSpace(s[0]) && !IsSpace(s[|s| - 1])
    ensures Trim(s) == s
  {
  }

  lemma {:induction false} IndexOfAt(s: string, c: char, i: nat)
    requires i < |s| && s[i] == c && forall j :: 0 <= j < i ==> s[j] != c
    ensures IndexOf(s, c) == i
  {
  }

  /** Where the rendering of an entry is cut. */
  lemma CutOfEntry(e: Entry)
    requires CleanEntry(e)
    ensures var s := RenderEntry(e);
            && Trim(s) == s && IndexOf(s, '=') == |e.token| && |e.token| < |s|
            && s[..|e.token|] == e.token && s[|e.token| + 1..] == e.user
  {
    var s := RenderEntry(e);
    var n := |e.token|;
    assert s[0] == e.token[0] && s[|s| - 1] == e.user[|e.user| - 1] && s[n] == '=';
    TrimClean(s);
    forall j | 0 <= j < n ensures s[j] != '=' {
      assert s[j] == e.token[j] && e.token[j] in e.token;
    }
    IndexOfAt(s, '=', n);
  }

  lemma PairOfEntry(e: Entry)
    requires CleanEntry(e)
    ensures PairOf(RenderEntry(e)) == Some(e)
    ensures ',' !in RenderEntry(e)
  {
    CutOfEntry(e);
    TrimClean(e.token);
    TrimClean(e.user);
  }

  lemma {:induction false} SplitJoin(pieces: seq<string>)
    requires pieces != [] && forall i :: 0 <= i < |pieces| ==> ',' !in pieces[i]
    ensures Split(Join(pieces)) == pieces
    decreases |pieces|
  {
    var s, p := Join(pieces), pieces[0];
    assert ',' !in p;
    if |pieces| == 1 {
      assert s == p;
      assert IndexOf(s, ',') == |s|;
    } else {
      forall j | 0 <= j < |p| ensures s[j] != ',' {
        assert s[j] == p[j] && p[j] in p;
      }
      assert s[|p|] == ',';
      IndexOfAt(s, ',', |p|);
      assert s[..|p|] == p && s[|p| + 1..] == Join(pieces[1..]);
      SplitJoin(pieces[1..]);
      assert [p] + pieces[1..] == pieces;
    }
  }

  /** A spec with a non-blank character is not blank. */
  lemma {:induction false} TrimKeepsText(s: string, i: nat)
    requires i < |s| && !IsSpace(s[i])
    ensures Trim(s) != ""
  {
    LeftKeepsText(s, i);
    var t := TrimLeft(s);
    RightKeepsText(t);
  }

  lemma {:induction false} LeftKeepsText(s: string, i: nat)
    requires i < |s| && !IsSpace(s[i])
    ensures TrimLeft(s) != ""
  {
    if IsSpace(s[0]) {
      LeftKeepsText(s[1..], i - 1);
    }
  }

  lemma {:induction false} RightKeepsText(s: string)
    requires s != "" && !IsSpace(s[0])
    ensures TrimRight(s) != ""
  {
    if IsSpace(s[|s| - 1]) {
      RightKeepsText(s[..|s| - 1]);
    }
  }

  function Wrapped(entries: seq<Entry>): seq<Option<Entry>> {
    seq(|entries|, i requires 0 <= i < |entries| => Some(entries[i]))
  }

  /** `entries` lists the table, in any order. */
  ghost predicate Lists(entries: seq<Entry>, table: map<string, string>) {
    && (forall i, j :: 0 <= i < j < |entries| ==> entries[i].token != entries[j].token)
    && (forall i :: 0 <= i < |entries| ==> entries[i].token in table && table[entries[i].token] == entries[i].user)
    && |table| == |entries|
  }

  /** Building from the entries that list a table gives that table. */
  lemma TableOfListing(entries: seq<Entry>, table: map<string, string>)
    requires Lists(entries, table)
    ensures Table(Wrapped(entries)) == Ok(table)
  {
    var pairs := Wrapped(entries);
    TableHolds(pairs);
    var m := Table(pairs).value;
    forall t | t in m ensures t in table && table[t] == m[t] {
      var i := TokensInOnly(pairs, t);
      assert entries[i].token == t;
    }
    SameSize(m.Keys, table.Keys);
    assert |m| == |m.Keys| && |table| == |table.Keys|;
    assert m == table;
  }

  lemma {:induction false} SameSize(a: set<string>, b: set<string>)
    requires a <= b && |a| == |b|
    ensures a == b
  {
    assert b == a + (b - a);
    assert |b| == |a| + |b - a|;
  }

  lemma CleanPieces(entries: seq<Entry>)
    requires forall i :: 0 <= i < |entries| ==> CleanEntry(entries[i])
    ensures PairsOf(Pieces(entries)) == Wrapped(entries)
    ensures forall i :: 0 <= i < |entries| ==> ',' !in Pieces(entries)[i]
  {
    forall i | 0 <= i < |entries|
      ensures PairsOf(Pieces(entries))[i] == Some(entries[i]) && ',' !in Pieces(entries)[i]
    {
      PairOfEntry(entries[i]);
    }
  }

  /** Parsing the rendering of any non-empty table with clean entries gives back that table. */
  lemma RoundTrip(table: map<string, string>, entries: seq<Entry>)
    requires Lists(entries, table) && entries != [] && forall i :: 0 <= i < |entries| ==> CleanEntry(entries[i])
    ensures Parsed(Render(entries)) == Ok(table)
  {
    CleanPieces(entries);
    SplitJoin(Pieces(entries));
    RenderStarts(entries);
    TrimKeepsText(Render(entries), 0);
    TableOfListing(entries, table);
  }

  lemma RenderStarts(entries: seq<Entry>)
    requires entries != [] && CleanEntry(entries[0])
    ensures Render(entries) != "" && !IsSpace(Render(entries)[0])
  {
    var p := Pieces(entries)[0];
    assert p[0] == entries[0].token[0];
    assert Render(entries)[..|p|] == p;
  }
}
