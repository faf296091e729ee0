/**
 The token table's syntax, stated on the text alone: what white space around tokens and users
 does not matter, which pairs are well formed, and which error a bad table gets.
 */
module TokenLaws {
  import opened Common
  import opened Tokens

  // ---- White space ----

  predicate Blank(s: string) {
    forall i :: 0 <= i < |s| ==> IsSpace(s[i])
  }

  /** Text that neither starts nor ends with white space. */
  predicate Tight(s: string) {
    s != "" && !IsSpace(s[0]) && !IsSpace(s[|s| - 1])
  }

  lemma SpacesAreBlank(s: string)
    requires forall i :: 0 <= i < |s| ==> s[i] == ' ' || s[i] == '\t' || s[i] == '\n' || s[i] == '\r'
    ensures Blank(s) && ',' !in s && '=' !in s
  {
  }

  lemma {:induction false} LeftOf(a: string, s: string)
    requires Blank(a) && (s == "" || !IsSpace(s[0]))
    ensures TrimLeft(a + s) == s
    decreases |a|
  {
    if a == "" {
      assert a + s == s;
    } else {
      assert (a + s)[0] == a[0] && (a + s)[1..] == a[1..] + s;
      LeftOf(a[1..], s);
    }
  }

  lemma {:induction false} RightOf(s: string, b: string)
    requires Blank(b) && (s == "" || !IsSpace(s[|s| - 1]))
    ensures TrimRight(s + b) == s
    decreases |b|
  {
    if b == "" {
      assert s + b == s;
    } else {
      var n := |b| - 1;
      assert (s + b)[|s + b| - 1] == b[n] && (s + b)[..|s + b| - 1] == s + b[..n];
      RightOf(s, b[..n]);
    }
  }

  /** Trimming removes exactly the white space around tight text. */
  lemma TrimOf(a: string, t: string, b: string)
    requires Blank(a) && Blank(b) && Tight(t)
    ensures Trim(a + t + b) == t
  {
    assert a + t + b == a + (t + b) && (t + b)[0] == t[0];
    LeftOf(a, t + b);
    RightOf(t, b);
  }

  lemma {:induction false} LeftSplits(s: string) returns (a: string)
    ensures Blank(a) && s == a + TrimLeft(s)
    decreases |s|
  {
    if s != "" && IsSpace(s[0]) {
      var a1 := LeftSplits(s[1..]);
      a := [s[0]] + a1;
    } else {
      a := "";
    }
  }

  lemma {:induction false} RightSplits(s: string) returns (b: string)
    ensures Blank(b) && s == TrimRight(s) + b
    decreases |s|
  {
    if s != "" && IsSpace(s[|s| - 1]) {
      var b1 := RightSplits(s[..|s| - 1]);
      b := b1 + [s[|s| - 1]];
    } else {
      b := "";
    }
  }

  /** And nothing but white space. */
  lemma TrimSplits(s: string) returns (a: string, b: string)
    ensures Blank(a) && Blank(b) && s == a + Trim(s) + b && (Trim(s) == "" || Tight(Trim(s)))
  {
    a := LeftSplits(s);
    b := RightSplits(TrimLeft(s));
  }

  lemma BlankTrims(s: string)
    ensures Trim(s) == "" <==> Blank(s)
  {
    if Blank(s) {
      LeftOf(s, "");
      assert s + "" == s;
    } else {
      var i :| 0 <= i < |s| && !IsSpace(s[i]);
      TrimKeepsText(s, i);
    }
  }

  // ---- Pairs ----

  predicate Named(t: string, u: string) {
    Tight(t) && '=' !in t && Tight(u)
  }

  /** The first sign of a pair stands behind its token. */
  lemma CoreCut(t: string, b: string, rest: string)
    requires '=' !in t && Blank(b)
    ensures var core := t + b + "=" + rest;
            var n := |t| + |b|;
            IndexOf(core, '=') == n < |core| && core[..n] == t + b && core[n + 1..] == rest
  {
    var core, n := t + b + "=" + rest, |t| + |b|;
    forall j | 0 <= j < n ensures core[j] != '=' {
      if j < |t| {
        assert core[j] == t[j] && t[j] in t;
      } else {
        assert core[j] == b[j - |t|];
      }
    }
    IndexOfAt(core, '=', n);
  }

  /** How a pair is read once its cut is known. */
  lemma PairOfCut(pair: string, p: string, i: nat, left: string, right: string)
    requires Trim(pair) == p && i < |p| && IndexOf(p, '=') == i && p[..i] == left && p[i + 1..] == right
    requires Trim(left) != "" && Trim(right) != ""
    ensures PairOf(pair) == Some(Entry(Trim(left), Trim(right)))
  {
  }

  lemma BlankBoth(a: string, b: string)
    requires Blank(a) && Blank(b)
    ensures Blank(a + b)
  {
  }

  lemma Regroup(a: string, t: string, b: string, c: string, u: string, d: string)
    ensures a + t + b + "=" + c + u + d == a + (t + b + "=" + (c + u)) + d
  {
    assert a + t + b + "=" + c + u == a + (t + b + "=" + (c + u));
  }

  lemma CoreTrims(a: string, t: string, b: string, c: string, u: string, d: string)
    requires Blank(a) && Blank(d) && Tight(t) && Tight(u)
    ensures Trim(a + t + b + "=" + c + u + d) == t + b + "=" + (c + u)
  {
    var core := t + b + "=" + (c + u);
    assert core[0] == t[0] && core[|core| - 1] == u[|u| - 1];
    Regroup(a, t, b, c, u, d);
    TrimOf(a, core, d);
  }

  lemma TrimAfter(t: string, b: string)
    requires Blank(b) && Tight(t)
    ensures Trim(t + b) == t
  {
    TrimOf("", t, b);
    assert "" + t + b == t + b;
  }

  lemma TrimBefore(c: string, u: string)
    requires Blank(c) && Tight(u)
    ensures Trim(c + u) == u
  {
    TrimOf(c, u, "");
    assert c + u + "" == c + u;
  }

  /** White space around a token and a user, and around the sign between them, does not matter. */
  lemma PairOfPadded(a: string, t: string, b: string, c: string, u: string, d: string)
    requires Blank(a) && Blank(b) && Blank(c) && Blank(d) && Named(t, u)
    ensures PairOf(a + t + b + "=" + c + u + d) == Some(Entry(t, u))
  {
    var pair, p, left, right := a + t + b + "=" + c + u + d, t + b + "=" + (c + u), t + b, c + u;
    CoreTrims(a, t, b, c, u, d);
    CoreCut(t, b, right);
    TrimAfter(t, b);
    TrimBefore(c, u);
    PairOfCut(pair, p, |t| + |b|, left, right);
  }

  /** The same text, with the outer white space joined to the inner. */
  lemma Glue(
    pair: string, a0: string, p: string, d0: string,
    a1: string, t: string, b: string, c: string, u: string, d1: string)
    requires pair == a0 + p + d0 && p == a1 + t + b + "=" + c + u + d1
    ensures pair == (a0 + a1) + t + b + "=" + c + u + (d1 + d0)
  {
    assert a0 + p == (a0 + a1) + t + b + "=" + c + u + d1;
  }

  lemma GlueSign(p: string, i: nat, a: string, t: string, b: string, c: string, u: string, d: string)
    requires i < |p| && p[i] == '=' && p[..i] == a + t + b && p[i + 1..] == c + u + d
    ensures p == a + t + b + "=" + c + u + d
  {
    assert p == p[..i] + "=" + p[i + 1..];
    assert a + t + b + "=" + (c + u + d) == a + t + b + "=" + c + u + d;
  }

  /** The trimmed pair around its first sign. */
  lemma CoreSplits(p: string, i: nat) returns (a: string, b: string, c: string, d: string)
    requires i < |p| && IndexOf(p, '=') == i && Trim(p[..i]) != "" && Trim(p[i + 1..]) != ""
    ensures Blank(a) && Blank(b) && Blank(c) && Blank(d) && Named(Trim(p[..i]), Trim(p[i + 1..]))
    ensures p == a + Trim(p[..i]) + b + "=" + c + Trim(p[i + 1..]) + d
  {
    a, b := TrimSplits(p[..i]);
    c, d := TrimSplits(p[i + 1..]);
    GlueSign(p, i, a, Trim(p[..i]), b, c, Trim(p[i + 1..]), d);
    TokenHasNoSign(p, i, a, Trim(p[..i]), b);
  }

  /** Every well-formed pair is such text: its token stands before the first sign. */
  lemma PairOfSplits(pair: string) returns (a: string, b: string, c: string, d: string)
    requires PairOf(pair).Some?
    ensures var e := PairOf(pair).value;
            && Blank(a) && Blank(b) && Blank(c) && Blank(d) && Named(e.token, e.user)
            && pair == a + e.token + b + "=" + c + e.user + d
  {
    var p, e := Trim(pair), PairOf(pair).value;
    var a0, d0 := TrimSplits(pair);
    var a1, d1;
    a1, b, c, d1 := CoreSplits(p, IndexOf(p, '='));
    Glue(pair, a0, p, d0, a1, e.token, b, c, e.user, d1);
    BlankBoth(a0, a1);
    BlankBoth(d1, d0);
    a, d := a0 + a1, d1 + d0;
  }

  lemma TokenHasNoSign(p: string, i: nat, a: string, t: string, b: string)
    requires i <= |p| && p[..i] == a + t + b && forall j :: 0 <= j < i ==> p[j] != '='
    ensures '=' !in t
  {
    forall j | 0 <= j < |t| ensures t[j] != '=' {
      assert t[j] == (a + t + b)[|a| + j] == p[..i][|a| + j] == p[|a| + j];
    }
  }

  // ---- Pieces ----

  /** The pieces are the text between the commas. */
  lemma {:induction false} SplitIs(s: string)
    ensures Join(Split(s)) == s && forall i :: 0 <= i < |Split(s)| ==> ',' !in Split(s)[i]
    decreases |s|
  {
    var i := IndexOf(s, ',');
    if i < |s| {
      SplitIs(s[i + 1..]);
      assert s == s[..i] + "," + s[i + 1..];
      assert Split(s)[1..] == Split(s[i + 1..]);
      assert ',' !in s[..i];
    }
  }

  // ---- Errors ----

  /** The pair that spoils the table: malformed, or repeating an earlier token. */
  predicate Spoils(pairs: seq<Option<Entry>>, n: nat, e: ParseError)
    requires n < |pairs|
  {
    match pairs[n]
    case None => e == Malformed
    case Some(x) => e == DuplicateToken && exists i :: 0 <= i < n && pairs[i].Some? && pairs[i].value.token == x.token
  }

  /** A failed table names the error of the first pair that spoils it. */
  lemma {:induction false} TableErrorIs(pairs: seq<Option<Entry>>) returns (n: nat)
    requires Table(pairs).Err?
    ensures n < |pairs| && Spoils(pairs, n, Table(pairs).error)
    ensures AllParse(pairs[..n]) && Distinct(pairs[..n])
  {
    var last := |pairs| - 1;
    var front := pairs[..last];
    if Table(front).Err? {
      n := TableErrorIs(front);
      assert front[..n] == pairs[..n];
    } else {
      n := last;
      TableHolds(front);
      if pairs[last].Some? {
        var i := TokensInOnly(front, pairs[last].value.token);
        assert pairs[i] == front[i];
      }
    }
  }

  /** A blank text is an error of its own; every other failure is the first bad pair's. */
  lemma ParseErrorIs(spec: string) returns (n: nat)
    requires Parsed(spec).Err?
    ensures Parsed(spec).error == EmptySpec <==> Blank(spec)
    ensures !Blank(spec) ==>
              var pairs := PairsOf(Split(spec));
              n < |pairs| && Spoils(pairs, n, Parsed(spec).error) && AllParse(pairs[..n]) && Distinct(pairs[..n])
  {
    BlankTrims(spec);
    n := 0;
    if !Blank(spec) {
      n := TableErrorIs(PairsOf(Split(spec)));
    }
  }

  // ---- Padded round trip ----

  /** White space around the four places of a pair. */
  datatype Pad = Pad(a: string, b: string, c: string, d: string) {
    predicate Spaces() {
      Only(a) && Only(b) && Only(c) && Only(d)
    }

    predicate Only(s: string) {
      forall i :: 0 <= i < |s| ==> s[i] == ' ' || s[i] == '\t' || s[i] == '\n' || s[i] == '\r'
    }
  }

  function PaddedPiece(e: Entry, p: Pad): string {
    p.a + e.token + p.b + "=" + p.c + e.user + p.d
  }

  function PaddedPieces(entries: seq<Entry>, pads: seq<Pad>): seq<string>
    requires |entries| == |pads|
  {
    seq(|entries|, i requires 0 <= i < |entries| => PaddedPiece(entries[i], pads[i]))
  }

  lemma PaddedPieceIs(e: Entry, p: Pad)
    requires CleanEntry(e) && p.Spaces()
    ensures PairOf(PaddedPiece(e, p)) == Some(e) && ',' !in PaddedPiece(e, p)
  {
    SpacesAreBlank(p.a);
    SpacesAreBlank(p.b);
    SpacesAreBlank(p.c);
    SpacesAreBlank(p.d);
    PairOfPadded(p.a, e.token, p.b, p.c, e.user, p.d);
  }

  lemma JoinHasText(pieces: seq<string>, i: nat)
    requires pieces != [] && i < |pieces[0]| && !IsSpace(pieces[0][i])
    ensures Trim(Join(pieces)) != ""
  {
    assert Join(pieces)[i] == pieces[0][i];
    TrimKeepsText(Join(pieces), i);
  }

  /** Parsing the rendering of any non-empty table with clean entries, however padded, gives back that table. */
  lemma PaddedRoundTrip(table: map<string, string>, entries: seq<Entry>, pads: seq<Pad>)
    requires Lists(entries, table) && entries != [] && |pads| == |entries|
    requires forall i :: 0 <= i < |entries| ==> CleanEntry(entries[i]) && pads[i].Spaces()
    ensures Parsed(Join(PaddedPieces(entries, pads))) == Ok(table)
  {
    var pieces := PaddedPieces(entries, pads);
    forall i | 0 <= i < |entries| ensures PairsOf(pieces)[i] == Some(entries[i]) && ',' !in pieces[i] {
      PaddedPieceIs(entries[i], pads[i]);
    }
    assert PairsOf(pieces) == Wrapped(entries);
    SplitJoin(pieces);
    assert pieces[0][|pads[0].a|] == entries[0].token[0];
    JoinHasText(pieces, |pads[0].a|);
    TableOfListing(entries, table);
  }
}
