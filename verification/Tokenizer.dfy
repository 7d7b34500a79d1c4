/** The command tokenizer: one pass over the characters with two flags. */
module Tokenizer {
  import opened Common

  /** The scanner's local variables. */
  datatype Scan = Scan(command: seq<string>, current: string, inQuotes: bool, escapeNext: bool)

  const START := Scan([], "", false, false)

  /** The tokens finished so far, and the one in progress if it holds anything. */
  function Flush(s: Scan): seq<string> {
    if s.current != "" then s.command + [s.current] else s.command
  }

  function Step(s: Scan, c: char): Scan {
    if s.escapeNext then s.(current := s.current + [c], escapeNext := false)
    else if c == '\\' then s.(escapeNext := true)
    else if c == '"' then s.(inQuotes := !s.inQuotes)
    else if c == ' ' && !s.inQuotes then s.(command := Flush(s), current := "")
    else s.(current := s.current + [c])
  }

  /** The scanner after reading `t`, one character at a time from the left. */
  function Scanned(s: Scan, t: string): Scan
    decreases |t|
  {
    if t == "" then s else Scanned(Step(s, t[0]), t[1..])
  }

  function Tokens(t: string): Result<seq<string>, string> {
    var s := Scanned(START, t);
    if s.inQuotes then Err("unclosed quotes in KUBE_MIGRATE_COMMAND") else Ok(Flush(s))
  }

  method TokenizeCommand(commandStr: string) returns (r: Result<seq<string>, string>)
    ensures r == Tokens(commandStr)
  {
    var command: seq<string> := [];
    var current := "";
    var inQuotes, escapeNext := false, false;
    for i := 0 to |commandStr|
      invariant Scanned(START, commandStr)
             == Scanned(Scan(command, current, inQuotes, escapeNext), commandStr[i..])
    {
      var c := commandStr[i];
      assert commandStr[i..][1..] == commandStr[i + 1..];
      if escapeNext {
        current := current + [c];
        escapeNext := false;
        continue;
      }
      match c
      case '\\' => escapeNext := true;
      case '"' => inQuotes := !inQuotes;
      case ' ' =>
        if !inQuotes {
          if current != "" {
            command := command + [current];
            current := "";
          }
          continue;
        }
        current := current + [c];
      case _ => current := current + [c];
    }
    if inQuotes {
      return Err("unclosed quotes in KUBE_MIGRATE_COMMAND");
    }
    if current != "" {
      command := command + [current];
    }
    return Ok(command);
  }

  // ---- Reading a text without running the scanner ----

  /** How many quote characters of `t` are not preceded by a live backslash. */
  function UnescapedQuotes(t: string): nat
    decreases |t|
  {
    if t == "" then 0
    else if t[0] == '\\' then (if |t| == 1 then 0 else UnescapedQuotes(t[2..]))
    else (if t[0] == '"' then 1 else 0) + UnescapedQuotes(t[1..])
  }

  /** `t` ends in a backslash that escapes nothing. */
  predicate DanglingEscape(t: string)
    decreases |t|
  {
    t != "" && if t[0] == '\\' then |t| == 1 || DanglingEscape(t[2..]) else DanglingEscape(t[1..])
  }

  /** What `t` says once quotes, live backslashes and separators are dropped. */
  function Literal(inQuotes: bool, t: string): string
    decreases |t|
  {
    if t == "" then ""
    else if t[0] == '\\' then (if |t| == 1 then "" else [t[1]] + Literal(inQuotes, t[2..]))
    else if t[0] == '"' then Literal(!inQuotes, t[1..])
    else if t[0] == ' ' && !inQuotes then Literal(false, t[1..])
    else [t[0]] + Literal(inQuotes, t[1..])
  }

  /** `t` has a space that is neither quoted nor escaped. */
  predicate HasSeparator(inQuotes: bool, t: string)
    decreases |t|
  {
    t != "" &&
    if t[0] == '\\' then |t| > 1 && HasSeparator(inQuotes, t[2..])
    else if t[0] == ' ' && !inQuotes then true
    else HasSeparator(inQuotes != (t[0] == '"'), t[1..])
  }

  /** The pieces of a text between its separators; only the last may end in the middle of an
      escape. */
  predicate Solid(ps: seq<string>) {
    && ps != []
    && (forall i :: 0 <= i < |ps| ==> !HasSeparator(false, ps[i]) && UnescapedQuotes(ps[i]) % 2 == 0)
    && (forall i :: 0 <= i < |ps| - 1 ==> !DanglingEscape(ps[i]))
  }

  function Spaced(ps: seq<string>): string
    requires ps != []
  {
    if |ps| == 1 then ps[0] else ps[0] + " " + Spaced(ps[1..])
  }

  function Literals(ps: seq<string>): seq<string> {
    if ps == [] then [] else [Literal(false, ps[0])] + Literals(ps[1..])
  }

  function NonEmpty(ws: seq<string>): seq<string> {
    if ws == [] then [] else (if ws[0] == "" then [] else [ws[0]]) + NonEmpty(ws[1..])
  }

  function Concat(ws: seq<string>): string {
    if ws == [] then "" else Concat(ws[..|ws| - 1]) + ws[|ws| - 1]
  }

  // ---- Properties ----

  lemma {:induction false} ScannedAppend(s: Scan, a: string, b: string)
    ensures Scanned(s, a + b) == Scanned(Scanned(s, a), b)
    decreases |a|
  {
    if a == "" {
      assert a + b == b;
    } else {
      assert (a + b)[0] == a[0] && (a + b)[1..] == a[1..] + b;
      ScannedAppend(Step(s, a[0]), a[1..], b);
    }
  }

  /** The scanner's two flags are functions of the text alone. */
  lemma {:induction false} ScannedFlags(s: Scan, t: string)
    requires !s.escapeNext
    ensures Scanned(s, t).inQuotes == (s.inQuotes != (UnescapedQuotes(t) % 2 == 1))
    ensures Scanned(s, t).escapeNext == DanglingEscape(t)
    decreases |t|
  {
    if t == "" {
    } else if t[0] == '\\' && |t| > 1 {
      assert t[1..][1..] == t[2..];
      ScannedFlags(Step(Step(s, t[0]), t[1]), t[2..]);
    } else if t[0] == '\\' {
      assert Scanned(Step(s, t[0]), t[1..]) == Step(s, t[0]);
    } else {
      ScannedFlags(Step(s, t[0]), t[1..]);
    }
  }

  /** Tokenizing fails exactly when the number of unescaped quotes is odd. */
  lemma FailsExactlyOnOddQuotes(t: string)
    ensures Tokens(t).Err? <==> UnescapedQuotes(t) % 2 == 1
  {
    ScannedFlags(START, t);
  }

  /** The tokens found before `t` was read do not influence how `t` is split. */
  lemma {:induction false} PrefixIsKept(p: seq<string>, s: Scan, t: string)
    ensures Scanned(s.(command := p + s.command), t)
         == Scanned(s, t).(command := p + Scanned(s, t).command)
    decreases |t|
  {
    if t == "" {
    } else {
      assert p + (s.command + [s.current]) == p + s.command + [s.current];
      PrefixIsKept(p, Step(s, t[0]), t[1..]);
    }
  }

  /** A text that ends outside quotes and escapes can be cut off at the next space. */
  lemma Composition(a: string, b: string)
    requires UnescapedQuotes(a) % 2 == 0 && !DanglingEscape(a)
    ensures Tokens(a).Ok?
    ensures Tokens(a + " " + b).Err? <==> Tokens(b).Err?
    ensures Tokens(b).Ok? ==> Tokens(a + " " + b) == Ok(Tokens(a).value + Tokens(b).value)
  {
    ScannedFlags(START, a);
    var s := Scanned(START, a);
    ScannedAppend(START, a + " ", b);
    ScannedAppend(START, a, " ");
    assert Scanned(s, " ") == Step(s, ' ') by { assert " "[1..] == ""; }
    PrefixIsKept(Flush(s), START, b);
    assert Flush(s) + START.command == Flush(s);
    var e := Scanned(START, b);
    assert Flush(s) + (e.command + [e.current]) == Flush(s) + e.command + [e.current];
  }

  lemma {:induction false} NoEmptyTokens(s: Scan, t: string)
    requires "" !in s.command
    ensures "" !in Flush(Scanned(s, t))
    decreases |t|
  {
    if t == "" {
    } else {
      NoEmptyTokens(Step(s, t[0]), t[1..]);
    }
  }

  /** No token is ever empty. */
  lemma TokensAreNonEmpty(t: string)
    ensures Tokens(t).Ok? ==> "" !in Tokens(t).value
  {
    NoEmptyTokens(START, t);
  }

  /** Taking one literal character `c` off the text is putting it on the tokens. */
  lemma LiteralMoves(s: Scan, c: char, rest: string)
    ensures Concat(Flush(s.(current := s.current + [c]))) + rest == Concat(Flush(s)) + ([c] + rest)
  {
    FlushGrows(s, c);
  }

  lemma {:induction false} ScannedLiteral(s: Scan, t: string)
    requires !s.escapeNext
    ensures Concat(Flush(Scanned(s, t))) == Concat(Flush(s)) + Literal(s.inQuotes, t)
    decreases |t|
  {
    if t == "" {
    } else if t[0] == '\\' && |t| > 1 {
      var s' := s.(current := s.current + [t[1]]);
      assert Scanned(s, t) == Scanned(s', t[2..]) by {
        assert t[1..][1..] == t[2..];
        assert Step(Step(s, t[0]), t[1]) == s';
      }
      LiteralMoves(s, t[1], Literal(s.inQuotes, t[2..]));
      ScannedLiteral(s', t[2..]);
    } else if t[0] == '\\' {
      assert Scanned(Step(s, t[0]), t[1..]) == Step(s, t[0]);
    } else if t[0] == '"' || (t[0] == ' ' && !s.inQuotes) {
      assert Flush(Step(s, t[0])) == Flush(s);
      ScannedLiteral(Step(s, t[0]), t[1..]);
    } else {
      LiteralMoves(s, t[0], Literal(s.inQuotes, t[1..]));
      ScannedLiteral(Step(s, t[0]), t[1..]);
    }
  }

  lemma FlushGrows(s: Scan, c: char)
    ensures Concat(Flush(s.(current := s.current + [c]))) == Concat(Flush(s)) + [c]
  {
    assert (s.command + [s.current + [c]])[..|s.command|] == s.command;
    assert (s.command + [s.current])[..|s.command|] == s.command;
    assert Concat(s.command) + (s.current + [c]) == Concat(s.command) + s.current + [c];
    if s.current == "" {
      assert s.current + [c] == [c];
    }
  }

  /** Nothing is lost or reordered: the tokens joined up are the text's literal characters. */
  lemma TokensConserveText(t: string)
    ensures Tokens(t).Ok? ==> Concat(Tokens(t).value) == Literal(false, t)
  {
    ScannedLiteral(START, t);
    assert "" + Literal(false, t) == Literal(false, t);
  }

  // ---- Where tokens begin and end ----

  lemma {:induction false} ScannedSolid(s: Scan, t: string)
    requires !s.escapeNext && !HasSeparator(s.inQuotes, t)
    ensures Scanned(s, t).command == s.command
    ensures Scanned(s, t).current == s.current + Literal(s.inQuotes, t)
    decreases |t|
  {
    if t == "" {
    } else if t[0] == '\\' && |t| > 1 {
      assert t[1..][1..] == t[2..];
      var s' := Step(Step(s, t[0]), t[1]);
      ScannedSolid(s', t[2..]);
      assert s.current + [t[1]] + Literal(s.inQuotes, t[2..]) == s.current + ([t[1]] + Literal(s.inQuotes, t[2..]));
    } else if t[0] == '\\' {
      assert Scanned(Step(s, t[0]), t[1..]) == Step(s, t[0]);
    } else {
      ScannedSolid(Step(s, t[0]), t[1..]);
      assert t[0] != '"' ==>
          s.current + [t[0]] + Literal(s.inQuotes, t[1..]) == s.current + ([t[0]] + Literal(s.inQuotes, t[1..]));
    }
  }

  /** A text without a separator is one token, its literal text, or none if that is empty. */
  lemma OnePieceOneToken(t: string)
    requires !HasSeparator(false, t) && UnescapedQuotes(t) % 2 == 0
    ensures Tokens(t) == Ok(NonEmpty([Literal(false, t)]))
  {
    ScannedSolid(START, t);
    ScannedFlags(START, t);
    var l := Literal(false, t);
    assert START.current + l == l && START.command + [l] == [l];
    assert Flush(Scanned(START, t)) == if l == "" then [] else [l];
    assert NonEmpty([l]) == (if l == "" then [] else [l]) by { assert [l][1..] == []; }
  }

  /** The first separator cuts off a piece that ends outside quotes and escapes. */
  lemma {:induction false} FirstSeparator(inQuotes: bool, t: string) returns (i: nat)
    requires HasSeparator(inQuotes, t)
    ensures i < |t| && t[i] == ' ' && !HasSeparator(inQuotes, t[..i])
    ensures inQuotes == (UnescapedQuotes(t[..i]) % 2 == 1) && !DanglingEscape(t[..i])
    decreases |t|
  {
    if t[0] == '\\' {
      i := FirstSeparator(inQuotes, t[2..]);
      i := i + 2;
      assert t[..i][2..] == t[2..][..i - 2];
    } else if t[0] == ' ' && !inQuotes {
      i := 0;
    } else {
      i := FirstSeparator(inQuotes != (t[0] == '"'), t[1..]);
      i := i + 1;
      assert t[..i][1..] == t[1..][..i - 1];
    }
  }

  lemma SolidSpaced(a: string, ps: seq<string>)
    requires Solid(ps) && Solid([a]) && !DanglingEscape(a)
    ensures Solid([a] + ps) && Spaced([a] + ps) == a + " " + Spaced(ps)
    ensures NonEmpty(Literals([a] + ps)) == NonEmpty([Literal(false, a)]) + NonEmpty(Literals(ps))
  {
    assert ([a] + ps)[1..] == ps;
    var l := Literal(false, a);
    assert Literals([a] + ps) == [l] + Literals(ps);
    assert ([l] + Literals(ps))[1..] == Literals(ps);
    assert [l][1..] == [];
  }

  /** Whichever way a text is put together from pieces without separators, its tokens are the
      literal texts of the pieces that have any. */
  lemma {:induction false} PiecesAreTokens(ps: seq<string>)
    requires Solid(ps)
    ensures Tokens(Spaced(ps)) == Ok(NonEmpty(Literals(ps)))
    decreases |ps|
  {
    OnePieceOneToken(ps[0]);
    if |ps| == 1 {
      assert Literals(ps) == [Literal(false, ps[0])];
    } else {
      PiecesAreTokens(ps[1..]);
      assert ps == [ps[0]] + ps[1..];
      SolidSpaced(ps[0], ps[1..]);
      Composition(ps[0], Spaced(ps[1..]));
    }
  }

  /** Every text that is accepted is put together that way: exactly the spaces that are neither
      quoted nor escaped end a token. */
  lemma {:induction false} TokensArePieces(t: string) returns (ps: seq<string>)
    requires UnescapedQuotes(t) % 2 == 0
    ensures Solid(ps) && Spaced(ps) == t && Tokens(t) == Ok(NonEmpty(Literals(ps)))
    decreases |t|
  {
    if !HasSeparator(false, t) {
      ps := [t];
    } else {
      var i := FirstSeparator(false, t);
      var a, b := t[..i], t[i + 1..];
      assert t == a + " " + b;
      FailsExactlyOnOddQuotes(t);
      FailsExactlyOnOddQuotes(b);
      Composition(a, b);
      ps := TokensArePieces(b);
      SolidSpaced(a, ps);
      ps := [a] + ps;
    }
    PiecesAreTokens(ps);
  }

  predicate Plain(w: string) {
    ' ' !in w && '"' !in w && '\\' !in w
  }

  lemma {:induction false} ReadsPlain(s: Scan, w: string)
    requires Plain(w) && !s.escapeNext
    ensures Scanned(s, w) == s.(current := s.current + w)
    decreases |w|
  {
    if w == "" {
      assert s.current + w == s.current;
    } else {
      ReadsPlain(Step(s, w[0]), w[1..]);
      assert s.current + [w[0]] + w[1..] == s.current + w;
    }
  }

  /** A word with no space, quote or backslash is one token, itself. */
  lemma PlainWordIsOneToken(w: string)
    requires Plain(w) && w != ""
    ensures Tokens(w) == Ok([w])
  {
    ReadsPlain(START, w);
    assert "" + w == w && START.command + [w] == [w];
  }

  // ---- Rendering and reading back ----

  function Escape(w: string): string {
    if w == "" then ""
    else (if w[0] == '\\' || w[0] == '"' then ['\\', w[0]] else [w[0]]) + Escape(w[1..])
  }

  function Quote(w: string): string {
    "\"" + Escape(w) + "\""
  }

  /** Every word quoted and escaped, separated by single spaces. */
  function Render(ws: seq<string>): string {
    if ws == [] then "" else Quote(ws[0]) + " " + Render(ws[1..])
  }

  lemma {:induction false} ReadsEscaped(s: Scan, w: string)
    requires s.inQuotes && !s.escapeNext
    ensures Scanned(s, Escape(w)) == s.(current := s.current + w)
    decreases |w|
  {
    if w == "" {
      assert s.current + w == s.current;
    } else {
      var head := if w[0] == '\\' || w[0] == '"' then ['\\', w[0]] else [w[0]];
      ScannedAppend(s, head, Escape(w[1..]));
      var s' := s.(current := s.current + [w[0]]);
      assert Scanned(s, head) == s' by {
        if |head| == 2 {
          ScannedAppend(s, ['\\'], [w[0]]);
          assert head == ['\\'] + [w[0]];
          assert Scanned(s, ['\\']) == s.(escapeNext := true) by { assert ['\\'][1..] == ""; }
          assert [w[0]][1..] == "";
        } else {
          assert head[1..] == "";
        }
      }
      ReadsEscaped(s', w[1..]);
      assert s.current + [w[0]] + w[1..] == s.current + w;
    }
  }

  lemma ReadsQuoted(s: Scan, w: string)
    requires !s.inQuotes && !s.escapeNext
    ensures Scanned(s, Quote(w)) == s.(current := s.current + w)
  {
    var q := s.(inQuotes := true);
    ScannedAppend(s, "\"" + Escape(w), "\"");
    ScannedAppend(s, "\"", Escape(w));
    assert "\""[1..] == "";
    assert Scanned(s, "\"") == q;
    ReadsEscaped(q, w);
    assert Scanned(Scanned(q, Escape(w)), "\"") == s.(current := s.current + w);
  }

  /** Quotes join what stands next to them: `a"b c"d` is the one token `ab cd`. */
  lemma QuotesGlue(a: string, b: string, c: string)
    requires Plain(a) && Plain(c) && a + b + c != ""
    ensures Tokens(a + Quote(b) + c) == Ok([a + b + c])
  {
    ScannedAppend(START, a + Quote(b), c);
    ScannedAppend(START, a, Quote(b));
    ReadsPlain(START, a);
    assert "" + a == a;
    ReadsQuoted(START.(current := a), b);
    ReadsPlain(START.(current := a + b), c);
    assert START.command + [a + b + c] == [a + b + c];
  }

  /** Reading a rendering gives the words back; an empty word is the only thing it cannot carry. */
  lemma {:induction false} RenderReadsBack(ws: seq<string>)
    ensures Tokens(Render(ws)) == Ok(NonEmpty(ws))
    ensures Tokens(Render(ws)) == Ok(ws) <==> "" !in ws
  {
    NonEmptyIsIdentity(ws);
    if ws == [] {
    } else {
      RenderReadsBack(ws[1..]);
      ReadsQuoted(START, ws[0]);
      assert "" + ws[0] == ws[0];
      ScannedFlags(START, Quote(ws[0]));
      Composition(Quote(ws[0]), Render(ws[1..]));
      assert Tokens(Quote(ws[0])).value == if ws[0] == "" then [] else [ws[0]];
    }
  }

  lemma {:induction false} NonEmptyIsIdentity(ws: seq<string>)
    ensures NonEmpty(ws) == ws <==> "" !in ws
    ensures |NonEmpty(ws)| <= |ws|
  {
    if ws == [] {
    } else {
      NonEmptyIsIdentity(ws[1..]);
      assert ws == [ws[0]] + ws[1..];
      if ws[0] != "" && NonEmpty(ws) == ws {
        assert NonEmpty(ws)[1..] == NonEmpty(ws[1..]);
      }
    }
  }
}
