/** The two scanners that prepare SQL text for the engine in use: splitting a script into
    statements, and rewriting ? placeholders as $1, $2, ... Both skip quoted literals and
    line comments. */
module Dialect {

  /** Where a scanner is: outside everything, outside with a dash just read, inside a quoted
      literal, or inside a line comment. */
  datatype Mode = Live | Dash | Quoted | Comment

  function Next(m: Mode, c: char): Mode {
    match m
    case Comment => if c == '\n' then Live else Comment
    case Quoted => if c == '\'' then Live else Quoted
    case _ =>
      if c == '\'' then Quoted
      else if c == '-' then (if m == Dash then Comment else Dash)
      else Live
  }

  predicate Outside(m: Mode) {
    m == Live || m == Dash
  }

  function End(s: string, m: Mode): Mode {
    if s == "" then m else End(s[1..], Next(m, s[0]))
  }

  lemma {:induction false} EndAppend(a: string, b: string, m: Mode)
    ensures End(a + b, m) == End(b, End(a, m))
  {
    if a == "" {
      assert a + b == b;
    } else {
      assert (a + b)[1..] == a[1..] + b;
      EndAppend(a[1..], b, Next(m, a[0]));
    }
  }

  lemma EndSnoc(q: string, i: nat)
    requires i < |q|
    ensures End(q[..i + 1], Live) == Next(End(q[..i], Live), q[i])
  {
    assert q[..i + 1] == q[..i] + [q[i]];
    EndAppend(q[..i], [q[i]], Live);
    assert [q[i]][1..] == "";
  }

  /** What stands outside: text with neither a quote nor two dashes in a row. */
  lemma {:induction false} PlainIsOutside(s: string, m: Mode)
    requires Outside(m) && (m == Dash && s != "" ==> s[0] != '-')
    requires forall i | 0 <= i < |s| :: s[i] != '\''
    requires forall i | 0 <= i < |s| - 1 :: !(s[i] == '-' && s[i + 1] == '-')
    ensures Outside(End(s, m)) && (End(s, m) == Dash <==> if s == "" then m == Dash else s[|s| - 1] == '-')
  {
    if s != "" {
      var rest := s[1..];
      assert forall i | 0 <= i < |rest| :: rest[i] == s[i + 1];
      PlainIsOutside(rest, Next(m, s[0]));
      assert rest != "" ==> rest[|rest| - 1] == s[|s| - 1];
    }
  }

  /** A quote outside opens a literal that only the next quote closes, dashes and newlines or not. */
  lemma {:induction false} QuoteLasts(m: Mode, w: string)
    requires forall i | 0 <= i < |w| :: w[i] != '\''
    ensures End(w, Quoted) == Quoted && !Outside(Quoted)
    ensures Outside(m) ==> End("'" + w, m) == Quoted && End("'" + w + "'", m) == Live
  {
    if w != "" { QuoteLasts(m, w[1..]); }
    EndAppend(w, "'", Quoted);
    assert ("'" + w)[1..] == w && "'" + w + "'" == "'" + (w + "'") && ("'" + (w + "'"))[1..] == w + "'" && "'"[1..] == "";
  }

  /** Two dashes outside open a comment that only the end of the line closes, quotes or not. */
  lemma {:induction false} CommentLasts(w: string)
    requires forall i | 0 <= i < |w| :: w[i] != '\n'
    ensures End(w, Comment) == Comment && !Outside(Comment)
    ensures End("--" + w, Live) == Comment && End("--" + w + "\n", Live) == Live
  {
    if w != "" { CommentLasts(w[1..]); }
    EndAppend(w, "\n", Comment);
    assert ("--" + w)[1..] == "-" + w && ("-" + w)[1..] == w && "\n"[1..] == "";
    assert "--" + w + "\n" == "--" + (w + "\n") && ("--" + (w + "\n"))[1..] == "-" + (w + "\n");
    assert ("-" + (w + "\n"))[1..] == w + "\n";
  }

  /** The flags the loops keep: they look one character ahead, so they enter a comment at its
      first dash, one character before Mode does. */
  predicate FlagsAgree(q: string, i: nat, inStr: bool, inLine: bool)
    requires i <= |q|
  {
    var m := End(q[..i], Live);
    && (inStr <==> m == Quoted)
    && (inLine <==> m == Comment || (m == Dash && i < |q| && q[i] == '-'))
  }

  /** One turn of either loop keeps its flags in step with Mode. */
  lemma FlagsStep(q: string, i: nat, inStr: bool, inLine: bool)
    requires i < |q| && FlagsAgree(q, i, inStr, inLine)
    ensures FlagsAgree(q, i + 1,
                       if inLine then inStr else (q[i] == '\'') != inStr,
                       if inLine then q[i] != '\n' else !inStr && q[i] == '-' && i + 1 < |q| && q[i + 1] == '-')
    ensures !inLine && !inStr && q[i] != '-' ==> Outside(End(q[..i], Live))
    ensures inLine || inStr ==> !Outside(End(q[..i], Live)) || q[i] == '-'
  {
    EndSnoc(q, i);
  }

  // ---------------------------------------------------------------- trimming

  /** unicode.IsSpace. */
  predicate IsSpace(c: char) {
    || c == '\t' || c == '\n' || c == '\U{0B}' || c == '\U{0C}' || c == '\r' || c == ' '
    || c == '\U{85}' || c == '\U{A0}' || c == '\U{1680}' || '\U{2000}' <= c <= '\U{200A}'
    || c == '\U{2028}' || c == '\U{2029}' || c == '\U{202F}' || c == '\U{205F}' || c == '\U{3000}'
  }

  /** By code point: the six controls, the space, and Unicode's other white space. */
  lemma SpaceIs(c: char)
    ensures IsSpace(c) <==>
      var n := c as int;
      || 9 <= n <= 13 || n == 32 || n == 133 || n == 160 || n == 5760 || 8192 <= n <= 8202
      || n == 8232 || n == 8233 || n == 8239 || n == 8287 || n == 12288
  {
  }

  predicate AllSpace(s: string) {
    forall i | 0 <= i < |s| :: IsSpace(s[i])
  }

  function TrimLeft(s: string): string {
    if s == "" || !IsSpace(s[0]) then s else TrimLeft(s[1..])
  }

  function TrimRight(s: string): string {
    if s == "" || !IsSpace(s[|s| - 1]) then s else TrimRight(s[..|s| - 1])
  }

  function Trim(s: string): string {
    TrimRight(TrimLeft(s))
  }

  /** Nothing left to trim, and something left. */
  predicate Trimmed(p: string) {
    p != "" && !IsSpace(p[0]) && !IsSpace(p[|p| - 1])
  }

  lemma {:induction false} TrimLeftParts(s: string) returns (w: string)
    ensures s == w + TrimLeft(s) && AllSpace(w)
    ensures TrimLeft(s) == "" || !IsSpace(TrimLeft(s)[0])
  {
    if s == "" || !IsSpace(s[0]) {
      w := "";
    } else {
      var v := TrimLeftParts(s[1..]);
      w := [s[0]] + v;
    }
  }

  lemma {:induction false} TrimRightParts(s: string) returns (w: string)
    ensures s == TrimRight(s) + w && AllSpace(w)
    ensures TrimRight(s) == "" || !IsSpace(TrimRight(s)[|TrimRight(s)| - 1])
  {
    if s == "" || !IsSpace(s[|s| - 1]) {
      w := "";
    } else {
      var v := TrimRightParts(s[..|s| - 1]);
      w := v + [s[|s| - 1]];
    }
  }

  lemma TrimParts(s: string) returns (before: string, after: string)
    ensures s == before + Trim(s) + after && AllSpace(before) && AllSpace(after)
    ensures Trim(s) == "" || Trimmed(Trim(s))
  {
    before := TrimLeftParts(s);
    after := TrimRightParts(TrimLeft(s));
    if Trim(s) != "" { assert TrimLeft(s)[0] == Trim(s)[0]; }
  }

  lemma {:induction false} TrimLeftOf(before: string, p: string)
    requires AllSpace(before) && (p == "" || !IsSpace(p[0]))
    ensures TrimLeft(before + p) == p
  {
    if before == "" {
      assert before + p == p;
    } else {
      assert (before + p)[1..] == before[1..] + p;
      TrimLeftOf(before[1..], p);
    }
  }

  lemma {:induction false} TrimRightOf(p: string, after: string)
    requires AllSpace(after) && (p == "" || !IsSpace(p[|p| - 1]))
    ensures TrimRight(p + after) == p
  {
    if after == "" {
      assert p + after == p;
    } else {
      assert (p + after)[..|p + after| - 1] == p + after[..|after| - 1];
      TrimRightOf(p, after[..|after| - 1]);
    }
  }

  lemma TrimOf(before: string, p: string, after: string)
    requires AllSpace(before) && AllSpace(after) && Trimmed(p)
    ensures Trim(before + p + after) == p
  {
    assert before + p + after == before + (p + after);
    TrimLeftOf(before, p + after);
    TrimRightOf(p, after);
  }

  lemma TrimOfSpace(s: string)
    requires AllSpace(s)
    ensures Trim(s) == ""
  {
    assert s == s + "";
    TrimLeftOf(s, "");
  }

  // -------------------------------------------------------- splitting a script

  function Flush(cur: string): seq<string> {
    if Trim(cur) == "" then [] else [Trim(cur)]
  }

  /** The statements of what is left of a script, with cur read since the last semicolon. */
  function SplitFrom(s: string, m: Mode, cur: string): seq<string> {
    if s == "" then Flush(cur)
    else if Outside(m) && s[0] == ';' then Flush(cur) + SplitFrom(s[1..], Live, "")
    else SplitFrom(s[1..], Next(m, s[0]), cur + [s[0]])
  }

  function Split(script: string): seq<string> {
    SplitFrom(script, Live, "")
  }

  lemma SplitStep(q: string, i: nat, cur: string)
    requires i < |q|
    ensures SplitFrom(q[i..], End(q[..i], Live), cur)
            == if Outside(End(q[..i], Live)) && q[i] == ';'
               then Flush(cur) + SplitFrom(q[i + 1..], End(q[..i + 1], Live), "")
               else SplitFrom(q[i + 1..], End(q[..i + 1], Live), cur + [q[i]])
  {
    EndSnoc(q, i);
    assert q[i..][1..] == q[i + 1..];
  }

  method SplitStatements(script: string) returns (out: seq<string>)
    ensures out == Split(script)
  {
    out := [];
    var cur := "";
    var inStr, inLine := false, false;
    var i := 0;
    while i < |script|
      invariant 0 <= i <= |script|
      invariant FlagsAgree(script, i, inStr, inLine)
      invariant out + SplitFrom(script[i..], End(script[..i], Live), cur) == Split(script)
    {
      var c := script[i];
      FlagsStep(script, i, inStr, inLine);
      SplitStep(script, i, cur);
      if inLine {
        if c == '\n' { inLine := false; }
        cur := cur + [c];
      } else if inStr {
        if c == '\'' { inStr := false; }
        cur := cur + [c];
      } else if c == '\'' {
        inStr := true;
        cur := cur + [c];
      } else if c == '-' && i + 1 < |script| && script[i + 1] == '-' {
        inLine := true;
        cur := cur + [c];
      } else if c == ';' {
        out := out + Flush(cur);
        cur := "";
      } else {
        cur := cur + [c];
      }
      i := i + 1;
    }
    out := out + Flush(cur);
  }

  /** Scanning s from m meets no semicolon that ends a statement. */
  predicate Clean(s: string, m: Mode) {
    s == "" || (!(Outside(m) && s[0] == ';') && Clean(s[1..], Next(m, s[0])))
  }

  lemma {:induction false} CleanAppend(a: string, b: string, m: Mode)
    ensures Clean(a + b, m) <==> Clean(a, m) && Clean(b, End(a, m))
  {
    if a == "" {
      assert a + b == b;
    } else {
      assert (a + b)[1..] == a[1..] + b;
      CleanAppend(a[1..], b, Next(m, a[0]));
    }
  }

  lemma {:induction false} SplitClean(s: string, m: Mode, cur: string)
    requires Clean(s, m)
    ensures SplitFrom(s, m, cur) == Flush(cur + s)
  {
    if s == "" {
      assert cur + s == cur;
    } else {
      assert cur + s == (cur + [s[0]]) + s[1..];
      SplitClean(s[1..], Next(m, s[0]), cur + [s[0]]);
    }
  }

  lemma {:induction false} SplitAtSemicolon(s: string, m: Mode, cur: string, rest: string)
    requires Clean(s, m) && Outside(End(s, m))
    ensures SplitFrom(s + ";" + rest, m, cur) == Flush(cur + s) + SplitFrom(rest, Live, "")
  {
    if s == "" {
      assert cur + s == cur;
      assert (s + ";" + rest)[1..] == rest;
    } else {
      assert (s + ";" + rest)[1..] == s[1..] + ";" + rest;
      assert cur + s == (cur + [s[0]]) + s[1..];
      SplitAtSemicolon(s[1..], Next(m, s[0]), cur + [s[0]], rest);
    }
  }

  /** A script is its parts: a semicolon outside everything cuts it in two, */
  lemma {:induction false} SplitsInTwo(a: string, m: Mode, cur: string, b: string)
    requires Outside(End(a, m))
    ensures SplitFrom(a + ";" + b, m, cur) == SplitFrom(a, m, cur) + Split(b)
  {
    if a == "" {
      assert (a + ";" + b)[1..] == b;
    } else {
      assert (a + ";" + b)[1..] == a[1..] + ";" + b;
      if Outside(m) && a[0] == ';' {
        SplitsInTwo(a[1..], Live, "", b);
      } else {
        SplitsInTwo(a[1..], Next(m, a[0]), cur + [a[0]], b);
      }
    }
  }

  /** and what has none is one statement, the text without the white space around it, or none when
      there is nothing else in it. */
  lemma SplitsWhole(script: string) returns (before: string, p: string, after: string)
    requires Clean(script, Live)
    ensures AllSpace(before) && AllSpace(after) && script == before + p + after && (p == "" || Trimmed(p))
    ensures Split(script) == if p == "" then [] else [p]
  {
    p := Trim(script);
    before, after := TrimParts(script);
    SplitClean(script, Live, "");
    assert "" + script == script;
  }

  lemma {:induction false} SpaceKeepsQuoted(w: string)
    requires AllSpace(w)
    ensures End(w, Quoted) == Quoted
  {
    if w != "" { SpaceKeepsQuoted(w[1..]); }
  }

  lemma {:induction false} SpaceKeepsLive(w: string)
    requires AllSpace(w)
    ensures End(w, Live) == Live && Clean(w, Live)
  {
    if w != "" { SpaceKeepsLive(w[1..]); }
  }

  /** What every statement of a split is: trimmed, with no live semicolon of its own, and
      not ending inside a literal unless it is the last. */
  ghost predicate Statements(ps: seq<string>) {
    && (forall i | 0 <= i < |ps| :: Trimmed(ps[i]) && Clean(ps[i], Live))
    && (forall i | 0 <= i < |ps| - 1 :: End(ps[i], Live) != Quoted)
  }

  lemma FlushedSegment(cur: string, closed: bool)
    requires Clean(cur, Live)
    requires closed ==> Outside(End(cur, Live))
    ensures forall p | p in Flush(cur) :: Trimmed(p) && Clean(p, Live) && (closed ==> End(p, Live) != Quoted)
  {
    var before, after := TrimParts(cur);
    var p := Trim(cur);
    assert cur == before + (p + after);
    SpaceKeepsLive(before);
    CleanAppend(before, p + after, Live);
    CleanAppend(p, after, Live);
    EndAppend(before, p + after, Live);
    EndAppend(p, after, Live);
    SpaceKeepsQuoted(after);
  }

  lemma {:induction false} SplitGivesStatements(s: string, m: Mode, cur: string)
    requires Clean(cur, Live) && End(cur, Live) == m
    ensures Statements(SplitFrom(s, m, cur))
  {
    if s == "" {
      FlushedSegment(cur, false);
    } else if Outside(m) && s[0] == ';' {
      FlushedSegment(cur, true);
      SplitGivesStatements(s[1..], Live, "");
    } else {
      CleanAppend(cur, [s[0]], Live);
      EndAppend(cur, [s[0]], Live);
      assert [s[0]][1..] == "";
      SplitGivesStatements(s[1..], Next(m, s[0]), cur + [s[0]]);
    }
  }

  /** A statement is one statement: splitting it again gives it back, alone and unchanged. */
  lemma PieceIsOnePiece(script: string, i: nat)
    requires i < |Split(script)|
    ensures Split(Split(script)[i]) == [Split(script)[i]]
  {
    var p := Split(script)[i];
    SplitGivesStatements(script, Live, "");
    SplitClean(p, Live, "");
    assert "" + p == p && "" + p + "" == p;
    TrimOf("", p, "");
  }

  function Join(ps: seq<string>): string {
    if |ps| == 0 then "" else if |ps| == 1 then ps[0] else ps[0] + "\n;\n" + Join(ps[1..])
  }

  lemma {:induction false} SplitOfJoin(ps: seq<string>, cur: string)
    requires Statements(ps) && AllSpace(cur)
    ensures SplitFrom(Join(ps), Live, cur) == ps
  {
    if |ps| == 0 {
      TrimOfSpace(cur);
    } else if |ps| == 1 {
      SplitClean(ps[0], Live, cur);
      assert cur + ps[0] == cur + ps[0] + "";
      TrimOf(cur, ps[0], "");
    } else {
      var p, rest := ps[0], Join(ps[1..]);
      assert Join(ps) == (p + "\n") + ";" + ("\n" + rest);
      CleanAppend(p, "\n", Live);
      EndAppend(p, "\n", Live);
      assert "\n"[1..] == "";
      SplitAtSemicolon(p + "\n", Live, cur, "\n" + rest);
      assert cur + (p + "\n") == cur + p + "\n";
      TrimOf(cur, p, "\n");
      assert ("\n" + rest)[1..] == rest && "" + ['\n'] == "\n";
      SplitOfJoin(ps[1..], "\n");
    }
  }

  /** Splitting the statements of a script, joined back together, gives the same statements. */
  lemma SplitJoinRoundTrip(script: string)
    ensures Split(Join(Split(script))) == Split(script)
  {
    SplitGivesStatements(script, Live, "");
    SplitOfJoin(Split(script), "");
  }

  // ----------------------------------------------------- rewriting placeholders

  function Digit(d: nat): char
    requires d < 10
  {
    "0123456789"[d]
  }

  /** strconv.Itoa for the counts of placeholders. */
  function Itoa(n: nat): (s: string)
    ensures s != "" && forall i | 0 <= i < |s| :: '0' <= s[i] <= '9'
  {
    if n < 10 then [Digit(n)] else Itoa(n / 10) + [Digit(n % 10)]
  }

  /** The number a text of digits stands for. */
  function Value(s: string): nat
    requires forall i | 0 <= i < |s| :: '0' <= s[i] <= '9'
  {
    if s == "" then 0 else 10 * Value(s[..|s| - 1]) + (s[|s| - 1] as int - '0' as int)
  }

  /** In decimal, without leading zeros. */
  lemma {:induction false} ItoaReads(n: nat)
    ensures Value(Itoa(n)) == n && (n > 0 ==> Itoa(n)[0] != '0')
  {
    if n >= 10 {
      ItoaReads(n / 10);
      assert Itoa(n)[..|Itoa(n)| - 1] == Itoa(n / 10);
    } else {
      assert Itoa(n)[..0] == "";
    }
  }

  /** The rewriting of what is left, n placeholders having been numbered. */
  function RebindFrom(s: string, m: Mode, n: nat): string {
    if s == "" then ""
    else if Outside(m) && s[0] == '?' then "$" + Itoa(n + 1) + RebindFrom(s[1..], Live, n + 1)
    else [s[0]] + RebindFrom(s[1..], Next(m, s[0]), n)
  }

  lemma RebindStep(q: string, i: nat, n: nat)
    requires i < |q|
    ensures RebindFrom(q[i..], End(q[..i], Live), n)
            == if Outside(End(q[..i], Live)) && q[i] == '?'
               then "$" + Itoa(n + 1) + RebindFrom(q[i + 1..], End(q[..i + 1], Live), n + 1)
               else [q[i]] + RebindFrom(q[i + 1..], End(q[..i + 1], Live), n)
  {
    EndSnoc(q, i);
    assert q[i..][1..] == q[i + 1..];
  }

  lemma AppendAssociates(a: string, b: string, c: string)
    ensures a + (b + c) == (a + b) + c
  {
  }

  /** What one turn of the loop writes, and the flags and count it leaves. */
  method RebindTurn(q: string, i: nat, inStr: bool, inLine: bool, n: nat)
    returns (piece: string, inStr': bool, inLine': bool, n': nat)
    requires i < |q| && FlagsAgree(q, i, inStr, inLine)
    ensures FlagsAgree(q, i + 1, inStr', inLine')
    ensures RebindFrom(q[i..], End(q[..i], Live), n) == piece + RebindFrom(q[i + 1..], End(q[..i + 1], Live), n')
  {
    var c := q[i];
    FlagsStep(q, i, inStr, inLine);
    RebindStep(q, i, n);
    piece, inStr', inLine', n' := [c], inStr, inLine, n;
    if inLine {
      if c == '\n' { inLine' := false; }
    } else if inStr {
      if c == '\'' { inStr' := false; }
    } else if c == '\'' {
      inStr' := true;
    } else if c == '-' && i + 1 < |q| && q[i + 1] == '-' {
      inLine' := true;
    } else if c == '?' {
      n' := n + 1;
      piece := "$" + Itoa(n');
    }
  }

  method RebindDollar(q: string) returns (out: string)
    ensures out == RebindFrom(q, Live, 0)
  {
    out := "";
    var n := 0;
    var inStr, inLine := false, false;
    var i := 0;
    assert q[..0] == "" && q[0..] == q;
    while i < |q|
      invariant 0 <= i <= |q|
      invariant FlagsAgree(q, i, inStr, inLine)
      invariant out + RebindFrom(q[i..], End(q[..i], Live), n) == RebindFrom(q, Live, 0)
    {
      var piece: string;
      piece, inStr, inLine, n := RebindTurn(q, i, inStr, inLine, n);
      AppendAssociates(out, piece, RebindFrom(q[i + 1..], End(q[..i + 1], Live), n));
      out := out + piece;
      i := i + 1;
    }
  }

  /** Character c of q at i stands outside quotes and comments. */
  predicate LiveAt(q: string, i: nat, c: char)
    requires i < |q|
  {
    Outside(End(q[..i], Live)) && q[i] == c
  }

  /** How many placeholders stand before position i. */
  function PlaceholdersBefore(q: string, i: nat): nat
    requires i <= |q|
  {
    if i == 0 then 0 else PlaceholdersBefore(q, i - 1) + if LiveAt(q, i - 1, '?') then 1 else 0
  }

  /** What position i of the query becomes: the k-th placeholder, counting from one, becomes
      $k; every other character, whatever it is inside, stays itself. */
  function Token(q: string, i: nat): string
    requires i < |q|
  {
    if LiveAt(q, i, '?') then "$" + Itoa(PlaceholdersBefore(q, i) + 1) else [q[i]]
  }

  function Tokens(q: string, i: nat): string
    requires i <= |q|
    decreases |q| - i
  {
    if i == |q| then "" else Token(q, i) + Tokens(q, i + 1)
  }

  lemma {:induction false} RebindIsTokens(q: string, i: nat)
    requires i <= |q|
    ensures RebindFrom(q[i..], End(q[..i], Live), PlaceholdersBefore(q, i)) == Tokens(q, i)
    decreases |q| - i
  {
    if i == |q| {
      assert q[i..] == "";
    } else {
      RebindStep(q, i, PlaceholdersBefore(q, i));
      RebindIsTokens(q, i + 1);
    }
  }

  /** Position by position, the rewriting numbers the placeholders from left to right and
      leaves every other character alone. */
  lemma NumberedLeftToRight(q: string)
    ensures RebindFrom(q, Live, 0) == Tokens(q, 0)
  {
    assert q[0..] == q && q[..0] == "";
    RebindIsTokens(q, 0);
  }

  /** The inverse: a live $ followed by the number whose turn it is becomes ? again. */
  function UnbindFrom(s: string, m: Mode, n: nat): string
    decreases |s|
  {
    if s == "" then ""
    else if Outside(m) && s[0] == '$' && Itoa(n + 1) <= s[1..] then
      "?" + UnbindFrom(s[1 + |Itoa(n + 1)|..], Live, n + 1)
    else [s[0]] + UnbindFrom(s[1..], Next(m, s[0]), n)
  }

  /** A live $ at the head of s would be taken for the placeholder whose turn it is. */
  predicate Clash(s: string, m: Mode, n: nat) {
    s != "" && Outside(m) && s[0] == '$' && Itoa(n + 1) <= s[1..]
  }

  /** What is left, read from m with n placeholders numbered, meets no clash. */
  predicate ReadsBack(s: string, m: Mode, n: nat) {
    s == "" ||
    (if Outside(m) && s[0] == '?' then ReadsBack(s[1..], Live, n + 1)
     else !Clash(s, m, n) && ReadsBack(s[1..], Next(m, s[0]), n))
  }

  /** Digits stand at the head of the rewriting exactly when they stand at the head of the text. */
  lemma {:induction false} DigitsSurvive(d: string, s: string, m: Mode, n: nat)
    requires forall i | 0 <= i < |d| :: '0' <= d[i] <= '9'
    ensures d <= RebindFrom(s, m, n) <==> d <= s
  {
    if d != "" && s != "" {
      var out := RebindFrom(s, m, n);
      if Outside(m) && s[0] == '?' {
        assert out[0] == '$';
      } else {
        assert out[0] == s[0] && out[1..] == RebindFrom(s[1..], Next(m, s[0]), n);
        DigitsSurvive(d[1..], s[1..], Next(m, s[0]), n);
        assert d <= out <==> d[0] == out[0] && d[1..] <= out[1..];
        assert d <= s <==> d[0] == s[0] && d[1..] <= s[1..];
      }
    }
  }

  lemma {:induction false} UnbindRebind(s: string, m: Mode, n: nat)
    ensures UnbindFrom(RebindFrom(s, m, n), m, n) == s <==> ReadsBack(s, m, n)
  {
    if s != "" {
      var out := RebindFrom(s, m, n);
      assert s == [s[0]] + s[1..];
      if Outside(m) && s[0] == '?' {
        var rest := RebindFrom(s[1..], Live, n + 1);
        assert out[1..] == Itoa(n + 1) + rest;
        assert out[1 + |Itoa(n + 1)|..] == rest;
        UnbindRebind(s[1..], Live, n + 1);
      } else {
        assert out[1..] == RebindFrom(s[1..], Next(m, s[0]), n);
        DigitsSurvive(Itoa(n + 1), s[1..], Next(m, s[0]), n);
        UnbindRebind(s[1..], Next(m, s[0]), n);
      }
    }
  }

  /** Position i of the query holds a live $ followed by the number of the next placeholder. */
  predicate ClashAt(q: string, i: nat)
    requires i < |q|
  {
    LiveAt(q, i, '$') && Itoa(PlaceholdersBefore(q, i) + 1) <= q[i + 1..]
  }

  lemma {:induction false} ClashPositions(q: string, i: nat)
    requires i <= |q|
    ensures ReadsBack(q[i..], End(q[..i], Live), PlaceholdersBefore(q, i)) <==>
      forall k | i <= k < |q| :: !ClashAt(q, k)
    decreases |q| - i
  {
    if i == |q| {
      assert q[i..] == "";
    } else {
      EndSnoc(q, i);
      assert q[i..][1..] == q[i + 1..] && q[i..][0] == q[i];
      ClashPositions(q, i + 1);
      assert ClashAt(q, i) <==> Clash(q[i..], End(q[..i], Live), PlaceholdersBefore(q, i));
    }
  }

  /** The rewriting is undone by reading live $k back, each in its turn, exactly when no live $
      of the query is followed by the number whose turn it is. */
  lemma RebindRoundTrip(q: string)
    ensures UnbindFrom(RebindFrom(q, Live, 0), Live, 0) == q <==> forall i | 0 <= i < |q| :: !ClashAt(q, i)
  {
    UnbindRebind(q, Live, 0);
    ClashPositions(q, 0);
    assert q[0..] == q && q[..0] == "";
  }

  /** In particular, no two queries without a clash are rewritten to the same text. */
  lemma RebindInjective(p: string, q: string)
    requires forall i | 0 <= i < |p| :: !ClashAt(p, i)
    requires forall i | 0 <= i < |q| :: !ClashAt(q, i)
    requires RebindFrom(p, Live, 0) == RebindFrom(q, Live, 0)
    ensures p == q
  {
    RebindRoundTrip(p);
    RebindRoundTrip(q);
  }

  /** Scanning s from m meets no live placeholder. */
  predicate NoMark(s: string, m: Mode) {
    s == "" || (!(Outside(m) && s[0] == '?') && NoMark(s[1..], Next(m, s[0])))
  }

  lemma {:induction false} DigitsStayLive(d: string, s: string)
    requires forall i | 0 <= i < |d| :: '0' <= d[i] <= '9'
    ensures NoMark(d + s, Live) <==> NoMark(s, Live)
  {
    if d == "" {
      assert d + s == s;
    } else {
      assert (d + s)[0] == d[0] && (d + s)[1..] == d[1..] + s;
      DigitsStayLive(d[1..], s);
    }
  }

  lemma {:induction false} RebindLeavesNoMark(s: string, m: Mode, n: nat)
    ensures NoMark(RebindFrom(s, m, n), m)
  {
    if s != "" {
      var out := RebindFrom(s, m, n);
      if Outside(m) && s[0] == '?' {
        var rest := RebindFrom(s[1..], Live, n + 1);
        RebindLeavesNoMark(s[1..], Live, n + 1);
        DigitsStayLive(Itoa(n + 1), rest);
        assert out[0] == '$' && out[1..] == Itoa(n + 1) + rest;
      } else {
        RebindLeavesNoMark(s[1..], Next(m, s[0]), n);
        assert out[0] == s[0] && out[1..] == RebindFrom(s[1..], Next(m, s[0]), n);
      }
    }
  }

  lemma {:induction false} RebindUnbind(t: string, m: Mode, n: nat)
    requires NoMark(t, m)
    ensures RebindFrom(UnbindFrom(t, m, n), m, n) == t
    decreases |t|
  {
    if t != "" {
      var back := UnbindFrom(t, m, n);
      if Outside(m) && t[0] == '$' && Itoa(n + 1) <= t[1..] {
        var k := Itoa(n + 1);
        var rest := t[1 + |k|..];
        assert t[1..] == k + rest && t == "$" + k + rest;
        DigitsStayLive(k, rest);
        RebindUnbind(rest, Live, n + 1);
        assert back[0] == '?' && back[1..] == UnbindFrom(rest, Live, n + 1);
      } else {
        RebindUnbind(t[1..], Next(m, t[0]), n);
        assert back[0] == t[0] && back[1..] == UnbindFrom(t[1..], Next(m, t[0]), n);
        assert t == [t[0]] + t[1..];
      }
    }
  }

  /** A query with a clash shares its rewriting with another: the one that rewriting is read
      back as. */
  lemma ClashCollides(q: string, i: nat)
    requires i < |q| && ClashAt(q, i)
    ensures var p := UnbindFrom(RebindFrom(q, Live, 0), Live, 0);
      p != q && RebindFrom(p, Live, 0) == RebindFrom(q, Live, 0)
  {
    RebindRoundTrip(q);
    RebindLeavesNoMark(q, Live, 0);
    RebindUnbind(RebindFrom(q, Live, 0), Live, 0);
  }

  /** Scanning s from m meets no live $. */
  predicate NoDollar(s: string, m: Mode) {
    s == "" || (!(Outside(m) && s[0] == '$') && NoDollar(s[1..], Next(m, s[0])))
  }

  /** A query without a live $ has no clash. */
  lemma {:induction false} NoDollarReadsBack(s: string, m: Mode, n: nat)
    requires NoDollar(s, m)
    ensures ReadsBack(s, m, n)
  {
    if s != "" {
      if Outside(m) && s[0] == '?' {
        NoDollarReadsBack(s[1..], Live, n + 1);
      } else {
        NoDollarReadsBack(s[1..], Next(m, s[0]), n);
      }
    }
  }

  /** The shortest clash. */
  lemma DollarCollides()
    ensures ClashAt("$1", 0) && RebindFrom("$1", Live, 0) == RebindFrom("?", Live, 0)
    ensures !NoDollar("$x", Live) && UnbindFrom(RebindFrom("$x", Live, 0), Live, 0) == "$x"
  {
    assert Itoa(1) == "1";
    assert "$1"[1..] == "1" && "?"[1..] == "" && "1"[1..] == "" && "$1"[..0] == "";
    assert "$x"[1..] == "x" && "x"[1..] == "";
  }
}
