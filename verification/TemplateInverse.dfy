/** Printing and parsing templates are inverse to each other, on exactly the well-formed part lists. */
module TemplateInverse {
  import opened Basics
  import opened Template
  import opened Utf8

  /** `${` written as `$${`. */
  function Escape(s: string): string {
    if s == [] then []
    else if IsOpening(s) then "$${" + Escape(s[2..])
    else [s[0]] + Escape(s[1..])
  }

  function PrintPart(p: Part): string {
    match p
    case Lit(text) => Escape(text)
    case Expr(code) => "${" + code + "}"
  }

  function Print(parts: seq<Part>): string {
    if parts == [] then [] else PrintPart(parts[0]) + Print(parts[1..])
  }

  // ------------------------------------------------------------------ well-formedness

  function Weight(c: char): int {
    if c == '{' then 1 else if c == '}' then -1 else 0
  }

  /** Opening minus closing braces. */
  function Depth(s: string): int {
    if s == [] then 0 else Weight(s[0]) + Depth(s[1..])
  }

  ghost predicate Balanced(s: string) {
    Depth(s) == 0 && forall k :: 0 <= k <= |s| ==> Depth(s[..k]) >= 0
  }

  predicate Trimmed(s: string) {
    s != [] && !IsSpace(s[0]) && !IsSpace(s[|s| - 1])
  }

  ghost predicate PartOk(p: Part) {
    match p
    case Lit(text) => text != []
    case Expr(code) => Trimmed(code) && Balanced(code)
  }

  predicate EndsInDollar(s: string) {
    s != [] && s[|s| - 1] == '$'
  }

  /** Literals are never adjacent, and none ends in `$` right before an expression. */
  predicate MayPrecede(p: Part, q: Part) {
    p.Lit? ==> q.Expr? && !EndsInDollar(p.text)
  }

  ghost predicate WellFormed(parts: seq<Part>) {
    && (forall k :: 0 <= k < |parts| ==> PartOk(parts[k]))
    && (forall k :: 0 < k < |parts| ==> MayPrecede(parts[k - 1], parts[k]))
  }

  // ------------------------------------------------------------------------ literals

  lemma {:induction false} EscapeStart(s: string)
    ensures s == [] <==> Escape(s) == []
    ensures s != [] ==> Escape(s)[0] == s[0]
    ensures !IsOpening(Escape(s))
  {
    if s != [] && !IsOpening(s) && |s| > 1 {
      EscapeStart(s[1..]);
    }
  }

  /** What may follow a literal: nothing, or an expression the literal does not run into. */
  predicate Follows(text: string, rest: string) {
    rest == [] || (IsOpening(rest) && !EndsInDollar(text))
  }

  /** Behind a character that opens nothing, the escaped remainder opens nothing either. */
  lemma NoOpeningAhead(s: string, rest: string)
    requires s != [] && !IsOpening(s) && Follows(s, rest)
    ensures var t := [s[0]] + Escape(s[1..]) + rest; !IsEscape(t) && !IsOpening(t)
  {
    EscapeStart(s[1..]);
    if |s| > 1 {
      assert ([s[0]] + Escape(s[1..]) + rest)[1] == s[1];
      if s[0] == '$' && s[1] == '$' {
        if |s| == 2 {
          assert Escape(s[1..]) == "$" by { assert s[1..] == "$" && "$"[1..] == []; }
        } else {
          assert |Escape(s[1..])| >= 2 by { EscapeStart(s[1..][1..]); }
        }
      }
    }
  }

  lemma RestOfEscape(x: string, lit: string, at: nat)
    ensures Rest("$${" + x, lit, at) == Rest(x, lit + "${", at + 3)
  {
    assert ("$${" + x)[3..] == x;
  }

  lemma RestOfChar(c: char, x: string, lit: string, at: nat)
    requires !IsEscape([c] + x) && !IsOpening([c] + x)
    ensures Rest([c] + x, lit, at) == Rest(x, lit + [c], at + CharLen(c))
  {
    assert ([c] + x)[1..] == x;
  }

  lemma EscapeLen(s: string)
    requires s != []
    ensures ByteLen(Escape(s)) ==
      if IsOpening(s) then 3 + ByteLen(Escape(s[2..])) else CharLen(s[0]) + ByteLen(Escape(s[1..]))
  {
    if IsOpening(s) {
      ByteLenAppend("$${", Escape(s[2..]));
      EscapeBytes("$${");
      assert "$${"[..3] == "$${";
    } else {
      ByteLenAppend([s[0]], Escape(s[1..]));
      OneCharBytes(s);
      assert s[..1] == [s[0]];
    }
  }

  lemma StepOverOpening(s: string, rest: string, lit: string, at: nat)
    requires IsOpening(s)
    ensures Rest(Escape(s) + rest, lit, at) == Rest(Escape(s[2..]) + rest, lit + "${", at + 3)
    ensures lit + "${" + s[2..] == lit + s
  {
    assert Escape(s) + rest == "$${" + (Escape(s[2..]) + rest);
    RestOfEscape(Escape(s[2..]) + rest, lit, at);
  }

  lemma StepOverChar(s: string, rest: string, lit: string, at: nat)
    requires s != [] && !IsOpening(s) && Follows(s, rest)
    ensures Rest(Escape(s) + rest, lit, at) == Rest(Escape(s[1..]) + rest, lit + [s[0]], at + CharLen(s[0]))
    ensures lit + [s[0]] + s[1..] == lit + s
  {
    NoOpeningAhead(s, rest);
    assert Escape(s) + rest == [s[0]] + (Escape(s[1..]) + rest) == [s[0]] + Escape(s[1..]) + rest;
    RestOfChar(s[0], Escape(s[1..]) + rest, lit, at);
  }

  /** An escaped literal parses to itself and leaves the rest to be parsed. */
  lemma {:induction false} EscapedLiteral(s: string, rest: string, lit: string, at: nat, end: nat)
    requires Follows(s, rest) && end == at + ByteLen(Escape(s))
    ensures Rest(Escape(s) + rest, lit, at) == Rest(rest, lit + s, end)
    decreases |s|
  {
    if s == [] {
      assert Escape(s) + rest == rest && lit + s == lit;
    } else if IsOpening(s) {
      EscapeLen(s);
      StepOverOpening(s, rest, lit, at);
      EscapedLiteral(s[2..], rest, lit + "${", at + 3, end);
    } else {
      EscapeLen(s);
      StepOverChar(s, rest, lit, at);
      EscapedLiteral(s[1..], rest, lit + [s[0]], at + CharLen(s[0]), end);
    }
  }

  /** Every string survives escaping, parsing and rendering, whatever the resolver. */
  lemma EscapeRoundTrip(s: string, resolve: string -> Option<string>)
    ensures Parsed(Escape(s)).Ok? && IsLiteral(Parsed(Escape(s)).value)
    ensures Rendered(Parsed(Escape(s)).value, resolve) == Ok(s)
  {
    EscapedLiteral(s, [], [], 0, ByteLen(Escape(s)));
    assert Escape(s) + [] == Escape(s) && [] + s == s;
    assert Parsed(Escape(s)) == Ok(Flush(s));
    if s != [] {
      assert [Lit(s)][..0] == [];
      assert [] + s == s;
    }
  }

  // --------------------------------------------------------------------- expressions

  lemma {:induction false} DepthAppend(a: string, b: string)
    ensures Depth(a + b) == Depth(a) + Depth(b)
  {
    if a == [] {
      assert a + b == b;
    } else {
      assert (a + b)[1..] == a[1..] + b;
      DepthAppend(a[1..], b);
    }
  }

  /** `j` is the first place where the depth, counted from `depth`, falls to zero. */
  ghost predicate FirstClose(s: string, depth: nat, j: nat) {
    && j < |s| && s[j] == '}' && depth + Depth(s[..j]) == 1
    && forall k :: 0 <= k <= j ==> depth + Depth(s[..k]) >= 1
  }

  lemma PrefixDepth(s: string, k: nat)
    requires 0 < k <= |s|
    ensures Depth(s[..k]) == Weight(s[0]) + Depth(s[1..][..k - 1])
  {
    assert s[..k][1..] == s[1..][..k - 1];
  }

  lemma FirstCloseStep(s: string, depth: nat, j: nat)
    requires s != [] && depth >= 1 && !(s[0] == '}' && depth == 1)
    ensures FirstClose(s, depth, j + 1) <==> FirstClose(s[1..], depth + Weight(s[0]), j)
  {
    var d := depth + Weight(s[0]);
    assert forall k :: 0 < k <= |s| ==> Depth(s[..k]) == Weight(s[0]) + Depth(s[1..][..k - 1]) by {
      forall k | 0 < k <= |s| ensures Depth(s[..k]) == Weight(s[0]) + Depth(s[1..][..k - 1]) {
        PrefixDepth(s, k);
      }
    }
    if FirstClose(s[1..], d, j) {
      forall k | 0 <= k <= j + 1 ensures depth + Depth(s[..k]) >= 1 {
        if k > 0 { assert d + Depth(s[1..][..k - 1]) >= 1; }
      }
    }
    if FirstClose(s, depth, j + 1) {
      forall k | 0 <= k <= j ensures d + Depth(s[1..][..k]) >= 1 {
        assert depth + Depth(s[..k + 1]) >= 1;
      }
    }
  }

  /** The scan stops exactly at the first closing brace that brings the depth to zero. */
  lemma {:induction false} ClosingIsFirst(s: string, depth: nat, j: nat)
    requires depth >= 1
    ensures Closing(s, depth) == Some(j) <==> FirstClose(s, depth, j)
  {
    if s == [] {
    } else if s[0] == '}' && depth == 1 {
      if j > 0 && j < |s| {
        assert s[..1] == [s[0]] && Depth(s[..1]) == -1 by { assert [s[0]][1..] == []; }
      }
    } else if j == 0 {
      assert s[..0] == [];
    } else {
      FirstCloseStep(s, depth, j - 1);
      ClosingIsFirst(s[1..], depth + Weight(s[0]), j - 1);
    }
  }

  lemma {:induction false} TrimTrimmed(s: string)
    requires Trimmed(s)
    ensures Trim(s) == s
  {
    assert TrimStart(s) == s;
    assert TrimEnd(s) == s;
  }

  /** A printed expression parses to itself and leaves the rest to be parsed. */
  lemma PrintedExpr(code: string, rest: string, lit: string, at: nat)
    requires Trimmed(code) && Balanced(code)
    ensures var p := PrintPart(Expr(code));
      Rest(p + rest, lit, at) == Prepend(Flush(lit) + [Expr(code)], Rest(rest, [], at + ByteLen(p)))
  {
    var p := PrintPart(Expr(code));
    var s := p + rest;
    var body := s[2..];
    assert body[|code|] == '}' && forall k :: 0 <= k <= |code| ==> body[..k] == code[..k];
    assert code[..|code|] == code;
    ClosingIsFirst(body, 1, |code|);
    assert s[2..2 + |code|] == code;
    TrimTrimmed(code);
    assert s[..|code| + 3] == p;
    assert s[|code| + 3..] == rest;
  }

  /** Printed parts parse back, behind an unflushed literal that an expression or nothing follows. */
  lemma {:induction false} PrintedParts(parts: seq<Part>, lit: string, at: nat)
    requires WellFormed(parts)
    requires lit == [] || parts == [] || parts[0].Expr?
    ensures Rest(Print(parts), lit, at) == Ok(Flush(lit) + parts)
    decreases |parts|
  {
    if parts == [] {
      assert Flush(lit) + parts == Flush(lit);
    } else {
      var tail := parts[1..];
      var next := at + ByteLen(PrintPart(parts[0]));
      match parts[0]
      case Expr(code) =>
        PrintedParts(tail, [], next);
        PrintedExprFirst(parts, lit, at);
      case Lit(text) =>
        assert tail != [] ==> MayPrecede(parts[0], parts[1]);
        PrintedParts(tail, text, next);
        EscapedLiteral(text, Print(tail), [], at, next);
        assert [] + text == text;
        assert Flush(lit) + parts == Flush(text) + tail;
    }
  }

  lemma PrintedExprFirst(parts: seq<Part>, lit: string, at: nat)
    requires parts != [] && parts[0].Expr? && PartOk(parts[0])
    requires Rest(Print(parts[1..]), [], at + ByteLen(PrintPart(parts[0]))) == Ok(Flush([]) + parts[1..])
    ensures Rest(Print(parts), lit, at) == Ok(Flush(lit) + parts)
  {
    PrintedExpr(parts[0].code, Print(parts[1..]), lit, at);
    PrependParts(Flush(lit), parts);
  }

  lemma PrependParts(front: seq<Part>, parts: seq<Part>)
    requires parts != []
    ensures Prepend(front + [parts[0]], Ok(Flush([]) + parts[1..])) == Ok(front + parts)
  {
    assert front + [parts[0]] + (Flush([]) + parts[1..]) == front + parts;
  }

  // ------------------------------------------------------ what the parser can produce

  lemma {:induction false} TrimStartKeeps(s: string)
    requires Balanced(s)
    ensures Balanced(TrimStart(s)) && (TrimStart(s) != [] ==> !IsSpace(TrimStart(s)[0]))
  {
    if s != [] && IsSpace(s[0]) {
      forall k | 0 <= k <= |s[1..]| ensures Depth(s[1..][..k]) >= 0 {
        PrefixDepth(s, k + 1);
      }
      TrimStartKeeps(s[1..]);
    }
  }

  lemma {:induction false} TrimEndKeeps(s: string)
    requires Balanced(s) && (s != [] ==> !IsSpace(s[0]))
    ensures Balanced(TrimEnd(s))
    ensures TrimEnd(s) != [] ==> Trimmed(TrimEnd(s))
  {
    if s != [] && IsSpace(s[|s| - 1]) {
      var t := s[..|s| - 1];
      assert s == t + [s[|s| - 1]];
      DepthAppend(t, [s[|s| - 1]]);
      assert [s[|s| - 1]][1..] == [];
      forall k | 0 <= k <= |t| ensures Depth(t[..k]) >= 0 {
        assert t[..k] == s[..k];
      }
      TrimEndKeeps(t);
    }
  }

  /** The text between an opening and its closing brace is balanced, and trimming keeps that. */
  lemma CodeIsOk(body: string, j: nat)
    requires Closing(body, 1) == Some(j) && Trim(body[..j]) != []
    ensures PartOk(Expr(Trim(body[..j])))
  {
    ClosingIsFirst(body, 1, j);
    var x := body[..j];
    forall k | 0 <= k <= |x| ensures Depth(x[..k]) >= 0 {
      assert x[..k] == body[..k];
    }
    TrimStartKeeps(x);
    TrimEndKeeps(TrimStart(x));
  }

  lemma JoinIsWellFormed(lit: string, code: string, tail: seq<Part>)
    requires WellFormed(tail) && PartOk(Expr(code)) && !EndsInDollar(lit)
    ensures WellFormed(Flush(lit) + [Expr(code)] + tail)
  {
    var parts := Flush(lit) + [Expr(code)] + tail;
    var n := |Flush(lit)| + 1;
    forall k | 0 <= k < |parts| ensures PartOk(parts[k]) {
      assert k >= n ==> parts[k] == tail[k - n];
    }
    forall k | 0 < k < |parts| ensures MayPrecede(parts[k - 1], parts[k]) {
      if k > n {
        assert parts[k - 1] == tail[k - n - 1] && parts[k] == tail[k - n];
        assert MayPrecede(tail[k - n - 1], tail[k - n]);
      }
    }
  }

  lemma {:induction false} RestIsWellFormed(s: string, lit: string, at: nat)
    requires Rest(s, lit, at).Ok?
    requires EndsInDollar(lit) ==> !IsOpening(s)
    ensures WellFormed(Rest(s, lit, at).value)
    decreases |s|
  {
    if s == [] {
    } else if IsEscape(s) {
      RestIsWellFormed(s[3..], lit + "${", at + 3);
    } else if IsOpening(s) {
      var j := Closing(s[2..], 1).value;
      assert s[2..2 + j] == s[2..][..j];
      CodeIsOk(s[2..], j);
      var next := at + ByteLen(s[..j + 3]);
      RestIsWellFormed(s[j + 3..], [], next);
      JoinIsWellFormed(lit, Trim(s[2..][..j]), Rest(s[j + 3..], [], next).value);
    } else {
      RestIsWellFormed(s[1..], lit + [s[0]], at + CharLen(s[0]));
    }
  }

  /**
   Printing and parsing are inverse on exactly the part lists the parser can produce:
   those without empty or adjacent literals, without a literal ending in `$` before an
   expression, and with trimmed, non-empty, brace-balanced expressions.
   */
  lemma PrintParseInverse(parts: seq<Part>)
    ensures Parsed(Print(parts)) == Ok(parts) <==> WellFormed(parts)
    ensures (exists s :: Parsed(s) == Ok(parts)) <==> WellFormed(parts)
  {
    if WellFormed(parts) {
      PrintedParts(parts, [], 0);
      assert Flush([]) + parts == parts;
    }
    forall s | Parsed(s) == Ok(parts) ensures WellFormed(parts) {
      RestIsWellFormed(s, [], 0);
    }
  }

  /** Printing what was parsed and parsing it again gives the same template. */
  lemma PrintingIsCanonical(s: string)
    requires Parsed(s).Ok?
    ensures Parsed(Print(Parsed(s).value)) == Parsed(s)
  {
    PrintParseInverse(Parsed(s).value);
  }

  /** A literal `$` before an expression prints as an escape and is lost. */
  lemma DollarBeforeExpression()
    ensures var parts := [Lit("$"), Expr("x")];
      Print(parts) == "$${x}" && Parsed(Print(parts)) == Ok([Lit("${x}")])
  {
    var parts := [Lit("$"), Expr("x")];
    assert parts[1..] == [Expr("x")] && [Expr("x")][1..] == [];
    assert "$"[1..] == [] && Escape("$") == "$";
    assert Print(parts) == "$${x}";
    RestOfEscape("x}", [], 0);
    assert "$${" + "x}" == "$${x}" && [] + "${" == "${";
    RestOfChar('x', "}", "${", 3);
    assert ['x'] + "}" == "x}" && "${" + ['x'] == "${x";
    RestOfChar('}', [], "${x", 4);
    assert ['}'] + [] == "}" && "${x" + ['}'] == "${x}";
  }

  // --------------------------------------------------------------------------- errors

  predicate AllSpace(s: string) {
    forall k :: 0 <= k < |s| ==> IsSpace(s[k])
  }

  lemma {:induction false} TrimStartAllSpace(s: string)
    ensures TrimStart(s) == [] <==> AllSpace(s)
  {
    if s != [] && IsSpace(s[0]) {
      TrimStartAllSpace(s[1..]);
      assert forall k :: 0 < k < |s| ==> s[k] == s[1..][k - 1];
    }
  }

  lemma {:induction false} TrimEndNonEmpty(s: string)
    requires s != [] && !IsSpace(s[0])
    ensures TrimEnd(s) != []
  {
    if IsSpace(s[|s| - 1]) {
      TrimEndNonEmpty(s[..|s| - 1]);
    }
  }

  lemma {:induction false} TrimStartFirst(s: string)
    ensures TrimStart(s) != [] ==> !IsSpace(TrimStart(s)[0])
  {
    if s != [] && IsSpace(s[0]) {
      TrimStartFirst(s[1..]);
    }
  }

  lemma TrimIsEmpty(s: string)
    ensures Trim(s) == [] <==> AllSpace(s)
  {
    TrimStartAllSpace(s);
    TrimStartFirst(s);
    if TrimStart(s) != [] {
      TrimEndNonEmpty(TrimStart(s));
    }
  }

  ghost predicate NeverCloses(body: string) {
    forall j: nat :: !FirstClose(body, 1, j)
  }

  ghost predicate ClosesOnBlanks(body: string) {
    exists j: nat :: FirstClose(body, 1, j) && AllSpace(body[..j])
  }

  /** The error names the byte offset of an opening at index `k` that is never closed, or closed on blanks. */
  ghost predicate FailsAt(s: string, e: Error, k: nat) {
    && k + 2 <= |s| && IsOpening(s[k..])
    && match e
       case Unterminated(at) => at == ByteLen(s[..k]) && NeverCloses(s[k + 2..])
       case Empty(at) => at == ByteLen(s[..k]) && ClosesOnBlanks(s[k + 2..])
       case Unresolved(_) => false
  }

  lemma ClosingFails(body: string)
    ensures Closing(body, 1).None? ==> NeverCloses(body)
    ensures Closing(body, 1).Some? && Trim(body[..Closing(body, 1).value]) == [] ==> ClosesOnBlanks(body)
  {
    var close := Closing(body, 1);
    if close.Some? {
      ClosingIsFirst(body, 1, close.value);
      TrimIsEmpty(body[..close.value]);
    } else {
      forall j: nat ensures !FirstClose(body, 1, j) {
        ClosingIsFirst(body, 1, j);
      }
    }
  }

  lemma OpeningFails(s: string, k: nat, lit: string)
    requires k + 2 <= |s| && IsOpening(s[k..])
    requires var close := Closing(s[k + 2..], 1); close.None? || Trim(s[k + 2..k + 2 + close.value]) == []
    ensures From(s, k, lit).Err? && FailsAt(s, From(s, k, lit).error, k)
  {
    FromOpening(s, k, lit);
    ClosingFails(s[k + 2..]);
    var close := Closing(s[k + 2..], 1);
    if close.Some? {
      assert s[k + 2..k + 2 + close.value] == s[k + 2..][..close.value];
    }
  }

  lemma {:induction false} FromFails(s: string, i: nat, lit: string) returns (k: nat)
    requires i <= |s| && From(s, i, lit).Err?
    ensures FailsAt(s, From(s, i, lit).error, k)
    decreases |s| - i
  {
    if IsEscape(s[i..]) {
      FromEscape(s, i, lit);
      k := FromFails(s, i + 3, lit + "${");
    } else if IsOpening(s[i..]) {
      FromOpening(s, i, lit);
      var close := Closing(s[i + 2..], 1);
      if close.None? || Trim(s[i + 2..i + 2 + close.value]) == [] {
        OpeningFails(s, i, lit);
        k := i;
      } else {
        k := FromFails(s, i + close.value + 3, []);
      }
    } else {
      FromChar(s, i, lit);
      k := FromFails(s, i + 1, lit + [s[i]]);
    }
  }

  /** Every parse error is justified at the offset it names. */
  lemma ErrorsAreJustified(s: string)
    requires Parsed(s).Err?
    ensures exists k: nat :: FailsAt(s, Parsed(s).error, k)
  {
    assert s[0..] == s;
    var k := FromFails(s, 0, []);
  }
}
