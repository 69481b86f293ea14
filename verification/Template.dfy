/**
 The `${...}` interpolation templates: the parser, the renderer, and the inverse pair
 "escape and print" / "parse".

 The grammar is stated on characters; `Parse` scans UTF-8 bytes, as the program does, and is
 proved to agree with it. Error positions are byte offsets.
 */
module Template {
  import opened Basics
  import opened Utf8

  datatype Part = Lit(text: string) | Expr(code: string)

  datatype Error = Unterminated(at: nat) | Empty(at: nat) | Unresolved(code: string)

  datatype Result<T> = Ok(value: T) | Err(error: Error)

  /** The Unicode `White_Space` property. */
  predicate IsSpace(c: char) {
    var n := c as int;
    || 9 <= n <= 13 || n == 0x20 || n == 0x85 || n == 0xA0 || n == 0x1680 || 0x2000 <= n <= 0x200A
    || n == 0x2028 || n == 0x2029 || n == 0x202F || n == 0x205F || n == 0x3000
  }

  function TrimStart(s: string): string {
    if s != [] && IsSpace(s[0]) then TrimStart(s[1..]) else s
  }

  function TrimEnd(s: string): string {
    if s != [] && IsSpace(s[|s| - 1]) then TrimEnd(s[..|s| - 1]) else s
  }

  function Trim(s: string): string {
    TrimEnd(TrimStart(s))
  }

  predicate IsEscape(s: string) {
    |s| >= 3 && s[0] == '$' && s[1] == '$' && s[2] == '{'
  }

  predicate IsOpening(s: string) {
    |s| >= 2 && s[0] == '$' && s[1] == '{'
  }

  function Shift(k: nat, r: Option<nat>): Option<nat> {
    if r.Some? then Some(r.value + k) else None
  }

  /** Where the brace that closes `depth` open ones is. */
  function Closing(s: string, depth: nat): (r: Option<nat>)
    ensures r.Some? ==> r.value < |s|
  {
    if s == [] then None
    else if s[0] == '}' && depth <= 1 then Some(0)
    else
      Shift(1, Closing(s[1..], if s[0] == '{' then depth + 1 else if s[0] == '}' then depth - 1 else depth))
  }

  function Flush(lit: string): seq<Part> {
    if lit == [] then [] else [Lit(lit)]
  }

  function Prepend(front: seq<Part>, r: Result<seq<Part>>): Result<seq<Part>> {
    if r.Ok? then Ok(front + r.value) else r
  }

  /** The parts of the rest of a template, `lit` being the literal so far and `at` the byte offset. */
  function Rest(s: string, lit: string, at: nat): Result<seq<Part>>
    decreases |s|
  {
    if s == [] then Ok(Flush(lit))
    else if IsEscape(s) then Rest(s[3..], lit + "${", at + 3)
    else if IsOpening(s) then
      var close := Closing(s[2..], 1);
      if close.None? then Err(Unterminated(at))
      else
        var code := Trim(s[2..2 + close.value]);
        if code == [] then Err(Empty(at))
        else Prepend(Flush(lit) + [Expr(code)], Rest(s[close.value + 3..], [], at + ByteLen(s[..close.value + 3])))
    else Rest(s[1..], lit + [s[0]], at + CharLen(s[0]))
  }

  function Parsed(s: string): Result<seq<Part>> {
    Rest(s, [], 0)
  }

  function Rendered(parts: seq<Part>, resolve: string -> Option<string>): Result<string> {
    if parts == [] then Ok([])
    else
      var last := parts[|parts| - 1];
      match Rendered(parts[..|parts| - 1], resolve)
      case Err(e) => Err(e)
      case Ok(out) =>
        match last
        case Lit(text) => Ok(out + text)
        case Expr(code) => if resolve(code).Some? then Ok(out + resolve(code).value) else Err(Unresolved(code))
  }

  predicate IsLiteral(parts: seq<Part>) {
    forall k :: 0 <= k < |parts| ==> parts[k].Lit?
  }

  // --------------------------------------------------------------------- the loops

  const DOLLAR := 0x24
  const OPEN_BRACE := 0x7B
  const CLOSE_BRACE := 0x7D

  /** `Closing` on bytes. */
  function ClosingByte(b: seq<nat>, depth: nat): (r: Option<nat>)
    ensures r.Some? ==> r.value < |b|
  {
    if b == [] then None
    else if b[0] == CLOSE_BRACE && depth <= 1 then Some(0)
    else
      Shift(1, ClosingByte(b[1..],
        if b[0] == OPEN_BRACE then depth + 1 else if b[0] == CLOSE_BRACE then depth - 1 else depth))
  }

  /** Bytes of longer characters are not braces. */
  lemma {:induction false} ClosingSkips(x: seq<nat>, b: seq<nat>, depth: nat)
    requires forall k :: 0 <= k < |x| ==> x[k] >= 0x80
    ensures ClosingByte(x + b, depth) == Shift(|x|, ClosingByte(b, depth))
  {
    if x == [] {
      assert x + b == b;
    } else {
      assert (x + b)[1..] == x[1..] + b;
      ClosingSkips(x[1..], b, depth);
    }
  }

  lemma ClosingByteStep(s: string, depth: nat)
    requires s != [] && !(s[0] == '}' && depth <= 1)
    ensures ClosingByte(Encode(s), depth) == Shift(CharLen(s[0]), ClosingByte(Encode(s[1..]),
      if s[0] == '{' then depth + 1 else if s[0] == '}' then depth - 1 else depth))
  {
    EncodeHead(s);
    if s[0] as int < 0x80 {
      assert Encode(s)[1..] == Encode(s[1..]);
    } else {
      ClosingSkips(Encoding(s[0]), Encode(s[1..]), depth);
    }
  }

  /** The byte offset of a character index. */
  function Offset(s: string, r: Option<nat>): Option<nat>
    requires r.Some? ==> r.value <= |s|
  {
    if r.Some? then Some(ByteLen(s[..r.value])) else None
  }

  lemma OffsetShift(s: string, k: nat, r: Option<nat>)
    requires k <= |s| && (r.Some? ==> r.value <= |s[k..]|)
    ensures Shift(ByteLen(s[..k]), Offset(s[k..], r)) == Offset(s, Shift(k, r))
  {
    if r.Some? {
      ByteLenSplit(s, k, k + r.value);
    }
  }

  /** Scanning bytes and scanning characters find the same closing brace. */
  lemma {:induction false} ClosingOnBytes(s: string, depth: nat)
    requires depth >= 1
    ensures ClosingByte(Encode(s), depth) == Offset(s, Closing(s, depth))
    decreases |s|
  {
    if s == [] {
    } else if s[0] == '}' && depth == 1 {
      EncodeHead(s);
      assert s[..0] == [];
    } else {
      var d := if s[0] == '{' then depth + 1 else if s[0] == '}' then depth - 1 else depth;
      ClosingByteStep(s, depth);
      ClosingOnBytes(s[1..], d);
      OneCharBytes(s);
      OffsetShift(s, 1, Closing(s[1..], d));
    }
  }

  /** What remains to be parsed from index `i` on. */
  function From(s: string, i: nat, lit: string): Result<seq<Part>>
    requires i <= |s|
  {
    Rest(s[i..], lit, ByteLen(s[..i]))
  }

  lemma FromEscape(s: string, i: nat, lit: string)
    requires i <= |s| && IsEscape(s[i..])
    ensures From(s, i, lit) == From(s, i + 3, lit + "${") && ByteLen(s[..i + 3]) == ByteLen(s[..i]) + 3
  {
    ByteLenSplit(s, i, i + 3);
    EscapeBytes(s[i..]);
    assert s[i..][3..] == s[i + 3..];
  }

  lemma FromChar(s: string, i: nat, lit: string)
    requires i < |s| && !IsEscape(s[i..]) && !IsOpening(s[i..])
    ensures From(s, i, lit) == From(s, i + 1, lit + [s[i]]) && ByteLen(s[..i + 1]) == ByteLen(s[..i]) + CharLen(s[i])
  {
    ByteLenSplit(s, i, i + 1);
    OneCharBytes(s[i..]);
    assert s[i..][1..] == s[i + 1..];
  }

  /** The code of the expression that opens at index `k`, and the index behind it. */
  function CodeAt(s: string, k: nat, at: nat): (r: Result<(string, nat)>)
    requires k + 2 <= |s|
    ensures r.Ok? ==> k + 2 < r.value.1 <= |s|
  {
    var close := Closing(s[k + 2..], 1);
    if close.None? then Err(Unterminated(at))
    else
      var code := Trim(s[k + 2..k + 2 + close.value]);
      if code == [] then Err(Empty(at)) else Ok((code, k + 3 + close.value))
  }

  lemma FromOpening(s: string, i: nat, lit: string)
    requires i + 2 <= |s| && IsOpening(s[i..])
    ensures var r := CodeAt(s, i, ByteLen(s[..i]));
      From(s, i, lit) ==
        if r.Err? then Err(r.error) else Prepend(Flush(lit) + [Expr(r.value.0)], From(s, r.value.1, []))
  {
    var close := Closing(s[i + 2..], 1);
    assert s[i..][2..] == s[i + 2..];
    if close.Some? {
      var next := i + close.value + 3;
      ByteLenSplit(s, i, next);
      assert s[i..][2..2 + close.value] == s[i + 2..i + 2 + close.value];
      assert s[i..][close.value + 3..] == s[next..];
    }
  }

  /** The first bytes at a boundary tell which construct the characters start. */
  lemma LookAhead(s: string)
    requires s != []
    ensures var b := Encode(s);
      && |b| > 0 && LeadLen(b[0]) == CharLen(s[0])
      && (IsEscape(s) <==> |b| > 2 && b[0] == DOLLAR && b[1] == DOLLAR && b[2] == OPEN_BRACE)
      && (IsOpening(s) <==> |b| > 1 && b[0] == DOLLAR && b[1] == OPEN_BRACE)
  {
    EncodeHead(s);
    LeadGivesLength(s[0]);
    if s[0] == '$' && |s| > 1 {
      EncodeHead(s[1..]);
      if s[1] == '$' && |s| > 2 {
        EncodeHead(s[2..]);
      }
    }
  }

  lemma OpeningLen(t: string)
    requires IsOpening(t)
    ensures ByteLen(t[..2]) == 2
  {
    assert t[..2] == "${" && "${"[..1] == "$" && "$"[..0] == "";
    assert ByteLen("$") == 1;
  }

  lemma OpeningBytes(s: string, k: nat)
    requires k <= |s| && IsOpening(s[k..])
    ensures ByteLen(s[..k]) + 2 == ByteLen(s[..k + 2]) <= ByteLen(s)
  {
    PrefixLen(s, k + 2);
    ByteLenSplit(s, k, k + 2);
    OpeningLen(s[k..]);
  }

  /** Where the closing brace after index `k` is, in bytes and in characters. */
  lemma ClosingAt(s: string, k: nat)
    requires k <= |s|
    ensures var i := ByteLen(s[..k]);
      i <= |Encode(s)| && Shift(i, ClosingByte(Encode(s)[i..], 1)) == Offset(s, Shift(k, Closing(s[k..], 1)))
  {
    EncodeFrom(s, k);
    ClosingOnBytes(s[k..], 1);
    OffsetShift(s, k, Closing(s[k..], 1));
  }

  lemma AfterClosing(s: string, j: nat)
    requires j < |s| && s[j] == '}'
    ensures ByteLen(s[..j]) + 1 == ByteLen(s[..j + 1]) <= ByteLen(s)
  {
    ByteLenSplit(s, j, j + 1);
    OneCharBytes(s[j..]);
    PrefixLen(s, j + 1);
  }

  lemma {:induction false} ClosingIsBrace(s: string, depth: nat)
    ensures var r := Closing(s, depth); r.Some? ==> s[r.value] == '}'
  {
    if s != [] && !(s[0] == '}' && depth <= 1) {
      ClosingIsBrace(s[1..], if s[0] == '{' then depth + 1 else if s[0] == '}' then depth - 1 else depth);
    }
  }

  /** What the bytes from character `k` on tell the parser. */
  ghost predicate Tells(s: string, b: seq<nat>, k: nat)
    requires k <= |s|
  {
    var i := ByteLen(s[..k]);
    && i <= |b|
    && (i < |b| ==>
      && k < |s| && LeadLen(b[i]) == CharLen(s[k])
      && (IsEscape(s[k..]) <==> i + 2 < |b| && b[i] == DOLLAR && b[i + 1] == DOLLAR && b[i + 2] == OPEN_BRACE)
      && (IsOpening(s[k..]) <==> i + 1 < |b| && b[i] == DOLLAR && b[i + 1] == OPEN_BRACE))
    && Shift(i, ClosingByte(b[i..], 1)) == Offset(s, Shift(k, Closing(s[k..], 1)))
  }

  ghost predicate TellsAll(s: string, b: seq<nat>) {
    |b| == ByteLen(s) && forall k: nat {:trigger Tells(s, b, k)} :: k <= |s| ==> Tells(s, b, k)
  }

  lemma EncodeTells(s: string, k: nat)
    requires k <= |s|
    ensures Tells(s, Encode(s), k)
  {
    ClosingAt(s, k);
    var b, i := Encode(s), ByteLen(s[..k]);
    if i < |b| {
      assert s[..|s|] == s;
      EncodeFrom(s, k);
      LookAhead(s[k..]);
      assert forall n :: 0 <= n < |b| - i ==> b[i..][n] == b[i + n];
    }
  }

  lemma EncodeTellsAll(s: string)
    ensures TellsAll(s, Encode(s))
  {
    forall k: nat | k <= |s| ensures Tells(s, Encode(s), k) {
      EncodeTells(s, k);
    }
  }

  method ScanBraces(bytes: seq<nat>, start: nat) returns (r: Option<nat>)
    requires start <= |bytes|
    ensures r == Shift(start, ClosingByte(bytes[start..], 1))
  {
    var depth := 1;
    var j := start;
    while j < |bytes|
      invariant start <= j <= |bytes| && depth >= 1
      invariant Shift(start, ClosingByte(bytes[start..], 1)) == Shift(j, ClosingByte(bytes[j..], depth))
    {
      assert bytes[j..][1..] == bytes[j + 1..];
      if bytes[j] == OPEN_BRACE {
        depth := depth + 1;
      } else if bytes[j] == CLOSE_BRACE {
        depth := depth - 1;
        if depth == 0 {
          return Some(j);
        }
      }
      j := j + 1;
    }
    return None;
  }

  lemma CodeSlice(s: string, k: nat, j: nat, from: nat, to: nat)
    requires k <= j <= |s| && from == ByteLen(s[..k]) && to == ByteLen(s[..j])
    ensures IsBoundary(s, from) && IsBoundary(s, to) && from <= to && Slice(s, from, to) == s[k..j]
  {
    SliceAt(s, k, j);
  }

  /** Find the brace that closes the expression whose code starts at byte offset `start`, character `k`. */
  method FindClosing(s: string, bytes: seq<nat>, start: nat, ghost k: nat) returns (j: Option<nat>)
    requires TellsAll(s, bytes) && k <= |s| && start == ByteLen(s[..k])
    ensures j == Offset(s, Shift(k, Closing(s[k..], 1)))
  {
    assert Tells(s, bytes, k);
    j := ScanBraces(bytes, start);
  }

  /** Slice and trim the code between byte offsets `start` and `end`, characters `k` and `j`. */
  method TakeCode(s: string, start: nat, end: nat, ghost k: nat, ghost j: nat) returns (code: string)
    requires k <= j < |s| && s[j] == '}' && start == ByteLen(s[..k]) && end == ByteLen(s[..j])
    ensures code == Trim(s[k..j]) && end + 1 == ByteLen(s[..j + 1]) <= ByteLen(s)
  {
    CodeSlice(s, k, j, start, end);
    AfterClosing(s, j);
    code := Trim(Slice(s, start, end));
  }

  /** Read the expression that opens at byte offset `i`, which is character `k`. */
  method ReadExpression(s: string, bytes: seq<nat>, i: nat, ghost k: nat) returns (r: Result<string>, next: nat)
    requires TellsAll(s, bytes) && k <= |s| && i == ByteLen(s[..k]) && IsOpening(s[k..])
    ensures match CodeAt(s, k, i)
      case Err(e) => r == Err(e)
      case Ok((code, after)) => r == Ok(code) && next == ByteLen(s[..after]) <= |bytes|
  {
    OpeningBytes(s, k);
    var j := FindClosing(s, bytes, i + 2, k + 2);
    if j.None? {
      return Err(Unterminated(i)), 0;
    }
    ClosingIsBrace(s[k + 2..], 1);
    var code := TakeCode(s, i + 2, j.value, k + 2, k + 2 + Closing(s[k + 2..], 1).value);
    if code == [] {
      return Err(Empty(i)), 0;
    }
    return Ok(code), j.value + 1;
  }

  lemma CharStep(s: string, k: nat, lit: string, from: nat, to: nat)
    requires k < |s| && !IsEscape(s[k..]) && !IsOpening(s[k..])
    requires from == ByteLen(s[..k]) && to == from + CharLen(s[k])
    ensures to == ByteLen(s[..k + 1]) <= ByteLen(s) && IsBoundary(s, from) && IsBoundary(s, to)
    ensures From(s, k, lit) == From(s, k + 1, lit + Slice(s, from, to))
  {
    FromChar(s, k, lit);
    PrefixLen(s, k + 1);
    CodeSlice(s, k, k + 1, from, to);
    assert s[k..k + 1] == [s[k]];
  }

  /**
   The parser works on the UTF-8 bytes. It agrees with the grammar on characters, and never
   slices inside a character.
   */
  method Parse(s: string) returns (r: Result<seq<Part>>)
    ensures r == Parsed(s)
  {
    EncodeTellsAll(s);
    r := ParseBytes(s, Encode(s));
  }

  method ParseBytes(s: string, bytes: seq<nat>) returns (r: Result<seq<Part>>)
    requires TellsAll(s, bytes)
    ensures r == Parsed(s)
  {
    var parts: seq<Part>, lit: string, i := [], [], 0;
    // The character index that byte offset `i` stands for.
    ghost var k: nat := 0;
    assert s[0..] == s && s[..0] == [];
    PrependNothing(From(s, 0, []));
    while i < |bytes|
      invariant k <= |s| && i == ByteLen(s[..k]) <= |bytes|
      invariant Parsed(s) == Prepend(parts, From(s, k, lit))
    {
      assert Tells(s, bytes, k);
      if bytes[i] == DOLLAR && i + 1 < |bytes| {
        if bytes[i + 1] == DOLLAR && i + 2 < |bytes| && bytes[i + 2] == OPEN_BRACE {
          FromEscape(s, k, lit);
          lit := lit + "${";
          i := i + 3;
          k := k + 3;
          continue;
        }
        if bytes[i + 1] == OPEN_BRACE {
          FromOpening(s, k, lit);
          var code, next := ReadExpression(s, bytes, i, k);
          if code.Err? {
            return Err(code.error);
          }
          ghost var after := CodeAt(s, k, i).value.1;
          PrependTwice(parts, Flush(lit) + [Expr(code.value)], From(s, after, []));
          parts := parts + (Flush(lit) + [Expr(code.value)]);
          lit := [];
          BoundariesIncrease(s, k, after);
          i := next;
          k := after;
          continue;
        }
      }
      var n := LeadLen(bytes[i]);
      CharStep(s, k, lit, i, i + n);
      lit := lit + Slice(s, i, i + n);
      i := i + n;
      k := k + 1;
    }
    AtEnd(s, k);
    return Ok(parts + Flush(lit));
  }

  lemma AtEnd(s: string, k: nat)
    requires k <= |s| && ByteLen(s[..k]) >= ByteLen(s)
    ensures k == |s|
  {
    assert s[..|s|] == s;
    BoundariesOrdered(s, |s|, k);
  }

  lemma PrependNothing(r: Result<seq<Part>>)
    ensures Prepend([], r) == r
  {
    if r.Ok? {
      assert [] + r.value == r.value;
    }
  }

  lemma PrependTwice(a: seq<Part>, b: seq<Part>, r: Result<seq<Part>>)
    ensures Prepend(a, Prepend(b, r)) == Prepend(a + b, r)
  {
    if r.Ok? {
      assert a + (b + r.value) == a + b + r.value;
    }
  }

  lemma EscapeBytes(s: string)
    requires IsEscape(s)
    ensures ByteLen(s[..3]) == 3
  {
    assert s[..3] == "$${" && "$${"[..2] == "$$" && "$$"[..1] == "$" && "$"[..0] == "";
    assert ByteLen("$") == 1 && ByteLen("$$") == 2;
  }

  method Render(parts: seq<Part>, resolve: string -> Option<string>) returns (r: Result<string>)
    ensures r == Rendered(parts, resolve)
  {
    var out := [];
    for k := 0 to |parts|
      invariant Rendered(parts[..k], resolve) == Ok(out)
    {
      assert parts[..k + 1][..k] == parts[..k];
      match parts[k] {
        case Lit(text) => out := out + text;
        case Expr(code) =>
          var v := resolve(code);
          if v.None? {
            RenderFails(parts, k + 1, resolve);
            return Err(Unresolved(code));
          }
          out := out + v.value;
      }
    }
    assert parts[..|parts|] == parts;
    return Ok(out);
  }

  lemma {:induction false} RenderFails(parts: seq<Part>, k: nat, resolve: string -> Option<string>)
    requires k <= |parts| && Rendered(parts[..k], resolve).Err?
    ensures Rendered(parts, resolve) == Rendered(parts[..k], resolve)
    decreases |parts|
  {
    if k == |parts| {
      assert parts[..k] == parts;
    } else {
      assert parts[..|parts| - 1][..k] == parts[..k];
      RenderFails(parts[..|parts| - 1], k, resolve);
    }
  }
}
