/**
  The JavaScript string built-ins the gateway and the chat client use
  (`startsWith`, `join`, `trim`, template text), plus `split` and `includes`,
  which the contracts use to state results. They are written out over
  `string` so that their corner cases are explicit: `[].join(sep)` is
  the empty string, `"".split(c)` is `[""]`, and `trim` removes exactly the
  ECMAScript WhiteSpace and LineTerminator characters.
 */
module JsText {

  /** A value that may be `undefined`. */
  datatype Option<T> = None | Some(value: T)

  /** `s.startsWith(prefix)` */
  predicate StartsWith(s: string, prefix: string) {
    |prefix| <= |s| && s[..|prefix|] == prefix
  }

  /** `needle` occurs in `hay` at index `i`. */
  predicate OccursAt(needle: string, hay: string, i: int) {
    0 <= i && i + |needle| <= |hay| && hay[i..i + |needle|] == needle
  }

  /** `hay.includes(needle)` */
  predicate Contains(hay: string, needle: string) {
    exists i | 0 <= i <= |hay| :: OccursAt(needle, hay, i)
  }

  /** Text a template literal `${v}` produces for a string that may be `undefined`. */
  function TemplateText(v: Option<string>): string {
    match v
    case None => "undefined"
    case Some(s) => s
  }

  /** Number of occurrences of `c` in `s`. */
  function CountChar(s: string, c: char): nat {
    if |s| == 0 then 0 else (if s[0] == c then 1 else 0) + CountChar(s[1..], c)
  }

  lemma {:induction false} CountCharAppend(a: string, b: string, c: char)
    ensures CountChar(a + b, c) == CountChar(a, c) + CountChar(b, c)
    decreases |a|
  {
    if |a| > 0 {
      assert (a + b)[1..] == a[1..] + b;
      CountCharAppend(a[1..], b, c);
    } else {
      assert a + b == b;
    }
  }

  function TotalLength(parts: seq<string>): nat {
    if |parts| == 0 then 0 else |parts[0]| + TotalLength(parts[1..])
  }

  function TotalCount(parts: seq<string>, c: char): nat {
    if |parts| == 0 then 0 else CountChar(parts[0], c) + TotalCount(parts[1..], c)
  }

  /** `parts.join(sep)`: the parts in order, `sep` between neighbours only. */
  function Join(parts: seq<string>, sep: string): (r: string)
    ensures |parts| > 0 ==> |r| == TotalLength(parts) + (|parts| - 1) * |sep|
    ensures |parts| == 0 ==> r == ""
    decreases |parts|
  {
    if |parts| == 0 then ""
    else if |parts| == 1 then parts[0]
    else parts[0] + sep + Join(parts[1..], sep)
  }

  /** Joining with a one-character separator adds exactly one separator
      between each pair of neighbouring parts: n parts, n - 1 separators. */
  lemma {:induction false} JoinSeparatorCount(parts: seq<string>, c: char)
    requires |parts| > 0
    ensures CountChar(Join(parts, [c]), c) == TotalCount(parts, c) + |parts| - 1
    decreases |parts|
  {
    if |parts| > 1 {
      var rest := Join(parts[1..], [c]);
      JoinSeparatorCount(parts[1..], c);
      CountCharAppend(parts[0], [c] + rest, c);
      CountCharAppend([c], rest, c);
      assert parts[0] + [c] + rest == parts[0] + ([c] + rest);
    }
  }

  /** `s.split(c)` for a one-character separator: the maximal separator-free
      pieces, one more than there are separators. */
  function Split(s: string, c: char): (r: seq<string>)
    ensures |r| == CountChar(s, c) + 1
    ensures forall i | 0 <= i < |r| :: c !in r[i]
    decreases |s|
  {
    if |s| == 0 then [""]
    else
      var rest := Split(s[1..], c);
      if s[0] == c then [""] + rest
      else [[s[0]] + rest[0]] + rest[1..]
  }

  /** A separator-free prefix glues onto the first piece. */
  lemma {:induction false} SplitSeparatorFreePrefix(x: string, t: string, c: char)
    requires c !in x
    ensures Split(x + t, c) == [x + Split(t, c)[0]] + Split(t, c)[1..]
    decreases |x|
  {
    if |x| == 0 {
      assert x + t == t;
      assert x + Split(t, c)[0] == Split(t, c)[0];
      assert Split(t, c) == [Split(t, c)[0]] + Split(t, c)[1..];
    } else {
      assert (x + t)[0] == x[0];
      assert (x + t)[1..] == x[1..] + t;
      SplitSeparatorFreePrefix(x[1..], t, c);
      assert [x[0]] + (x[1..] + Split(t, c)[0]) == x + Split(t, c)[0];
    }
  }

  /** `split` undoes `join` when no part contains the separator. */
  lemma {:induction false} SplitJoin(parts: seq<string>, c: char)
    requires |parts| > 0
    requires forall i | 0 <= i < |parts| :: c !in parts[i]
    ensures Split(Join(parts, [c]), c) == parts
    decreases |parts|
  {
    if |parts| == 1 {
      SplitSeparatorFreePrefix(parts[0], "", c);
      assert parts[0] + "" == parts[0];
    } else {
      var rest := Join(parts[1..], [c]);
      SplitJoin(parts[1..], c);
      assert parts[0] + [c] + rest == parts[0] + ([c] + rest);
      SplitSeparatorFreePrefix(parts[0], [c] + rest, c);
      assert ([c] + rest)[1..] == rest;
      assert Split([c] + rest, c) == [""] + parts[1..];
      assert parts[0] + "" == parts[0];
      assert parts == [parts[0]] + parts[1..];
    }
  }

  /** ECMAScript WhiteSpace and LineTerminator code points: what `trim` removes. */
  predicate IsJsWhitespace(ch: char) {
    || ch == '\t' || ch == '\n' || ch == '\U{000B}' || ch == '\U{000C}' || ch == '\r'
    || ch == ' ' || ch == '\U{00A0}' || ch == '\U{1680}'
    || ('\U{2000}' <= ch <= '\U{200A}')
    || ch == '\U{2028}' || ch == '\U{2029}' || ch == '\U{202F}' || ch == '\U{205F}'
    || ch == '\U{3000}' || ch == '\U{FEFF}'
  }

  predicate IsBlank(s: string) {
    forall i | 0 <= i < |s| :: IsJsWhitespace(s[i])
  }

  /** `s.trimStart()` */
  function TrimStart(s: string): (r: string)
    ensures r == "" <==> IsBlank(s)
    ensures r != "" ==> !IsJsWhitespace(r[0])
    ensures |r| <= |s| && r == s[|s| - |r|..]
    decreases |s|
  {
    if |s| > 0 && IsJsWhitespace(s[0]) then TrimStart(s[1..]) else s
  }

  /** `s.trimEnd()` */
  function TrimEnd(s: string): (r: string)
    ensures r == "" <==> IsBlank(s)
    ensures r != "" ==> !IsJsWhitespace(r[|r| - 1])
    ensures |r| <= |s| && r == s[..|r|]
    decreases |s|
  {
    if |s| > 0 && IsJsWhitespace(s[|s| - 1]) then TrimEnd(s[..|s| - 1]) else s
  }

  /** `s.trim()` */
  function Trim(s: string): (r: string)
    ensures r != "" ==> !IsJsWhitespace(r[0]) && !IsJsWhitespace(r[|r| - 1])
  {
    TrimEnd(TrimStart(s))
  }

  /** `!s.trim()` holds exactly for strings made only of whitespace. */
  lemma TrimEmptyIffBlank(s: string)
    ensures Trim(s) == "" <==> IsBlank(s)
  {
    var t := TrimStart(s);
    if t != "" {
      assert !IsBlank(t) by { assert !IsJsWhitespace(t[0]); }
    }
  }
}
