/**
 * The JavaScript string and array built-ins that the application's logic is
 * written with: `Array.prototype.join`, `String.prototype.split` with a
 * one-character separator, `trim`, `padStart` with a one-character filler,
 * the decimal rendering `String(n)` of an integer, and the first capture
 * group of the regular expression /\((.*?)\)/.
 */
module JsStrings {
  import opened Wrappers

  // ---------------------------------------------------------------------------
  // Counting and joining
  // ---------------------------------------------------------------------------

  /** Number of occurrences of `c` in `s`. */
  function Count(s: string, c: char): nat {
    if s == [] then 0 else (if s[0] == c then 1 else 0) + Count(s[1..], c)
  }

  lemma {:induction false} CountZero(s: string, c: char)
    ensures Count(s, c) == 0 <==> c !in s
  {
    if s != [] {
      CountZero(s[1..], c);
      assert s == [s[0]] + s[1..];
    }
  }

  /** `pieces.join(sep)`: the pieces in order, `sep` between neighbours. */
  function Join(pieces: seq<string>, sep: string): string {
    if |pieces| == 0 then ""
    else if |pieces| == 1 then pieces[0]
    else pieces[0] + sep + Join(pieces[1..], sep)
  }

  /** `line` stands in `text` on a line of its own: a line break right before and right after it. */
  ghost predicate OnOwnLine(text: string, line: string) {
    exists i :: 0 <= i <= |text| && "\n" + line + "\n" <= text[i..]
  }

  /** Every inner piece of a text joined with line breaks stands on its own line. */
  lemma {:induction false} JoinedLineOnOwnLine(lines: seq<string>, k: nat)
    requires 0 < k < |lines| - 1
    ensures OnOwnLine(Join(lines, "\n"), lines[k])
  {
    var text := Join(lines, "\n");
    var rest := Join(lines[1..], "\n");
    assert text == lines[0] + "\n" + rest;
    var off := |lines[0]|;
    if k == 1 {
      var tail := Join(lines[2..], "\n");
      assert rest == lines[1] + "\n" + tail;
      assert text[off..] == "\n" + lines[1] + "\n" + tail;
    } else {
      JoinedLineOnOwnLine(lines[1..], k - 1);
      var line := lines[k];
      var i :| 0 <= i <= |rest| && "\n" + line + "\n" <= rest[i..];
      assert text[off + 1 + i..] == rest[i..];
    }
  }

  // ---------------------------------------------------------------------------
  // Splitting on one character
  // ---------------------------------------------------------------------------

  /**
   * `s.split(c)`: the maximal runs between the occurrences of `c`. There is
   * always one piece more than there are separators, and no piece holds `c`.
   */
  function Split(s: string, c: char): (r: seq<string>)
    ensures |r| == Count(s, c) + 1
    ensures forall k :: 0 <= k < |r| ==> c !in r[k]
  {
    if s == [] then [""]
    else if s[0] == c then [""] + Split(s[1..], c)
    else
      var rest := Split(s[1..], c);
      [[s[0]] + rest[0]] + rest[1..]
  }

  /** Splitting and joining again with the same separator gives the string back. */
  lemma {:induction false} JoinSplit(s: string, c: char)
    ensures Join(Split(s, c), [c]) == s
  {
    if s != [] {
      var rest := Split(s[1..], c);
      JoinSplit(s[1..], c);
      if s[0] == c {
        if |rest| == 1 {
          assert Join(Split(s, c), [c]) == "" + [c] + rest[0];
        } else {
          assert Join(Split(s, c), [c]) == "" + [c] + Join(rest, [c]);
        }
      } else {
        if |rest| == 1 {
          assert Join(Split(s, c), [c]) == [s[0]] + rest[0];
        } else {
          assert Join(Split(s, c), [c]) == [s[0]] + rest[0] + [c] + Join(rest[1..], [c]);
          assert Join(rest, [c]) == rest[0] + [c] + Join(rest[1..], [c]);
        }
      }
      assert s == [s[0]] + s[1..];
    }
  }

  /** The first piece of a split is the text before the first separator. */
  lemma SplitHead(s: string, c: char)
    ensures c !in Split(s, c)[0]
    ensures Split(s, c)[0] <= s
    ensures |Split(s, c)[0]| < |s| ==> s[|Split(s, c)[0]|] == c
  {
    var r := Split(s, c);
    JoinSplit(s, c);
    if |r| > 1 {
      assert Join(r, [c]) == r[0] + [c] + Join(r[1..], [c]);
    }
  }

  /** Splitting `a + [c] + b`, where `a` holds no `c`, yields `a` and then the pieces of `b`. */
  lemma {:induction false} SplitAfterPiece(a: string, c: char, b: string)
    requires c !in a
    ensures Split(a + [c] + b, c) == [a] + Split(b, c)
  {
    if a == [] {
      assert a + [c] + b == [c] + b;
      assert ([c] + b)[1..] == b;
    } else {
      var s := a + [c] + b;
      assert s[0] == a[0] && s[1..] == a[1..] + [c] + b;
      SplitAfterPiece(a[1..], c, b);
      assert [a[0]] + a[1..] == a;
    }
  }

  /** Joining pieces that hold no `c` with `c`, then splitting on `c`, gives the pieces back. */
  lemma {:induction false} SplitJoin(pieces: seq<string>, c: char)
    requires |pieces| >= 1
    requires forall k :: 0 <= k < |pieces| ==> c !in pieces[k]
    ensures Split(Join(pieces, [c]), c) == pieces
  {
    if |pieces| == 1 {
      SplitNoSeparator(pieces[0], c);
    } else {
      SplitJoin(pieces[1..], c);
      SplitAfterPiece(pieces[0], c, Join(pieces[1..], [c]));
      assert [pieces[0]] + pieces[1..] == pieces;
    }
  }

  /** A string without the separator splits into itself alone. */
  lemma {:induction false} SplitNoSeparator(s: string, c: char)
    requires c !in s
    ensures Split(s, c) == [s]
  {
    if s != [] {
      SplitNoSeparator(s[1..], c);
      assert [s[0]] + s[1..] == s;
    }
  }

  // ---------------------------------------------------------------------------
  // Trimming
  // ---------------------------------------------------------------------------

  /**
   * The characters `trim` removes: ECMAScript WhiteSpace (tab, vertical tab,
   * form feed, zero-width no-break space and the space separators) together
   * with the LineTerminator characters.
   */
  predicate IsWhiteSpace(ch: char) {
    ch == '\t' || ch == '\n' || ch == '\U{000B}' || ch == '\U{000C}' || ch == '\r' ||
    ch == ' ' || ch == '\U{00A0}' || ch == '\U{1680}' ||
    ('\U{2000}' <= ch <= '\U{200A}') ||
    ch == '\U{2028}' || ch == '\U{2029}' || ch == '\U{202F}' || ch == '\U{205F}' ||
    ch == '\U{3000}' || ch == '\U{FEFF}'
  }

  /** The end of the run of white space that starts at index `i`. */
  function SpaceEnd(s: string, i: nat): (j: nat)
    requires i <= |s|
    ensures i <= j <= |s|
    ensures forall k :: i <= k < j ==> IsWhiteSpace(s[k])
    ensures j == |s| || !IsWhiteSpace(s[j])
    decreases |s| - i
  {
    if i < |s| && IsWhiteSpace(s[i]) then SpaceEnd(s, i + 1) else i
  }

  /** The start of the run of white space that ends just before index `j`. */
  function SpaceStart(s: string, j: nat): (i: nat)
    requires j <= |s|
    ensures i <= j
    ensures forall k :: i <= k < j ==> IsWhiteSpace(s[k])
    ensures i == 0 || !IsWhiteSpace(s[i - 1])
  {
    if j > 0 && IsWhiteSpace(s[j - 1]) then SpaceStart(s, j - 1) else j
  }

  /** A white-space run and a non-white-space character (or the end) after it determine where the run ends. */
  lemma SpaceEndAt(s: string, i: nat, j: nat)
    requires i <= j <= |s|
    requires forall k :: i <= k < j ==> IsWhiteSpace(s[k])
    requires j == |s| || !IsWhiteSpace(s[j])
    ensures SpaceEnd(s, i) == j
  {
  }

  /** `s` after dropping its leading white space. */
  function TrimStart(s: string): (r: string)
    ensures |r| <= |s| && r == s[|s| - |r|..]
    ensures forall k :: 0 <= k < |s| - |r| ==> IsWhiteSpace(s[k])
    ensures r == [] || !IsWhiteSpace(r[0])
  {
    s[SpaceEnd(s, 0)..]
  }

  /** `s` after dropping its trailing white space. */
  function TrimEnd(s: string): (r: string)
    ensures |r| <= |s| && r == s[..|r|]
    ensures forall k :: |r| <= k < |s| ==> IsWhiteSpace(s[k])
    ensures r == [] || !IsWhiteSpace(r[|r| - 1])
  {
    s[..SpaceStart(s, |s|)]
  }

  /** `s.trim()`. */
  function Trim(s: string): string {
    TrimEnd(TrimStart(s))
  }

  /**
   * What `trim` means: the result is the stretch of `s` between a white-space
   * prefix and a white-space suffix, and it neither starts nor ends with white
   * space.
   */
  lemma TrimIsCore(s: string)
    ensures exists i, j ::
      && 0 <= i <= j <= |s| && Trim(s) == s[i..j]
      && (forall k :: 0 <= k < i ==> IsWhiteSpace(s[k]))
      && (forall k :: j <= k < |s| ==> IsWhiteSpace(s[k]))
    ensures Trim(s) == [] || (!IsWhiteSpace(Trim(s)[0]) && !IsWhiteSpace(Trim(s)[|Trim(s)| - 1]))
  {
    var t := TrimStart(s);
    var i := |s| - |t|;
    var r := TrimEnd(t);
    var j := i + |r|;
    assert s[i..j] == t[..|r|];
    forall k | j <= k < |s| ensures IsWhiteSpace(s[k]) {
      assert s[k] == t[k - i];
    }
    if r != [] {
      assert r[0] == t[0];
    }
  }

  /** A string that neither starts nor ends with white space is its own trim. */
  lemma TrimUnchanged(s: string)
    requires s == [] || (!IsWhiteSpace(s[0]) && !IsWhiteSpace(s[|s| - 1]))
    ensures Trim(s) == s
  {
    SpaceEndAt(s, 0, 0);
  }

  /** A white-space character in front of a trimmed string is trimmed away. */
  lemma TrimAfterWhiteSpace(ch: char, w: string)
    requires IsWhiteSpace(ch) && Trim(w) == w
    ensures Trim([ch] + w) == w
  {
    TrimIsCore(w);
    var s := [ch] + w;
    SpaceEndAt(s, 0, 1);
    assert TrimStart(s) == w;
    TrimUnchanged(w);
    SpaceEndAt(w, 0, 0);
  }

  /** Trimming twice is trimming once. */
  lemma TrimIdempotent(s: string)
    ensures Trim(Trim(s)) == Trim(s)
  {
    TrimIsCore(s);
    TrimUnchanged(Trim(s));
  }

  // ---------------------------------------------------------------------------
  // Padding
  // ---------------------------------------------------------------------------

  /** `n` copies of `c`. */
  function Repeat(c: char, n: nat): (r: string)
    ensures |r| == n && forall k :: 0 <= k < n ==> r[k] == c
  {
    if n == 0 then "" else [c] + Repeat(c, n - 1)
  }

  /** `s.padStart(width, [fill])`. */
  function PadStart(s: string, width: nat, fill: char): string {
    if |s| >= width then s else Repeat(fill, width - |s|) + s
  }

  /**
   * What `padStart` means: the result is at least `width` long, ends with
   * `s`, and everything before `s` is the filler; a string that is already
   * wide enough comes back unchanged.
   */
  lemma PadStartShape(s: string, width: nat, fill: char)
    ensures var r := PadStart(s, width, fill);
      |r| == (if |s| >= width then |s| else width) &&
      r[|r| - |s|..] == s &&
      (forall k :: 0 <= k < |r| - |s| ==> r[k] == fill) &&
      (|s| >= width ==> r == s)
  {
  }

  // ---------------------------------------------------------------------------
  // Decimal numerals
  // ---------------------------------------------------------------------------

  predicate IsDigit(ch: char) {
    '0' <= ch <= '9'
  }

  function DigitChar(d: nat): (ch: char)
    requires d < 10
    ensures IsDigit(ch)
  {
    ['0', '1', '2', '3', '4', '5', '6', '7', '8', '9'][d]
  }

  function DigitValue(ch: char): nat
    requires IsDigit(ch)
  {
    (ch as int - '0' as int) as nat
  }

  /** The number a string of decimal digits denotes (leading zeros allowed). */
  function DecimalValue(digits: string): nat
    requires forall k :: 0 <= k < |digits| ==> IsDigit(digits[k])
  {
    if digits == [] then 0
    else DecimalValue(digits[..|digits| - 1]) * 10 + DigitValue(digits[|digits| - 1])
  }

  /**
   * The shortest decimal numeral of `n`: only digits, one digit exactly for
   * the numbers below ten, and no leading zero.
   */
  function NatToString(n: nat): (r: string)
    ensures |r| >= 1 && forall k :: 0 <= k < |r| ==> IsDigit(r[k])
    ensures |r| == 1 <==> n < 10
    ensures r[0] == '0' ==> n == 0
  {
    if n < 10 then [DigitChar(n)] else NatToString(n / 10) + [DigitChar(n % 10)]
  }

  /** `String(i)` for an integer `i`: a minus sign before the numeral of a negative number. */
  function IntToString(i: int): string {
    if i < 0 then "-" + NatToString(-i) else NatToString(i)
  }

  /** Reading the numeral back gives the number. */
  lemma {:induction false} NatToStringValue(n: nat)
    ensures DecimalValue(NatToString(n)) == n
  {
    if n >= 10 {
      NatToStringValue(n / 10);
      var s := NatToString(n);
      assert s[..|s| - 1] == NatToString(n / 10);
      assert DigitValue(DigitChar(n % 10)) == n % 10;
    } else {
      assert DigitValue(DigitChar(n)) == n;
    }
  }

  /** Zeros in front of a numeral do not change its value. */
  lemma {:induction false} LeadingZerosValue(zeros: nat, digits: string)
    requires forall k :: 0 <= k < |digits| ==> IsDigit(digits[k])
    ensures var s := Repeat('0', zeros) + digits;
      (forall k :: 0 <= k < |s| ==> IsDigit(s[k])) && DecimalValue(s) == DecimalValue(digits)
  {
    var s := Repeat('0', zeros) + digits;
    if digits == [] {
      assert s == Repeat('0', zeros);
      ZerosValue(zeros);
    } else {
      LeadingZerosValue(zeros, digits[..|digits| - 1]);
      assert s[..|s| - 1] == Repeat('0', zeros) + digits[..|digits| - 1];
    }
  }

  lemma {:induction false} ZerosValue(n: nat)
    ensures DecimalValue(Repeat('0', n)) == 0
  {
    if n > 0 {
      var s := Repeat('0', n);
      ZerosValue(n - 1);
      assert s[..n - 1] == Repeat('0', n - 1) by {
        RepeatSnoc(n - 1);
      }
    }
  }

  lemma {:induction false} RepeatSnoc(n: nat)
    ensures Repeat('0', n + 1) == Repeat('0', n) + "0"
  {
    if n > 0 {
      RepeatSnoc(n - 1);
    }
  }

  // ---------------------------------------------------------------------------
  // The first group of /\((.*?)\)/
  // ---------------------------------------------------------------------------

  /** The characters `.` does not match in a JavaScript regular expression. */
  predicate IsLineTerminator(ch: char) {
    ch == '\n' || ch == '\r' || ch == '\U{2028}' || ch == '\U{2029}'
  }

  /** No line terminator stands before index `k` of `t`. */
  predicate OnFirstLine(t: string, k: nat)
    requires k <= |t|
  {
    forall m :: 0 <= m < k ==> !IsLineTerminator(t[m])
  }

  /** Index of the first `)` in `t`, provided no line terminator comes before it. */
  function CloseIndex(t: string): (r: Option<nat>)
    ensures r.Some? ==> (
      && r.value < |t| && t[r.value] == ')'
      && forall k :: 0 <= k < r.value ==> t[k] != ')' && !IsLineTerminator(t[k]))
    ensures r.None? ==> forall k :: 0 <= k < |t| && t[k] == ')' ==> !OnFirstLine(t, k)
  {
    if t == [] then None
    else if t[0] == ')' then Some(0)
    else if IsLineTerminator(t[0]) then None
    else match CloseIndex(t[1..])
      case Some(k) => Some(k + 1)
      case None => None
  }

  /**
   * Where /\((.*?)\)/ matches in `s`: the index of the leftmost `(` that is
   * followed, on the same line, by a `)`, and the length of the shortest text
   * between them; absent when no `(` has one.
   */
  function ParenMatch(s: string): Option<(nat, nat)> {
    if s == [] then None
    else if s[0] == '(' && CloseIndex(s[1..]).Some? then Some((0, CloseIndex(s[1..]).value))
    else
      var m := ParenMatch(s[1..]);
      if m.None? then None else Some((m.value.0 + 1, m.value.1))
  }

  /** What a match is: an opening parenthesis, with its closing one on the same line after it. */
  lemma {:induction false} ParenMatchFound(s: string)
    ensures var r := ParenMatch(s);
      r.Some? ==> (
        && r.value.0 < |s| && s[r.value.0] == '('
        && CloseIndex(s[r.value.0 + 1..]) == Some(r.value.1))
  {
    if s != [] && !(s[0] == '(' && CloseIndex(s[1..]).Some?) {
      var m := ParenMatch(s[1..]);
      ParenMatchFound(s[1..]);
      if m.Some? {
        DropShift(s, m.value.0);
      }
    }
  }

  lemma DropShift(s: string, i: nat)
    requires i + 1 < |s|
    ensures s[1..][i] == s[i + 1] && s[1..][i + 1..] == s[i + 2..]
  {
  }

  /** No `(` before the match (or anywhere, when there is none) has a `)` on its line. */
  lemma {:induction false} ParenMatchLeftmost(s: string, i: nat)
    requires i < |s| && s[i] == '('
    requires ParenMatch(s).None? || i < ParenMatch(s).value.0
    ensures CloseIndex(s[i + 1..]).None?
  {
    if i > 0 {
      assert s[1..][i - 1] == '(' && s[1..][i..] == s[i + 1..];
      ParenMatchLeftmost(s[1..], i - 1);
    }
  }

  /** `s.match(/\((.*?)\)/)?.[1]`: the text of the first group, when the expression matches. */
  function ParenGroup(s: string): (r: Option<string>)
    ensures r.Some? ==> forall k :: 0 <= k < |r.value| ==> r.value[k] != ')' && !IsLineTerminator(r.value[k])
  {
    var m := ParenMatch(s);
    ParenMatchFound(s);
    if m.Some? then Some(s[m.value.0 + 1..m.value.0 + 1 + m.value.1]) else None
  }

  /** A parenthesised detail after a parenthesis-free prefix is where the expression matches. */
  lemma {:induction false} ParenMatchAfter(prefix: string, detail: string, suffix: string)
    requires '(' !in prefix
    requires forall k :: 0 <= k < |detail| ==> detail[k] != ')' && !IsLineTerminator(detail[k])
    ensures ParenMatch(prefix + "(" + detail + ")" + suffix) == Some((|prefix|, |detail|))
  {
    var rest := detail + ")" + suffix;
    var s := prefix + "(" + rest;
    assert prefix + "(" + detail + ")" + suffix == s;
    if prefix == [] {
      assert s[0] == '(' && s[1..] == rest;
      CloseAt(detail, suffix);
    } else {
      assert s[0] == prefix[0] && s[0] != '(';
      assert s[1..] == prefix[1..] + "(" + detail + ")" + suffix;
      ParenMatchAfter(prefix[1..], detail, suffix);
    }
  }

  /** ... and the detail is the captured group. */
  lemma {:induction false} ParenGroupAfter(prefix: string, detail: string, suffix: string)
    requires '(' !in prefix
    requires forall k :: 0 <= k < |detail| ==> detail[k] != ')' && !IsLineTerminator(detail[k])
    ensures ParenGroup(prefix + "(" + detail + ")" + suffix) == Some(detail)
  {
    var s := prefix + "(" + detail + ")" + suffix;
    ParenMatchAfter(prefix, detail, suffix);
    assert s == (prefix + "(") + detail + (")" + suffix);
    MiddleSlice(prefix + "(", detail, ")" + suffix);
  }

  lemma MiddleSlice(a: string, b: string, c: string)
    ensures (a + b + c)[|a|..|a| + |b|] == b
  {
  }

  lemma {:induction false} CloseAt(detail: string, suffix: string)
    requires forall k :: 0 <= k < |detail| ==> detail[k] != ')' && !IsLineTerminator(detail[k])
    ensures CloseIndex(detail + ")" + suffix) == Some(|detail|)
  {
    var t := detail + ")" + suffix;
    if detail != [] {
      assert t[1..] == detail[1..] + ")" + suffix;
      CloseAt(detail[1..], suffix);
    }
  }
}
