/** The Python string operations the modelled code relies on, written out over
    `seq<char>`: whitespace stripping, ASCII case mapping, substring search,
    splitting and joining, decimal rendering and `int()` parsing, and the
    UTF-8 encoded length of a string (RFC 3629, section 3). */
module Text {
  import opened Wrappers

  /** Python's `str.isspace()` on one character (the Unicode White_Space set
      that `str.strip()` and `str.split()` use). */
  predicate IsSpace(c: char)
  {
    c == ' ' || ('\t' <= c <= '\r') || ('\U{1C}' <= c <= '\U{1F}') || c == '\U{85}' || c == '\U{A0}'
    || c == '\U{1680}' || ('\U{2000}' <= c <= '\U{200A}') || c == '\U{2028}' || c == '\U{2029}'
    || c == '\U{202F}' || c == '\U{205F}' || c == '\U{3000}'
  }

  predicate IsDigit(c: char) { '0' <= c <= '9' }

  predicate StartsWith(s: string, p: string) { |p| <= |s| && s[..|p|] == p }

  predicate EndsWith(s: string, p: string) { |p| <= |s| && s[|s| - |p|..] == p }

  predicate OccursAt(s: string, sub: string, i: nat) { i + |sub| <= |s| && s[i..i + |sub|] == sub }

  /** The first index at or after `i` where `sub` occurs. */
  function FindFrom(s: string, sub: string, i: nat): (r: Option<nat>)
    requires i <= |s|
    ensures r.Some? ==> i <= r.value && OccursAt(s, sub, r.value)
    ensures r.Some? ==> forall j :: i <= j < r.value ==> !OccursAt(s, sub, j)
    ensures r.None? ==> forall j :: i <= j <= |s| ==> !OccursAt(s, sub, j)
    decreases |s| - i
  {
    if OccursAt(s, sub, i) then Some(i)
    else if i == |s| then None
    else FindFrom(s, sub, i + 1)
  }

  /** Python's `s.find(sub)`, with `None` for -1. */
  function Find(s: string, sub: string): Option<nat> { FindFrom(s, sub, 0) }

  /** Python's `sub in s`. */
  predicate Contains(s: string, sub: string) { Find(s, sub).Some? }

  lemma ContainsAt(s: string, sub: string, i: nat)
    requires OccursAt(s, sub, i)
    ensures Contains(s, sub)
  {
  }

  lemma ContainsWitness(s: string, sub: string)
    requires Contains(s, sub)
    ensures exists i :: OccursAt(s, sub, i)
  {
    assert OccursAt(s, sub, Find(s, sub).value);
  }

  function LowerChar(c: char): char
  {
    if 'A' <= c <= 'Z' then (c as int + 32) as char else c
  }

  function UpperChar(c: char): char
  {
    if 'a' <= c <= 'z' then (c as int - 32) as char else c
  }

  /** `str.lower()` on ASCII letters; every other character is left as it is. */
  function Lower(s: string): (r: string)
    ensures |r| == |s| && forall i :: 0 <= i < |s| ==> r[i] == LowerChar(s[i])
  {
    if s == [] then [] else [LowerChar(s[0])] + Lower(s[1..])
  }

  /** `str.upper()` on ASCII letters; every other character is left as it is. */
  function Upper(s: string): (r: string)
    ensures |r| == |s| && forall i :: 0 <= i < |s| ==> r[i] == UpperChar(s[i])
  {
    if s == [] then [] else [UpperChar(s[0])] + Upper(s[1..])
  }

  /** No ASCII capital letter occurs in `s`. */
  predicate NoUpperCase(s: string)
  {
    forall i :: 0 <= i < |s| ==> !('A' <= s[i] <= 'Z')
  }

  /** Lowercasing ignores an earlier `upper()` or `lower()`. */
  lemma LowerAbsorbs(s: string)
    ensures Lower(Upper(s)) == Lower(s) && Lower(Lower(s)) == Lower(s)
  {
    forall i | 0 <= i < |s|
      ensures Lower(Upper(s))[i] == Lower(s)[i] && Lower(Lower(s))[i] == Lower(s)[i]
    {
      assert Upper(s)[i] == UpperChar(s[i]) && Lower(s)[i] == LowerChar(s[i]);
    }
  }

  /** A string without capitals is its own lowercase. */
  lemma LowerOfNoUpper(s: string)
    requires NoUpperCase(s)
    ensures Lower(s) == s
  {
    forall i | 0 <= i < |s| ensures Lower(s)[i] == s[i] {
      assert Lower(s)[i] == LowerChar(s[i]);
    }
  }

  /** `s.lstrip()`: the whitespace at the start removed. */
  function LStrip(s: string): string
  {
    if s != [] && IsSpace(s[0]) then LStrip(s[1..]) else s
  }

  /** `s.rstrip()`: the whitespace at the end removed. */
  function RStrip(s: string): string
  {
    if s != [] && IsSpace(s[|s| - 1]) then RStrip(s[..|s| - 1]) else s
  }

  /** `lstrip()` cuts exactly the leading whitespace. */
  lemma {:induction false} LStripCuts(s: string)
    ensures var r := LStrip(s);
      |r| <= |s| && r == s[|s| - |r|..] && (r != [] ==> !IsSpace(r[0]))
      && forall i :: 0 <= i < |s| - |r| ==> IsSpace(s[i])
  {
    if s != [] && IsSpace(s[0]) {
      LStripCuts(s[1..]);
      var r := LStrip(s[1..]);
      assert s[1..][|s| - 1 - |r|..] == s[|s| - |r|..];
      assert forall i :: 1 <= i < |s| ==> s[i] == s[1..][i - 1];
    }
  }

  /** `rstrip()` cuts exactly the trailing whitespace. */
  lemma {:induction false} RStripCuts(s: string)
    ensures var r := RStrip(s);
      |r| <= |s| && r == s[..|r|] && (r != [] ==> !IsSpace(r[|r| - 1]))
      && forall i :: |r| <= i < |s| ==> IsSpace(s[i])
  {
    if s != [] && IsSpace(s[|s| - 1]) {
      RStripCuts(s[..|s| - 1]);
    }
  }

  /** `s.strip()`. */
  function Strip(s: string): string
  {
    RStrip(LStrip(s))
  }

  /** `s.lstrip(c)` for a one-character argument. */
  function TrimLeft(s: string, c: char): string
  {
    if s != [] && s[0] == c then TrimLeft(s[1..], c) else s
  }

  /** `s.rstrip(c)` for a one-character argument, without a contract of its
      own so that names built from it stay cheap to reason about. */
  function TrimRight(s: string, c: char): string
  {
    if s != [] && s[|s| - 1] == c then TrimRight(s[..|s| - 1], c) else s
  }

  /** `s.strip(c)` for a one-character argument. */
  function StripChar(s: string, c: char): string
  {
    TrimRight(TrimLeft(s, c), c)
  }

  /** `lstrip` cuts exactly the leading run of `c`. */
  lemma {:induction false} TrimLeftCuts(s: string, c: char)
    ensures var r := TrimLeft(s, c);
      |r| <= |s| && r == s[|s| - |r|..] && (r != [] ==> r[0] != c)
      && forall i :: 0 <= i < |s| - |r| ==> s[i] == c
  {
    if s != [] && s[0] == c {
      TrimLeftCuts(s[1..], c);
      assert forall i :: 1 <= i < |s| ==> s[i] == s[1..][i - 1];
    }
  }

  /** `rstrip` cuts exactly the trailing run of `c`. */
  lemma {:induction false} TrimRightCuts(s: string, c: char)
    ensures var r := TrimRight(s, c);
      |r| <= |s| && r == s[..|r|] && (r != [] ==> r[|r| - 1] != c)
      && forall i :: |r| <= i < |s| ==> s[i] == c
  {
    if s != [] && s[|s| - 1] == c {
      TrimRightCuts(s[..|s| - 1], c);
    }
  }

  /** `strip(c)` leaves a string no longer than `s` that neither starts nor
      ends with `c`. */
  lemma StripCharCuts(s: string, c: char)
    ensures var r := StripChar(s, c);
      |r| <= |s| && (r != [] ==> r[0] != c && r[|r| - 1] != c)
  {
    var l := TrimLeft(s, c);
    TrimLeftCuts(s, c);
    TrimRightCuts(l, c);
    var r := StripChar(s, c);
    if r != [] {
      assert r[0] == l[0];
    }
  }


  /** `Strip` removes exactly the surrounding whitespace: the result is a
      slice of the input, everything cut off around it is whitespace, and the
      result neither starts nor ends with whitespace. */
  lemma StripIsSlice(s: string)
    ensures exists i, j :: StripCut(s, i, j)
    ensures Strip(s) != [] ==> !IsSpace(Strip(s)[0]) && !IsSpace(Strip(s)[|Strip(s)| - 1])
  {
    var l := LStrip(s);
    LStripCuts(s);
    RStripCuts(l);
    var i := |s| - |l|;
    var t := Strip(s);
    var j := i + |t|;
    assert t == l[..|t|] && l == s[i..];
    assert t == s[i..j];
    forall k | j <= k < |s| ensures IsSpace(s[k]) {
      assert s[k] == l[k - i];
    }
    assert StripCut(s, i, j);
  }

  /** `Strip(s)` is `s[i..j]` and everything outside `i..j` is whitespace. */
  ghost predicate StripCut(s: string, i: int, j: int)
  {
    0 <= i <= j <= |s| && Strip(s) == s[i..j]
    && (forall k :: 0 <= k < i ==> IsSpace(s[k])) && (forall k :: j <= k < |s| ==> IsSpace(s[k]))
  }

  /** Stripping twice strips nothing more. */
  lemma {:induction false} StripIdempotent(s: string)
    ensures Strip(Strip(s)) == Strip(s)
  {
    var t := Strip(s);
    StripIsSlice(s);
    if t != [] {
      assert LStrip(t) == t;
      assert RStrip(t) == t;
    }
  }

  /** Strip of a string that is all whitespace is empty, and only then. */
  lemma StripEmptyIff(s: string)
    ensures Strip(s) == [] <==> forall k :: 0 <= k < |s| ==> IsSpace(s[k])
  {
    StripIsSlice(s);
    var i, j :| StripCut(s, i, j);
    if Strip(s) == [] {
      forall k | 0 <= k < |s| ensures IsSpace(s[k]) {
        assert k < i || j <= k;
      }
    } else {
      assert s[i] == Strip(s)[0];
    }
  }

  /** `s.count(c)` for a one-character argument. */
  function CountChar(s: string, c: char): (n: nat)
    ensures n <= |s|
    ensures n == 0 <==> forall i :: 0 <= i < |s| ==> s[i] != c
  {
    if s == [] then 0 else (if s[0] == c then 1 else 0) + CountChar(s[1..], c)
  }

  lemma {:induction false} CountCharAppend(a: string, b: string, c: char)
    ensures CountChar(a + b, c) == CountChar(a, c) + CountChar(b, c)
  {
    if a == [] {
      assert a + b == b;
    } else {
      assert (a + b)[0] == a[0] && (a + b)[1..] == a[1..] + b;
      CountCharAppend(a[1..], b, c);
    }
  }

  /** The string with every occurrence of `c` removed (`s.replace(c, "")`). */
  function RemoveChar(s: string, c: char): (r: string)
    ensures |r| == |s| - CountChar(s, c)
    ensures forall i :: 0 <= i < |r| ==> r[i] != c
  {
    if s == [] then [] else (if s[0] == c then [] else [s[0]]) + RemoveChar(s[1..], c)
  }

  /** Without a first occurrence, `c` is nowhere in `s`. */
  lemma FindCharNone(s: string, c: char)
    requires Find(s, [c]).None?
    ensures forall i :: 0 <= i < |s| ==> s[i] != c
  {
    forall i | 0 <= i < |s| ensures s[i] != c {
      assert !OccursAt(s, [c], i) && s[i..i + 1] == [s[i]];
    }
  }

  /** The first occurrence of `c` in `s`. */
  lemma FindCharSome(s: string, c: char, i: nat)
    requires Find(s, [c]) == Some(i)
    ensures i < |s| && s[i] == c && forall j :: 0 <= j < i ==> s[j] != c
  {
    assert s[i..i + 1] == [c];
    forall j | 0 <= j < i ensures s[j] != c {
      assert !OccursAt(s, [c], j) && s[j..j + 1] == [s[j]];
    }
  }

  /** A first occurrence of `c` splits the count of `c` in `s`. */
  lemma CountCharFirst(s: string, c: char, i: nat)
    requires i < |s| && s[i] == c && forall j :: 0 <= j < i ==> s[j] != c
    ensures CountChar(s, c) == CountChar(s[i + 1..], c) + 1
  {
    var pre, rest, post := s[..i], s[i..], s[i + 1..];
    assert s == pre + rest;
    assert rest == [c] + post by {
      assert rest[0] == c && rest[1..] == post;
    }
    assert forall j :: 0 <= j < |pre| ==> pre[j] != c;
    assert CountChar([c] + post, c) == 1 + CountChar(post, c) by {
      assert ([c] + post)[1..] == post;
    }
    CountCharAppend(pre, rest, c);
  }

  /** `s.split(c)` for a one-character separator: the pieces between separators. */
  function SplitOn(s: string, c: char): (pieces: seq<string>)
    ensures |pieces| == CountChar(s, c) + 1
    ensures forall k :: 0 <= k < |pieces| ==> forall i :: 0 <= i < |pieces[k]| ==> pieces[k][i] != c
  {
    match Find(s, [c])
    case None =>
      FindCharNone(s, c);
      [s]
    case Some(i) =>
      FindCharSome(s, c, i);
      CountCharFirst(s, c, i);
      [s[..i]] + SplitOn(s[i + 1..], c)
  }

  /** `sep.join(pieces)`. */
  function Join(pieces: seq<string>, sep: string): string
  {
    if pieces == [] then []
    else if |pieces| == 1 then pieces[0]
    else pieces[0] + sep + Join(pieces[1..], sep)
  }

  /** Splitting on a character and joining the pieces with it restores the string. */
  lemma {:induction false} JoinSplit(s: string, c: char)
    ensures Join(SplitOn(s, c), [c]) == s
    decreases |s|
  {
    match Find(s, [c])
    case None =>
    case Some(i) =>
      assert s[i..i + 1] == [c];
      assert s == s[..i] + [c] + s[i + 1..];
      JoinSplit(s[i + 1..], c);
  }

  /** The number of whitespace-separated words, `len(s.split())`. */
  function WordCount(s: string): nat
  {
    WordsAfter(s, true)
  }

  /** Words in `s` when the character before it was whitespace (`afterSpace`) or not. */
  function WordsAfter(s: string, afterSpace: bool): nat
  {
    if s == [] then 0
    else if IsSpace(s[0]) then WordsAfter(s[1..], true)
    else (if afterSpace then 1 else 0) + WordsAfter(s[1..], false)
  }

  /** Text in which no character is whitespace is one word, unless it is empty. */
  lemma {:induction false} WordCountNoSpace(s: string, afterSpace: bool)
    requires forall i :: 0 <= i < |s| ==> !IsSpace(s[i])
    ensures WordsAfter(s, afterSpace) == if s != [] && afterSpace then 1 else 0
  {
    if s != [] {
      WordCountNoSpace(s[1..], false);
    }
  }

  function DigitChar(d: nat): char
    requires d < 10
  {
    ('0' as int + d) as char
  }

  /** `str(n)` for a natural number. */
  function NatToString(n: nat): (r: string)
    ensures |r| >= 1 && forall i :: 0 <= i < |r| ==> IsDigit(r[i])
    ensures |r| > 1 ==> r[0] != '0'
    decreases n
  {
    if n < 10 then [DigitChar(n)] else NatToString(n / 10) + [DigitChar(n % 10)]
  }

  /** `str(i)` for an integer. */
  function IntToString(i: int): string
  {
    if i < 0 then "-" + NatToString(-i) else NatToString(i)
  }

  /** The value of a non-empty string of decimal digits. */
  function DigitsValue(s: string): nat
    requires forall i :: 0 <= i < |s| ==> IsDigit(s[i])
  {
    if s == [] then 0
    else
      var last := s[|s| - 1];
      assert IsDigit(last);
      DigitsValue(s[..|s| - 1]) * 10 + (last as int - '0' as int)
  }

  predicate AllDigits(s: string) { |s| > 0 && forall i :: 0 <= i < |s| ==> IsDigit(s[i]) }

  /** Python's `int(s)` on ASCII decimal text: surrounding whitespace is
      ignored and one leading sign is allowed; anything else raises
      `ValueError`, modelled as `None`. */
  function ParseInt(s: string): (r: Option<int>)
    ensures r.Some? <==> (var t := Strip(s);
      AllDigits(t) || (|t| > 1 && (t[0] == '-' || t[0] == '+') && AllDigits(t[1..])))
  {
    var t := Strip(s);
    if AllDigits(t) then Some(DigitsValue(t))
    else if |t| > 1 && t[0] == '-' && AllDigits(t[1..]) then Some(0 - DigitsValue(t[1..]) as int)
    else if |t| > 1 && t[0] == '+' && AllDigits(t[1..]) then Some(DigitsValue(t[1..]))
    else None
  }

  lemma {:induction false} DigitsValueOfNat(n: nat)
    ensures DigitsValue(NatToString(n)) == n
    decreases n
  {
    if n >= 10 {
      var r := NatToString(n);
      assert r[..|r| - 1] == NatToString(n / 10);
      DigitsValueOfNat(n / 10);
    }
  }

  lemma StripNoSpace(s: string)
    requires forall i :: 0 <= i < |s| ==> !IsSpace(s[i])
    ensures Strip(s) == s
  {
  }

  /** Parsing what `IntToString` renders gives the number back. */
  lemma ParseIntToString(i: int)
    ensures ParseInt(IntToString(i)) == Some(i)
  {
    var r := IntToString(i);
    var d := NatToString(if i < 0 then -i else i);
    assert r == if i < 0 then "-" + d else d;
    assert forall k :: 0 <= k < |r| ==> !IsSpace(r[k]);
    StripNoSpace(r);
    DigitsValueOfNat(if i < 0 then -i else i);
    if i < 0 {
      assert r[1..] == d;
      assert !AllDigits(r);
    }
  }

  /** The number of bytes UTF-8 uses for one code point (RFC 3629, section 3). */
  function Utf8Width(c: char): (w: nat)
    ensures 1 <= w <= 4
  {
    if c as int < 0x80 then 1 else if c as int < 0x800 then 2 else if c as int < 0x10000 then 3 else 4
  }

  /** `len(s.encode("utf-8"))`. */
  function Utf8Length(s: string): (n: nat)
    ensures |s| <= n <= 4 * |s|
  {
    if s == [] then 0 else Utf8Width(s[0]) + Utf8Length(s[1..])
  }

  lemma {:induction false} Utf8LengthAppend(a: string, b: string)
    ensures Utf8Length(a + b) == Utf8Length(a) + Utf8Length(b)
  {
    if a == [] {
      assert a + b == b;
    } else {
      assert (a + b)[0] == a[0] && (a + b)[1..] == a[1..] + b;
      Utf8LengthAppend(a[1..], b);
    }
  }

  /** A longer prefix of a string never encodes to fewer bytes. */
  lemma Utf8LengthPrefixMonotone(s: string, i: nat, j: nat)
    requires i <= j <= |s|
    ensures Utf8Length(s[..i]) <= Utf8Length(s[..j]) <= Utf8Length(s)
  {
    assert s[..j] == s[..i] + s[i..j];
    Utf8LengthAppend(s[..i], s[i..j]);
    assert s == s[..j] + s[j..];
    Utf8LengthAppend(s[..j], s[j..]);
  }

  /** ASCII text encodes to one byte per character. */
  lemma {:induction false} Utf8LengthAscii(s: string)
    requires forall i :: 0 <= i < |s| ==> s[i] as int < 0x80
    ensures Utf8Length(s) == |s|
  {
    if s != [] {
      Utf8LengthAscii(s[1..]);
    }
  }
}
