/*
 * The parts of Python's string semantics that the scrapers rely on, stated
 * over `string` (= seq<char>). Character classes are the ASCII
 * approximations: `\w` is letters, digits and '_', `str.isdigit` is ASCII
 * digits, `str.lower` folds only 'A'..'Z', and whitespace is the six ASCII
 * whitespace characters.
 */
module PyText {

  datatype Option<T> = None | Some(value: T)

  predicate IsDigit(c: char) { '0' <= c <= '9' }

  predicate IsAsciiLetter(c: char) { 'a' <= c <= 'z' || 'A' <= c <= 'Z' }

  /** The `\w` character class (ASCII). */
  predicate IsWordChar(c: char) { IsAsciiLetter(c) || IsDigit(c) || c == '_' }

  /** `str.isdigit()`: non-empty and made of digits only. */
  predicate IsDigits(s: string) { |s| > 0 && forall i :: 0 <= i < |s| ==> IsDigit(s[i]) }

  predicate IsSpace(c: char) {
    c == ' ' || c == '\t' || c == '\n' || c == '\r' || c == '\U{B}' || c == '\U{C}'
  }

  function LowerChar(c: char): char {
    if 'A' <= c <= 'Z' then (c as int + 32) as char else c
  }

  /** `str.lower()`. */
  function Lower(s: string): (r: string)
    ensures |r| == |s|
    ensures forall i :: 0 <= i < |s| ==> r[i] == LowerChar(s[i])
  {
    seq(|s|, i requires 0 <= i < |s| => LowerChar(s[i]))
  }

  /** `s.startswith(p)`. */
  predicate StartsWith(s: string, p: string) { |p| <= |s| && s[..|p|] == p }

  /** `s.endswith(p)`. */
  predicate EndsWith(s: string, p: string) { |p| <= |s| && s[|s| - |p|..] == p }

  /** A suffix of a suffix is a suffix. */
  lemma EndsWithTrans(s: string, t: string, u: string)
    requires EndsWith(s, t) && EndsWith(t, u)
    ensures EndsWith(s, u)
  {
    assert s[|s| - |u|..] == s[|s| - |t|..][|t| - |u|..];
  }

  /** `sub in s` for two strings. */
  predicate Contains(s: string, sub: string)
    decreases |s|
  {
    StartsWith(s, sub) || (|s| > 0 && Contains(s[1..], sub))
  }

  /** `any(t in s for t in subs)`. */
  predicate ContainsAny(s: string, subs: seq<string>) {
    exists k :: 0 <= k < |subs| && Contains(s, subs[k])
  }

  /** `any(s.endswith(t) for t in ends)`. */
  predicate EndsWithAny(s: string, ends: seq<string>) {
    exists k :: 0 <= k < |ends| && EndsWith(s, ends[k])
  }

  lemma {:induction false} ContainsAt(s: string, sub: string, i: nat)
    requires i + |sub| <= |s| && s[i..i + |sub|] == sub
    ensures Contains(s, sub)
    decreases i
  {
    if i > 0 {
      assert s[1..][i - 1..i - 1 + |sub|] == sub;
      ContainsAt(s[1..], sub, i - 1);
    }
  }

  lemma {:induction false} ContainsWitness(s: string, sub: string) returns (i: nat)
    requires Contains(s, sub)
    ensures i + |sub| <= |s| && s[i..i + |sub|] == sub
    decreases |s|
  {
    if StartsWith(s, sub) {
      i := 0;
    } else {
      var j := ContainsWitness(s[1..], sub);
      assert s[1..][j..j + |sub|] == s[j + 1..j + 1 + |sub|];
      i := j + 1;
    }
  }

  /** A substring of a prefix, or of a suffix, is a substring of the whole. */
  lemma ContainsInConcat(a: string, b: string, sub: string)
    ensures Contains(a, sub) ==> Contains(a + b, sub)
    ensures Contains(b, sub) ==> Contains(a + b, sub)
  {
    if Contains(a, sub) {
      var i := ContainsWitness(a, sub);
      assert (a + b)[i..i + |sub|] == a[i..i + |sub|];
      ContainsAt(a + b, sub, i);
    }
    if Contains(b, sub) {
      var i := ContainsWitness(b, sub);
      assert (a + b)[|a| + i..|a| + i + |sub|] == b[i..i + |sub|];
      ContainsAt(a + b, sub, |a| + i);
    }
  }

  /** `s.lstrip()`. */
  function LStrip(s: string): (r: string)
    ensures |r| <= |s|
    decreases |s|
  {
    if |s| > 0 && IsSpace(s[0]) then LStrip(s[1..]) else s
  }

  /** What `lstrip` leaves is a suffix that does not start with whitespace. */
  lemma {:induction false} LStripSpec(s: string)
    ensures LStrip(s) == s[|s| - |LStrip(s)|..]
    ensures LStrip(s) == [] || !IsSpace(LStrip(s)[0])
    decreases |s|
  {
    if |s| > 0 && IsSpace(s[0]) {
      LStripSpec(s[1..]);
    }
  }

  /** `s.rstrip()`. */
  function RStrip(s: string): (r: string)
    ensures |r| <= |s|
    decreases |s|
  {
    if |s| > 0 && IsSpace(s[|s| - 1]) then RStrip(s[..|s| - 1]) else s
  }

  /** What `rstrip` leaves is a prefix that does not end with whitespace. */
  lemma {:induction false} RStripSpec(s: string)
    ensures RStrip(s) == s[..|RStrip(s)|]
    ensures RStrip(s) == [] || !IsSpace(RStrip(s)[|RStrip(s)| - 1])
    decreases |s|
  {
    if |s| > 0 && IsSpace(s[|s| - 1]) {
      RStripSpec(s[..|s| - 1]);
    }
  }

  /** `s.strip()`. */
  function Strip(s: string): (r: string)
    ensures |r| <= |s|
    ensures r == [] || (!IsSpace(r[0]) && !IsSpace(r[|r| - 1]))
  {
    LStripSpec(s);
    RStripSpec(LStrip(s));
    RStrip(LStrip(s))
  }

  /** `s.rstrip(c)` for one character. */
  function RStripChar(s: string, c: char): (r: string)
    ensures |r| <= |s| && r == s[..|r|]
    ensures r == [] || r[|r| - 1] != c
    decreases |s|
  {
    if |s| > 0 && s[|s| - 1] == c then RStripChar(s[..|s| - 1], c) else s
  }

  /** `s.lstrip(c)` for one character. */
  function LStripChar(s: string, c: char): (r: string)
    ensures |r| <= |s| && r == s[|s| - |r|..]
    ensures r == [] || r[0] != c
    decreases |s|
  {
    if |s| > 0 && s[0] == c then LStripChar(s[1..], c) else s
  }

  /** `min(a, b)`. */
  function Min(a: int, b: int): int {
    if a <= b then a else b
  }

  /** Python slicing `xs[:n]` for a non-negative `n`. */
  function Take<T>(xs: seq<T>, n: nat): (r: seq<T>)
    ensures |r| == if |xs| <= n then |xs| else n
    ensures r == xs[..|r|]
  {
    if |xs| <= n then xs else xs[..n]
  }

  /** `s.rfind(c)`: the last index holding `c`, or -1. */
  function RFind(s: string, c: char): (r: int)
    ensures -1 <= r < |s|
    ensures r >= 0 ==> s[r] == c
    ensures forall j :: r < j < |s| ==> s[j] != c
    decreases |s|
  {
    if |s| == 0 then -1
    else if s[|s| - 1] == c then |s| - 1
    else RFind(s[..|s| - 1], c)
  }

  /** The text after the last '/': `os.path.basename`, and `s.split('/')[-1]`. */
  function BaseName(s: string): (r: string)
    ensures forall j :: 0 <= j < |r| ==> r[j] != '/'
    ensures EndsWith(s, r)
  {
    s[RFind(s, '/') + 1..]
  }

  /** `s.split(sep)` for a one-character separator. */
  function Split(s: string, sep: char): (r: seq<string>)
    ensures |r| >= 1
    ensures forall k, j :: 0 <= k < |r| && 0 <= j < |r[k]| ==> r[k][j] != sep && r[k][j] in s
    decreases |s|
  {
    if |s| == 0 then [""]
    else if s[0] == sep then [""] + Split(s[1..], sep)
    else
      var rest := Split(s[1..], sep);
      [[s[0]] + rest[0]] + rest[1..]
  }

  /** The non-empty strings of `parts`, in order. */
  function NonEmpty(parts: seq<string>): (r: seq<string>)
    ensures forall k :: 0 <= k < |r| ==> r[k] != "" && r[k] in parts
    decreases |parts|
  {
    if |parts| == 0 then []
    else if parts[|parts| - 1] == "" then NonEmpty(parts[..|parts| - 1])
    else NonEmpty(parts[..|parts| - 1]) + [parts[|parts| - 1]]
  }

  /** `s.split()`: the maximal runs of non-whitespace characters. */
  function Words(s: string): (r: seq<string>)
    ensures forall k :: 0 <= k < |r| ==> r[k] != "" && forall j :: 0 <= j < |r[k]| ==> !IsSpace(r[k][j])
  {
    var t := ReplaceWhere(s, IsSpace, ' ');
    var parts := Split(t, ' ');
    forall k, j | 0 <= k < |parts| && 0 <= j < |parts[k]|
      ensures !IsSpace(parts[k][j])
    {
      var c := parts[k][j];
      var i :| 0 <= i < |t| && t[i] == c;
    }
    NonEmpty(parts)
  }

  /** `sep.join(parts)`. */
  function Join(parts: seq<string>, sep: string): (r: string)
    decreases |parts|
  {
    if |parts| == 0 then ""
    else if |parts| == 1 then parts[0]
    else parts[0] + sep + Join(parts[1..], sep)
  }

  /** Splitting on a separator and joining back with it gives the input. */
  lemma {:induction false} JoinSplit(s: string, sep: char)
    ensures Join(Split(s, sep), [sep]) == s
    decreases |s|
  {
    if |s| > 0 {
      JoinSplit(s[1..], sep);
      if s[0] == sep {
        assert s == [sep] + s[1..];
      } else {
        JoinSplitCons(s, sep);
      }
    }
  }

  /** The step of `JoinSplit` where the first character joins the first part. */
  lemma JoinSplitCons(s: string, sep: char)
    requires |s| > 0 && s[0] != sep
    requires Join(Split(s[1..], sep), [sep]) == s[1..]
    ensures Join(Split(s, sep), [sep]) == s
  {
    var rest := Split(s[1..], sep);
    assert Split(s, sep) == [[s[0]] + rest[0]] + rest[1..];
    JoinCons(s[0], rest, [sep]);
    assert s == [s[0]] + s[1..];
  }

  /** Prefixing the first part with a character prefixes the joined string with it. */
  lemma JoinCons(c: char, parts: seq<string>, sep: string)
    requires |parts| >= 1
    ensures Join([[c] + parts[0]] + parts[1..], sep) == [c] + Join(parts, sep)
  {
    var q := [[c] + parts[0]] + parts[1..];
    if |parts| > 1 {
      assert q[1..] == parts[1..];
      assert Join(q, sep) == ([c] + parts[0]) + sep + Join(parts[1..], sep);
    }
  }

  function DigitValue(c: char): nat
    requires IsDigit(c)
  {
    c as int - '0' as int
  }

  /** `int(s)` for a string of digits. */
  function DigitsValue(s: string): nat
    requires forall i :: 0 <= i < |s| ==> IsDigit(s[i])
    decreases |s|
  {
    if |s| == 0 then 0 else 10 * DigitsValue(s[..|s| - 1]) + DigitValue(s[|s| - 1])
  }

  function DigitChar(d: nat): (c: char)
    requires d < 10
    ensures IsDigit(c) && DigitValue(c) == d
  {
    ('0' as int + d) as char
  }

  /** `str(n)` for a natural number. */
  function NatToString(n: nat): (r: string)
    ensures IsDigits(r)
    ensures DigitsValue(r) == n
    decreases n
  {
    if n < 10 then [DigitChar(n)]
    else
      var r := NatToString(n / 10) + [DigitChar(n % 10)];
      assert r[..|r| - 1] == NatToString(n / 10);
      r
  }

  function Zeros(k: nat): (r: string)
    ensures |r| == k && forall i :: 0 <= i < k ==> r[i] == '0'
  {
    seq(k, i => '0')
  }

  lemma {:induction false} LeadingZeros(k: nat, s: string)
    requires forall i :: 0 <= i < |s| ==> IsDigit(s[i])
    ensures forall i :: 0 <= i < |Zeros(k) + s| ==> IsDigit((Zeros(k) + s)[i])
    ensures DigitsValue(Zeros(k) + s) == DigitsValue(s)
    decreases |s|
  {
    var z := Zeros(k) + s;
    if |s| == 0 {
      assert z == Zeros(k);
      ZerosValue(k);
    } else {
      assert z[..|z| - 1] == Zeros(k) + s[..|s| - 1];
      LeadingZeros(k, s[..|s| - 1]);
    }
  }

  lemma {:induction false} ZerosValue(k: nat)
    ensures DigitsValue(Zeros(k)) == 0
    decreases k
  {
    if k > 0 {
      assert Zeros(k)[..k - 1] == Zeros(k - 1);
      ZerosValue(k - 1);
    }
  }

  /** Python's `f"{n:0{width}d}"` for a natural number. */
  function ZeroPad(n: nat, width: nat): (r: string)
    ensures |r| == if |NatToString(n)| < width then width else |NatToString(n)|
    ensures IsDigits(r) && DigitsValue(r) == n
  {
    var s := NatToString(n);
    if |s| < width then
      LeadingZeros(width - |s|, s);
      Zeros(width - |s|) + s
    else s
  }

  /** The longest prefix of `s` made of digits. */
  function LeadingDigits(s: string): (r: string)
    ensures |r| <= |s| && r == s[..|r|]
    ensures forall i :: 0 <= i < |r| ==> IsDigit(r[i])
    ensures |r| == |s| || !IsDigit(s[|r|])
    decreases |s|
  {
    if |s| > 0 && IsDigit(s[0]) then [s[0]] + LeadingDigits(s[1..]) else ""
  }

  /** Index of the first digit of `s`, or |s| when there is none. */
  function FirstDigitIndex(s: string): (i: nat)
    ensures i <= |s|
    ensures forall j :: 0 <= j < i ==> !IsDigit(s[j])
    ensures i < |s| ==> IsDigit(s[i])
    decreases |s|
  {
    if |s| == 0 then 0 else if IsDigit(s[0]) then 0 else 1 + FirstDigitIndex(s[1..])
  }

  /**
   * `re.search(r'\d+', s)`: the first maximal run of digits. It starts at
   * the first digit of `s` (no digit comes before it) and ends at the end
   * of `s` or at a non-digit.
   */
  function FirstDigitRun(s: string): (r: Option<string>)
    ensures r.None? <==> forall j :: 0 <= j < |s| ==> !IsDigit(s[j])
    ensures r.Some? ==> IsDigits(r.value) && Contains(s, r.value)
    ensures r.Some? ==> var i := FirstDigitIndex(s);
      i + |r.value| <= |s| && r.value == s[i..i + |r.value|] &&
      (i + |r.value| == |s| || !IsDigit(s[i + |r.value|]))
  {
    var i := FirstDigitIndex(s);
    if i == |s| then None
    else
      var run := LeadingDigits(s[i..]);
      assert s[i..][..|run|] == s[i..i + |run|];
      ContainsAt(s, run, i);
      Some(run)
  }

  /**
   * The last path component as `pathlib` sees it: the last '/'-separated
   * segment that is neither empty nor ".".
   */
  function PathName(path: string): (r: string)
    ensures forall j :: 0 <= j < |r| ==> r[j] != '/'
  {
    LastComponent(Split(path, '/'))
  }

  function LastComponent(segs: seq<string>): (r: string)
    requires forall k, j :: 0 <= k < |segs| && 0 <= j < |segs[k]| ==> segs[k][j] != '/'
    ensures forall j :: 0 <= j < |r| ==> r[j] != '/'
    decreases |segs|
  {
    if |segs| == 0 then ""
    else if segs[|segs| - 1] != "" && segs[|segs| - 1] != "." then segs[|segs| - 1]
    else LastComponent(segs[..|segs| - 1])
  }

  /** `Path(path).suffix`: from the last '.' of the name, if it is neither first nor last. */
  function Suffix(path: string): (r: string)
    ensures r == [] || (|r| >= 2 && r[0] == '.')
    ensures EndsWith(PathName(path), r)
  {
    var name := PathName(path);
    var i := RFind(name, '.');
    if 0 < i < |name| - 1 then name[i..] else ""
  }

  /**
   * The start of the extension for `os.path.splitext(name)` on a name with
   * no '/': the last '.', provided some character before it is not a '.';
   * otherwise |name| (no extension).
   */
  function ExtStart(name: string): (i: nat)
    ensures i <= |name|
    ensures i < |name| ==> name[i] == '.' && forall j :: i < j < |name| ==> name[j] != '.'
  {
    var dot := RFind(name, '.');
    if dot > 0 && exists j :: 0 <= j < dot && name[j] != '.' then dot else |name|
  }

  /** `os.path.splitext(name)` as a pair (stem, extension). */
  function SplitExt(name: string): (r: (string, string))
    ensures r.0 + r.1 == name
    ensures r.1 == [] || r.1[0] == '.'
  {
    var i := ExtStart(name);
    (name[..i], name[i..])
  }
  /** `re.sub('[...]', rep, s)` for a one-character class `bad` and a one-character replacement. */
  function ReplaceWhere(s: string, bad: char -> bool, rep: char): (r: string)
    ensures |r| == |s|
    ensures forall i :: 0 <= i < |s| ==> r[i] == if bad(s[i]) then rep else s[i]
    decreases |s|
  {
    if |s| == 0 then ""
    else ReplaceWhere(s[..|s| - 1], bad, rep) + [if bad(s[|s| - 1]) then rep else s[|s| - 1]]
  }

  /** When the replacement is not itself replaced, no replaced character is left and a second pass changes nothing. */
  lemma ReplaceWhereClean(s: string, bad: char -> bool, rep: char)
    requires !bad(rep)
    ensures forall i :: 0 <= i < |s| ==> !bad(ReplaceWhere(s, bad, rep)[i])
    ensures ReplaceWhere(ReplaceWhere(s, bad, rep), bad, rep) == ReplaceWhere(s, bad, rep)
  {
  }

  /** Stripping a leading character keeps a suffix that does not start with it. */
  lemma {:induction false} LStripCharKeepsSuffix(s: string, c: char, t: string)
    requires EndsWith(s, t) && |t| > 0 && t[0] != c
    ensures EndsWith(LStripChar(s, c), t)
    decreases |s|
  {
    if |s| > 0 && s[0] == c {
      assert |t| < |s|;
      assert s[1..][|s[1..]| - |t|..] == s[|s| - |t|..];
      LStripCharKeepsSuffix(s[1..], c, t);
    }
  }
  /** Lowercasing twice is lowercasing once. */
  lemma LowerIdempotent(s: string)
    ensures Lower(Lower(s)) == Lower(s)
  {
  }

  /** A string without the separator splits into itself. */
  lemma {:induction false} SplitNoSep(a: string, sep: char)
    requires forall j :: 0 <= j < |a| ==> a[j] != sep
    ensures Split(a, sep) == [a]
    decreases |a|
  {
    if |a| > 0 {
      SplitNoSep(a[1..], sep);
      assert [a[0]] + a[1..] == a;
    }
  }

  /** A separator-free head followed by the separator splits off as the first part. */
  lemma {:induction false} SplitHead(a: string, sep: char, b: string)
    requires forall j :: 0 <= j < |a| ==> a[j] != sep
    ensures Split(a + [sep] + b, sep) == [a] + Split(b, sep)
    decreases |a|
  {
    var s := a + [sep] + b;
    if |a| == 0 {
      assert s[1..] == b;
    } else {
      assert s[1..] == a[1..] + [sep] + b;
      SplitHead(a[1..], sep, b);
      assert [a[0]] + a[1..] == a;
    }
  }

  /** Joining separator-free parts and splitting again gives the parts back. */
  lemma {:induction false} SplitJoin(parts: seq<string>, sep: char)
    requires |parts| >= 1
    requires forall k, j :: 0 <= k < |parts| && 0 <= j < |parts[k]| ==> parts[k][j] != sep
    ensures Split(Join(parts, [sep]), sep) == parts
    decreases |parts|
  {
    if |parts| == 1 {
      SplitNoSep(parts[0], sep);
    } else {
      SplitJoin(parts[1..], sep);
      SplitHead(parts[0], sep, Join(parts[1..], [sep]));
      assert parts[0] + [sep] + Join(parts[1..], [sep]) == Join(parts, [sep]);
      assert [parts[0]] + parts[1..] == parts;
    }
  }
  function Pow10(k: nat): (p: nat)
    ensures p >= 1
  {
    if k == 0 then 1 else 10 * Pow10(k - 1)
  }

  /** A string of k digits is worth less than 10^k. */
  lemma {:induction false} DigitsBound(s: string)
    requires forall i :: 0 <= i < |s| ==> IsDigit(s[i])
    ensures DigitsValue(s) < Pow10(|s|)
    decreases |s|
  {
    if |s| > 0 {
      DigitsBound(s[..|s| - 1]);
    }
  }
}
