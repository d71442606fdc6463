/** The parts of Go's `strings` and `strconv` packages that the query parser,
    the web handlers and the ingestion code rely on, over `seq<char>`. */
module GoStrings {
  import opened Wrappers
  import opened GoInts

  /** `unicode.IsSpace`: the ASCII white space, NEL, NBSP and the Unicode
      space separators. */
  predicate IsSpace(c: char) {
    c == ' ' || c == '\t' || c == '\n' || c == '\U{0B}' || c == '\U{0C}' || c == '\r'
    || c == '\U{85}' || c == '\U{A0}' || c == '\U{1680}'
    || ('\U{2000}' <= c <= '\U{200A}')
    || c == '\U{2028}' || c == '\U{2029}' || c == '\U{202F}' || c == '\U{205F}' || c == '\U{3000}'
  }

  predicate AllSpace(s: string) {
    forall i :: 0 <= i < |s| ==> IsSpace(s[i])
  }

  function TrimLeft(s: string): (r: string)
    ensures |r| <= |s|
    ensures r != [] ==> !IsSpace(r[0])
  {
    if s != [] && IsSpace(s[0]) then TrimLeft(s[1..]) else s
  }

  function TrimRight(s: string): (r: string)
    ensures |r| <= |s|
    ensures r != [] ==> !IsSpace(r[|r| - 1])
  {
    if s != [] && IsSpace(s[|s| - 1]) then TrimRight(s[..|s| - 1]) else s
  }

  /** `strings.TrimSpace`: white space removed from both ends; the result
      neither starts nor ends with white space (`TrimSpaceInfix` shows that
      only white space was removed). */
  function TrimSpace(s: string): (r: string)
    ensures |r| <= |s|
    ensures r != [] ==> !IsSpace(r[0]) && !IsSpace(r[|r| - 1])
  {
    TrimRightPrefix(TrimLeft(s));
    TrimRight(TrimLeft(s))
  }

  lemma {:induction false} TrimLeftEmpty(s: string)
    ensures TrimLeft(s) == [] <==> AllSpace(s)
  {
    if s != [] && IsSpace(s[0]) {
      TrimLeftEmpty(s[1..]);
      assert AllSpace(s) <==> AllSpace(s[1..]);
    }
  }

  lemma {:induction false} TrimRightEmpty(s: string)
    ensures TrimRight(s) == [] <==> AllSpace(s)
  {
    if s != [] && IsSpace(s[|s| - 1]) {
      TrimRightEmpty(s[..|s| - 1]);
      assert AllSpace(s) <==> AllSpace(s[..|s| - 1]);
    }
  }

  /** The trimmed text is empty exactly when the input is all white space. */
  lemma TrimSpaceEmpty(s: string)
    ensures TrimSpace(s) == [] <==> AllSpace(s)
  {
    TrimLeftEmpty(s);
    TrimRightEmpty(TrimLeft(s));
  }

  lemma {:induction false} TrimLeftSuffix(s: string)
    ensures var r := TrimLeft(s); r == s[|s| - |r|..] && AllSpace(s[..|s| - |r|])
  {
    if s != [] && IsSpace(s[0]) {
      TrimLeftSuffix(s[1..]);
      var r := TrimLeft(s);
      assert s[1..][..|s| - 1 - |r|] == s[1..|s| - |r|];
    }
  }

  lemma {:induction false} TrimRightPrefix(s: string)
    ensures var r := TrimRight(s); r == s[..|r|] && AllSpace(s[|r|..])
  {
    if s != [] && IsSpace(s[|s| - 1]) {
      TrimRightPrefix(s[..|s| - 1]);
      var r := TrimRight(s);
      assert s[..|s| - 1][|r|..] == s[|r|..|s| - 1];
    }
  }

  /** Trimming removes white space and nothing else: the result is the
      input with a white-space prefix and a white-space suffix cut off. */
  lemma TrimSpaceInfix(s: string)
    ensures exists i, j ::
              0 <= i <= j <= |s| && TrimSpace(s) == s[i..j] && AllSpace(s[..i]) && AllSpace(s[j..])
  {
    var l := TrimLeft(s);
    TrimLeftSuffix(s);
    TrimRightPrefix(l);
    var i := |s| - |l|;
    var j := i + |TrimSpace(s)|;
    assert TrimSpace(s) == s[i..j];
    assert s[j..] == l[|TrimSpace(s)|..];
  }

  lemma {:induction false} TrimLeftKeeps(s: string, c: char)
    requires !IsSpace(c)
    ensures c in TrimLeft(s) <==> c in s
  {
    if s != [] && IsSpace(s[0]) {
      TrimLeftKeeps(s[1..], c);
      assert s == [s[0]] + s[1..];
    }
  }

  lemma {:induction false} TrimRightKeeps(s: string, c: char)
    requires !IsSpace(c)
    ensures c in TrimRight(s) <==> c in s
  {
    if s != [] && IsSpace(s[|s| - 1]) {
      TrimRightKeeps(s[..|s| - 1], c);
      assert s == s[..|s| - 1] + [s[|s| - 1]];
    }
  }

  /** Trimming removes only white space: every other character survives. */
  lemma TrimSpaceKeeps(s: string, c: char)
    requires !IsSpace(c)
    ensures c in TrimSpace(s) <==> c in s
  {
    TrimLeftKeeps(s, c);
    TrimRightKeeps(TrimLeft(s), c);
  }

  lemma TrimSpaceNoOp(s: string)
    requires s != [] && !IsSpace(s[0]) && !IsSpace(s[|s| - 1])
    ensures TrimSpace(s) == s
  {
  }

  lemma TrimSpaceIdempotent(s: string)
    ensures TrimSpace(TrimSpace(s)) == TrimSpace(s)
  {
    var t := TrimSpace(s);
    if t != [] { TrimSpaceNoOp(t); }
  }

  /** `strings.Index` for a one-character separator: -1 when absent. */
  function Index(s: string, c: char): (r: int)
    ensures -1 <= r < |s|
    ensures r == -1 <==> c !in s
    ensures r >= 0 ==> s[r] == c && c !in s[..r]
  {
    if s == [] then -1
    else if s[0] == c then 0
    else
      var k := Index(s[1..], c);
      assert s[1..][..if k < 0 then 0 else k] == s[1..if k < 0 then 1 else k + 1];
      if k == -1 then -1 else k + 1
  }

  /** `strings.LastIndex` for a one-character separator: -1 when absent. */
  function LastIndex(s: string, c: char): (r: int)
    ensures -1 <= r < |s|
    ensures r == -1 <==> c !in s
    ensures r >= 0 ==> s[r] == c && c !in s[r + 1..]
  {
    if s == [] then -1
    else if s[|s| - 1] == c then |s| - 1
    else
      var init := s[..|s| - 1];
      var k := LastIndex(init, c);
      assert s == init + [s[|s| - 1]];
      assert k >= 0 ==> s[k + 1..] == init[k + 1..] + [s[|s| - 1]];
      k
  }

  /** A position holding `c` with no `c` before it is the first index. */
  lemma IndexAt(s: string, c: char, i: nat)
    requires i < |s| && s[i] == c && c !in s[..i]
    ensures Index(s, c) == i
  {
  }

  /** A position holding `c` with no `c` after it is the last index. */
  lemma LastIndexAt(s: string, c: char, i: nat)
    requires i < |s| && s[i] == c && c !in s[i + 1..]
    ensures LastIndex(s, c) == i
  {
  }

  predicate HasPrefix(s: string, p: string) {
    |p| <= |s| && s[..|p|] == p
  }

  predicate HasSuffix(s: string, p: string) {
    |p| <= |s| && s[|s| - |p|..] == p
  }

  function Join(parts: seq<string>, sep: char): string
  {
    if |parts| == 0 then ""
    else if |parts| == 1 then parts[0]
    else parts[0] + [sep] + Join(parts[1..], sep)
  }

  /** `strings.Split` with a one-character separator: always at least one
      piece and no piece holds the separator; `SplitJoin` shows that joining
      the pieces gives the input back. */
  function Split(s: string, sep: char): (parts: seq<string>)
    ensures |parts| >= 1
    ensures forall i :: 0 <= i < |parts| ==> sep !in parts[i]
    decreases |s|
  {
    var i := Index(s, sep);
    if i == -1 then [s]
    else
      var rest := Split(s[i + 1..], sep);
      var parts := [s[..i]] + rest;
      assert forall k :: 1 <= k < |parts| ==> parts[k] == rest[k - 1];
      parts
  }

  /** Text without the separator is one piece. */
  lemma SplitNone(s: string, sep: char)
    requires sep !in s
    ensures Split(s, sep) == [s]
  {
  }

  lemma {:induction false} SplitJoin(s: string, sep: char)
    ensures Join(Split(s, sep), sep) == s
    decreases |s|
  {
    var i := Index(s, sep);
    if i != -1 {
      var rest := Split(s[i + 1..], sep);
      SplitJoin(s[i + 1..], sep);
      var parts := [s[..i]] + rest;
      assert parts[0] == s[..i] && parts[1..] == rest;
      assert s == s[..i] + [sep] + s[i + 1..];
    }
  }

  predicate IsDigit(c: char) { '0' <= c <= '9' }

  predicate AllDigits(s: string) {
    forall i :: 0 <= i < |s| ==> IsDigit(s[i])
  }

  function DigitsValue(s: string): nat
    requires AllDigits(s)
  {
    if s == [] then 0 else DigitsValue(s[..|s| - 1]) * 10 + (s[|s| - 1] as int - '0' as int)
  }

  /** `strconv.Atoi` on a 64-bit platform: an optional sign, at least one
      ASCII digit, nothing else, and a value that fits in `int`. */
  function Atoi(s: string): (r: Option<int>)
    ensures r.Some? ==> InInt64(r.value)
    ensures r.Some? ==> s != [] && (AllDigits(s) || ((s[0] == '+' || s[0] == '-') && |s| >= 2 && AllDigits(s[1..])))
  {
    if s == [] then None
    else
      var neg := s[0] == '-';
      var digits := if s[0] == '+' || s[0] == '-' then s[1..] else s;
      if digits == [] || !AllDigits(digits) then None
      else
        var n: int := DigitsValue(digits);
        var v := if neg then -n else n;
        if InInt64(v) then Some(v) else None
  }

  /** The text after an optional leading sign. */
  function Unsigned(s: string): (r: string)
    ensures s != [] && (s[0] == '+' || s[0] == '-') ==> r == s[1..]
    ensures !(s != [] && (s[0] == '+' || s[0] == '-')) ==> r == s
  {
    if s != [] && (s[0] == '+' || s[0] == '-') then s[1..] else s
  }

  predicate Negative(s: string) {
    s != [] && s[0] == '-'
  }

  /** The length of the run of ASCII digits that starts the text. */
  function LeadingDigits(s: string): (k: nat)
    ensures k <= |s| && AllDigits(s[..k])
    ensures k < |s| ==> !IsDigit(s[k])
  {
    if s == [] || !IsDigit(s[0]) then 0
    else
      var k := 1 + LeadingDigits(s[1..]);
      assert s[..k] == [s[0]] + s[1..][..k - 1];
      k
  }

  /** The value of the leading digit run. */
  function LeadingValue(s: string): nat {
    DigitsValue(s[..LeadingDigits(s)])
  }

  /** The number `strconv.Atoi` returns next to its error, which callers
      that discard the error use. Past 18 characters Go reads the text
      with `ParseInt`, whose `ParseUint` checks each byte for being a digit
      before checking for overflow: a leading digit run that already
      exceeds `uint64` gives the nearest `int64` whatever follows it, any
      other text with a non-digit gives 0, and a plain number out of range
      gives the nearest `int64`. Below 19 characters no digit run can
      overflow, so the short path Go takes agrees. */
  function AtoiLenient(s: string): (r: int)
    ensures InInt64(r)
    ensures Atoi(s).Some? ==> r == Atoi(s).value
    ensures Atoi(s).None? ==> r == 0 || r == MinInt64 || r == MaxInt64
    ensures var digits := Unsigned(s);
      LeadingDigits(digits) < |digits| && LeadingValue(digits) < TwoTo64 ==> r == 0
    ensures LeadingValue(Unsigned(s)) >= TwoTo64 ==> r == if Negative(s) then MinInt64 else MaxInt64
    ensures var digits := Unsigned(s);
      digits != [] && AllDigits(digits) ==> r == Saturate64(if Negative(s) then -(DigitsValue(digits) as int) else DigitsValue(digits))
  {
    var digits := Unsigned(s);
    var k := LeadingDigits(digits);
    var n: int := LeadingValue(digits);
    assert AllDigits(digits) ==> k == |digits| && digits[..k] == digits;
    if k < |digits| && n < TwoTo64 then 0
    else Saturate64(if Negative(s) then -n else n)
  }

  /** A digit run that outgrows `uint64` saturates even when junk follows
      it: Go reports the overflow before it reaches the junk. */
  lemma AtoiLenientOverflowFirst(digits: string, junk: string)
    requires digits != [] && AllDigits(digits) && DigitsValue(digits) >= TwoTo64
    requires junk != [] && !IsDigit(junk[0])
    ensures AtoiLenient(digits + junk) == MaxInt64
    ensures AtoiLenient("-" + digits + junk) == MinInt64
  {
    LeadingDigitsOf(digits, junk);
    assert Unsigned(digits + junk) == digits + junk by { assert IsDigit(digits[0]); }
    assert Unsigned("-" + digits + junk) == digits + junk;
  }

  lemma {:induction false} LeadingDigitsOf(digits: string, junk: string)
    requires AllDigits(digits) && junk != [] && !IsDigit(junk[0])
    ensures LeadingDigits(digits + junk) == |digits|
    ensures (digits + junk)[..|digits|] == digits
  {
    if digits != [] {
      LeadingDigitsOf(digits[1..], junk);
      assert (digits + junk)[1..] == digits[1..] + junk;
    }
  }

  /** `strconv.Itoa` on a non-negative number. */
  function Itoa(n: nat): (r: string)
    ensures r != [] && AllDigits(r)
    decreases n
  {
    var d := ['0' + (n % 10) as char];
    if n < 10 then d else Itoa(n / 10) + d
  }

  lemma {:induction false} DigitsValueItoa(n: nat)
    ensures DigitsValue(Itoa(n)) == n
    decreases n
  {
    var s := Itoa(n);
    if n >= 10 {
      DigitsValueItoa(n / 10);
      assert s[..|s| - 1] == Itoa(n / 10);
    }
  }

  /** A plain run of digits reads as its decimal value when that fits. */
  lemma AtoiDigits(s: string)
    requires s != [] && AllDigits(s) && DigitsValue(s) <= MaxInt64
    ensures Atoi(s) == Some(DigitsValue(s))
  {
    assert IsDigit(s[0]);
  }

  /** Printing a number and reading it back gives the number. */
  lemma AtoiItoa(n: nat)
    requires n <= MaxInt64
    ensures Atoi(Itoa(n)) == Some(n)
  {
    DigitsValueItoa(n);
  }

  lemma AtoiSmall()
    ensures Atoi("5") == Some(5)
    ensures Atoi("-12") == Some(-12)
    ensures Atoi("5m") == None
    ensures Atoi("") == None
  {
    assert DigitsValue("5") == 5;
    assert DigitsValue("12") == DigitsValue("1") * 10 + 2;
    assert "5m"[1] == 'm';
  }
}
